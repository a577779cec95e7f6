/**
 * The wire strings of the three enums, and the parsers serde's derived
 * `Deserialize` would use for them.
 */
module Enums {
  import opened Wrappers
  import opened Rename
  import opened Query

  /** `#[serde(rename = "B")]` and `#[serde(rename = "W")]`. */
  function PlayerWire(p: Player): string
  {
    match p
    case Black => "B"
    case White => "W"
  }

  function ParsePlayer(s: string): Option<Player>
  {
    if s == "B" then Some(Black)
    else if s == "W" then Some(White)
    else None
  }

  /** `Zero` and `NMinusOne` are renamed; `N` keeps its variant name. */
  function BonusWire(b: WhiteHandicapBonus): string
  {
    match b
    case Zero => "0"
    case N => "N"
    case NMinusOne => "N-1"
  }

  function ParseBonus(s: string): Option<WhiteHandicapBonus>
  {
    if s == "0" then Some(Zero)
    else if s == "N" then Some(N)
    else if s == "N-1" then Some(NMinusOne)
    else None
  }

  /** The words of each rule-set variant's Rust identifier, in lower case. */
  function RulesWords(r: Rules): (ws: seq<string>)
    ensures |ws| > 0
  {
    match r
    case TrompTaylor => ["tromp", "taylor"]
    case Chinese => ["chinese"]
    case ChineseOgs => ["chinese", "ogs"]
    case ChineseKgs => ["chinese", "kgs"]
    case Japanese => ["japanese"]
    case Korean => ["korean"]
    case StoneScoring => ["stone", "scoring"]
    case Aga => ["aga"]
    case Bga => ["bga"]
    case NewZealand => ["new", "zealand"]
    case AgaButton => ["aga", "button"]
  }

  /** The Rust identifier of each variant: `TrompTaylor`, `ChineseOgs`, ... */
  function VariantName(r: Rules): string
  {
    CapitalizeAll(RulesWords(r))
  }

  /** `#[serde(rename_all = "kebab-case")]` on `Rules`. */
  function RulesWire(r: Rules): string
  {
    KebabVariant(VariantName(r))
  }

  /** The wire string of every rule set. */
  function RulesTable(r: Rules): string
  {
    match r
    case TrompTaylor => "tromp-taylor"
    case Chinese => "chinese"
    case ChineseOgs => "chinese-ogs"
    case ChineseKgs => "chinese-kgs"
    case Japanese => "japanese"
    case Korean => "korean"
    case StoneScoring => "stone-scoring"
    case Aga => "aga"
    case Bga => "bga"
    case NewZealand => "new-zealand"
    case AgaButton => "aga-button"
  }

  function ParseRules(s: string): Option<Rules>
  {
    if s == "tromp-taylor" then Some(TrompTaylor)
    else if s == "chinese" then Some(Chinese)
    else if s == "chinese-ogs" then Some(ChineseOgs)
    else if s == "chinese-kgs" then Some(ChineseKgs)
    else if s == "japanese" then Some(Japanese)
    else if s == "korean" then Some(Korean)
    else if s == "stone-scoring" then Some(StoneScoring)
    else if s == "aga" then Some(Aga)
    else if s == "bga" then Some(Bga)
    else if s == "new-zealand" then Some(NewZealand)
    else if s == "aga-button" then Some(AgaButton)
    else None
  }

  /** Decoding a player code undoes encoding, and only the two codes decode. */
  lemma ParsePlayerWire(s: string, p: Player)
    ensures ParsePlayer(s) == Some(p) <==> PlayerWire(p) == s
  {
  }

  lemma ParseBonusWire(s: string, b: WhiteHandicapBonus)
    ensures ParseBonus(s) == Some(b) <==> BonusWire(b) == s
  {
  }

  lemma RulesFromWords(r: Rules, first: string, rest: seq<string>, wire: string)
    requires RulesWords(r) == [first] + rest
    requires VariantWords(first, rest)
    requires first + Prefixed(rest, '-') == wire
    ensures RulesWire(r) == wire
  {
    assert RulesWords(r)[1..] == rest;
    KebabVariantOfWords(first, rest);
  }

  lemma RulesWordsTrompTaylor()
    ensures "tromp" + Prefixed(["taylor"], '-') == "tromp-taylor"
  {
  }

  lemma RulesWireTrompTaylor()
    ensures RulesWire(TrompTaylor) == "tromp-taylor"
  {
    RulesWordsTrompTaylor();
    RulesFromWords(TrompTaylor, "tromp", ["taylor"], "tromp-taylor");
  }

  lemma RulesWireChinese()
    ensures RulesWire(Chinese) == "chinese"
  {
    RulesFromWords(Chinese, "chinese", [], "chinese");
  }

  lemma RulesWordsChineseOgs()
    ensures "chinese" + Prefixed(["ogs"], '-') == "chinese-ogs"
  {
  }

  lemma RulesWireChineseOgs()
    ensures RulesWire(ChineseOgs) == "chinese-ogs"
  {
    RulesWordsChineseOgs();
    RulesFromWords(ChineseOgs, "chinese", ["ogs"], "chinese-ogs");
  }

  lemma RulesWordsChineseKgs()
    ensures "chinese" + Prefixed(["kgs"], '-') == "chinese-kgs"
  {
  }

  lemma RulesWireChineseKgs()
    ensures RulesWire(ChineseKgs) == "chinese-kgs"
  {
    RulesWordsChineseKgs();
    RulesFromWords(ChineseKgs, "chinese", ["kgs"], "chinese-kgs");
  }

  lemma RulesWireJapanese()
    ensures RulesWire(Japanese) == "japanese"
  {
    RulesFromWords(Japanese, "japanese", [], "japanese");
  }

  lemma RulesWireKorean()
    ensures RulesWire(Korean) == "korean"
  {
    RulesFromWords(Korean, "korean", [], "korean");
  }

  lemma RulesWordsStoneScoring()
    ensures "stone" + Prefixed(["scoring"], '-') == "stone-scoring"
  {
  }

  lemma RulesWireStoneScoring()
    ensures RulesWire(StoneScoring) == "stone-scoring"
  {
    RulesWordsStoneScoring();
    RulesFromWords(StoneScoring, "stone", ["scoring"], "stone-scoring");
  }

  lemma RulesWireAga()
    ensures RulesWire(Aga) == "aga"
  {
    RulesFromWords(Aga, "aga", [], "aga");
  }

  lemma RulesWireBga()
    ensures RulesWire(Bga) == "bga"
  {
    RulesFromWords(Bga, "bga", [], "bga");
  }

  lemma RulesWordsNewZealand()
    ensures "new" + Prefixed(["zealand"], '-') == "new-zealand"
  {
  }

  lemma RulesWireNewZealand()
    ensures RulesWire(NewZealand) == "new-zealand"
  {
    RulesWordsNewZealand();
    RulesFromWords(NewZealand, "new", ["zealand"], "new-zealand");
  }

  lemma RulesWordsAgaButton()
    ensures "aga" + Prefixed(["button"], '-') == "aga-button"
  {
  }

  lemma RulesWireAgaButton()
    ensures RulesWire(AgaButton) == "aga-button"
  {
    RulesWordsAgaButton();
    RulesFromWords(AgaButton, "aga", ["button"], "aga-button");
  }

  /** The kebab-case rule gives each variant the string in the table. */
  lemma RulesWireTable(r: Rules)
    ensures RulesWire(r) == RulesTable(r)
  {
    match r
    case TrompTaylor => RulesWireTrompTaylor();
    case Chinese => RulesWireChinese();
    case ChineseOgs => RulesWireChineseOgs();
    case ChineseKgs => RulesWireChineseKgs();
    case Japanese => RulesWireJapanese();
    case Korean => RulesWireKorean();
    case StoneScoring => RulesWireStoneScoring();
    case Aga => RulesWireAga();
    case Bga => RulesWireBga();
    case NewZealand => RulesWireNewZealand();
    case AgaButton => RulesWireAgaButton();
  }

  /** The eleven wire strings differ, so the wire string determines the rule set. */
  lemma RulesWireInjective(r: Rules, r': Rules)
    ensures RulesWire(r) == RulesWire(r') <==> r == r'
  {
    RulesWireTable(r);
    RulesWireTable(r');
  }

  lemma ParseRulesTable(s: string, r: Rules)
    ensures ParseRules(s) == Some(r) <==> RulesTable(r) == s
  {
  }

  /** Decoding a rule-set string undoes encoding, and only the eleven strings decode. */
  lemma ParseRulesWire(s: string, r: Rules)
    ensures ParseRules(s) == Some(r) <==> RulesWire(r) == s
  {
    RulesWireTable(r);
    ParseRulesTable(s, r);
  }
}
