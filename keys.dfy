/**
 * The JSON keys of `KataQuery` and `MoveGroup`: serde's camelCase rule
 * applied to each Rust field name, misspellings and all.
 */
module FieldKeys {
  import opened Json
  import opened Rename
  import Fields

  /** `#[serde(rename_all = "camelCase")]` on `KataQuery`. */
  function WireKey(f: Fields.Field): string
  {
    CamelField(Fields.RustName(f))
  }

  /** `#[serde(rename_all = "camelCase")]` on `MoveGroup`. */
  function GroupKey(g: Fields.GroupField): string
  {
    CamelField(Fields.GroupRustName(g))
  }

  /** The key every field is written under, misspellings included. */
  function KeyTable(f: Fields.Field): string
  {
    match f
    case Id => "id"
    case InitialStones => "initialStones"
    case Moves => "moves"
    case Rules => "rules"
    case InitialPlayer => "initialPlayer"
    case Komi => "komi"
    case WhiteHandicapBonus => "whiteHandicapBonus"
    case BoardXSize => "boardXSize"
    case BoardYSize => "boardYSize"
    case AnalyzeTurns => "analyzeTurns"
    case MaxVisits => "maxVisits"
    case RootPolicyTemperature => "rootPolicyTemperature"
    case RootFpuReductionMax => "rootFpuReductionMax"
    case AnaysisPvLen => "anaysisPvLen"
    case IncludeOwnership => "includeOwnership"
    case InlcudeOwnershipStdev => "inlcudeOwnershipStdev"
    case IncludeMovesOwnership => "includeMovesOwnership"
    case IncludeMovesOwnershipStdev => "includeMovesOwnershipStdev"
    case IncludePolicy => "includePolicy"
    case IncludePvVisits => "includePvVisits"
    case AvoidMoves => "avoidMoves"
    case AllowMoves => "allowMoves"
    case OverrideSettings => "overrideSettings"
    case ReportDuringSearchEvery => "reportDuringSearchEvery"
    case Priority => "priority"
    case Priorities => "priorities"
  }

  /** The key of a field whose Rust name is the given words joined by `_`. */
  lemma KeyFromWords(f: Fields.Field, first: string, rest: seq<string>)
    requires Fields.Words(f) == [first] + rest
    requires FieldWords(first, rest)
    ensures WireKey(f) == first + CapitalizeAll(rest)
  {
    assert Fields.Words(f)[1..] == rest;
    CamelFieldOfWords(first, rest);
  }

  lemma GroupKeyFromWords(g: Fields.GroupField, first: string, rest: seq<string>)
    requires Fields.GroupWords(g) == [first] + rest
    requires FieldWords(first, rest)
    ensures GroupKey(g) == first + CapitalizeAll(rest)
  {
    assert Fields.GroupWords(g)[1..] == rest;
    CamelFieldOfWords(first, rest);
  }

  lemma CapitalizeAll0()
    ensures CapitalizeAll([]) == []
  {
  }

  lemma CapitalizeAll1(b: string)
    ensures CapitalizeAll([b]) == Capitalize(b)
  {
    assert [b][1..] == [];
    assert Capitalize(b) + [] == Capitalize(b);
  }

  lemma CapitalizeAll2(b: string, c: string)
    ensures CapitalizeAll([b, c]) == Capitalize(b) + Capitalize(c)
  {
    assert [b, c][1..] == [c];
    CapitalizeAll1(c);
  }

  lemma CapitalizeAll3(b: string, c: string, d: string)
    ensures CapitalizeAll([b, c, d]) == Capitalize(b) + (Capitalize(c) + Capitalize(d))
  {
    assert [b, c, d][1..] == [c, d];
    CapitalizeAll2(c, d);
  }

  // Facts about single words, each proved by evaluation.

  lemma WordId()
    ensures Word("id", '_') && !IsAsciiUpper("id"[0])
  {
  }

  lemma WordInitial()
    ensures Word("initial", '_') && !IsAsciiUpper("initial"[0])
  {
  }

  lemma WordStones()
    ensures Word("stones", '_') && !IsAsciiUpper("stones"[0])
  {
  }

  lemma WordMoves()
    ensures Word("moves", '_') && !IsAsciiUpper("moves"[0])
  {
  }

  lemma WordRules()
    ensures Word("rules", '_') && !IsAsciiUpper("rules"[0])
  {
  }

  lemma WordPlayer()
    ensures Word("player", '_') && !IsAsciiUpper("player"[0])
  {
  }

  lemma WordKomi()
    ensures Word("komi", '_') && !IsAsciiUpper("komi"[0])
  {
  }

  lemma WordWhite()
    ensures Word("white", '_') && !IsAsciiUpper("white"[0])
  {
  }

  lemma WordHandicap()
    ensures Word("handicap", '_') && !IsAsciiUpper("handicap"[0])
  {
  }

  lemma WordBonus()
    ensures Word("bonus", '_') && !IsAsciiUpper("bonus"[0])
  {
  }

  lemma WordBoard()
    ensures Word("board", '_') && !IsAsciiUpper("board"[0])
  {
  }

  lemma WordX()
    ensures Word("x", '_') && !IsAsciiUpper("x"[0])
  {
  }

  lemma WordSize()
    ensures Word("size", '_') && !IsAsciiUpper("size"[0])
  {
  }

  lemma WordY()
    ensures Word("y", '_') && !IsAsciiUpper("y"[0])
  {
  }

  lemma WordAnalyze()
    ensures Word("analyze", '_') && !IsAsciiUpper("analyze"[0])
  {
  }

  lemma WordTurns()
    ensures Word("turns", '_') && !IsAsciiUpper("turns"[0])
  {
  }

  lemma WordMax()
    ensures Word("max", '_') && !IsAsciiUpper("max"[0])
  {
  }

  lemma WordVisits()
    ensures Word("visits", '_') && !IsAsciiUpper("visits"[0])
  {
  }

  lemma WordRoot()
    ensures Word("root", '_') && !IsAsciiUpper("root"[0])
  {
  }

  lemma WordPolicy()
    ensures Word("policy", '_') && !IsAsciiUpper("policy"[0])
  {
  }

  lemma WordTemperature()
    ensures Word("temperature", '_') && !IsAsciiUpper("temperature"[0])
  {
  }

  lemma WordFpu()
    ensures Word("fpu", '_') && !IsAsciiUpper("fpu"[0])
  {
  }

  lemma WordReduction()
    ensures Word("reduction", '_') && !IsAsciiUpper("reduction"[0])
  {
  }

  lemma WordAnaysis()
    ensures Word("anaysis", '_') && !IsAsciiUpper("anaysis"[0])
  {
  }

  lemma WordPv()
    ensures Word("pv", '_') && !IsAsciiUpper("pv"[0])
  {
  }

  lemma WordLen()
    ensures Word("len", '_') && !IsAsciiUpper("len"[0])
  {
  }

  lemma WordInclude()
    ensures Word("include", '_') && !IsAsciiUpper("include"[0])
  {
  }

  lemma WordOwnership()
    ensures Word("ownership", '_') && !IsAsciiUpper("ownership"[0])
  {
  }

  lemma WordInlcude()
    ensures Word("inlcude", '_') && !IsAsciiUpper("inlcude"[0])
  {
  }

  lemma WordStdev()
    ensures Word("stdev", '_') && !IsAsciiUpper("stdev"[0])
  {
  }

  lemma WordAvoid()
    ensures Word("avoid", '_') && !IsAsciiUpper("avoid"[0])
  {
  }

  lemma WordAllow()
    ensures Word("allow", '_') && !IsAsciiUpper("allow"[0])
  {
  }

  lemma WordOverride()
    ensures Word("override", '_') && !IsAsciiUpper("override"[0])
  {
  }

  lemma WordSettings()
    ensures Word("settings", '_') && !IsAsciiUpper("settings"[0])
  {
  }

  lemma WordReport()
    ensures Word("report", '_') && !IsAsciiUpper("report"[0])
  {
  }

  lemma WordDuring()
    ensures Word("during", '_') && !IsAsciiUpper("during"[0])
  {
  }

  lemma WordSearch()
    ensures Word("search", '_') && !IsAsciiUpper("search"[0])
  {
  }

  lemma WordEvery()
    ensures Word("every", '_') && !IsAsciiUpper("every"[0])
  {
  }

  lemma WordPriority()
    ensures Word("priority", '_') && !IsAsciiUpper("priority"[0])
  {
  }

  lemma WordPriorities()
    ensures Word("priorities", '_') && !IsAsciiUpper("priorities"[0])
  {
  }

  lemma WordUntil()
    ensures Word("until", '_') && !IsAsciiUpper("until"[0])
  {
  }

  lemma WordDepth()
    ensures Word("depth", '_') && !IsAsciiUpper("depth"[0])
  {
  }

  lemma CapitalStones()
    ensures Capitalize("stones") == "Stones"
  {
  }

  lemma CapitalPlayer()
    ensures Capitalize("player") == "Player"
  {
  }

  lemma CapitalHandicap()
    ensures Capitalize("handicap") == "Handicap"
  {
  }

  lemma CapitalBonus()
    ensures Capitalize("bonus") == "Bonus"
  {
  }

  lemma CapitalX()
    ensures Capitalize("x") == "X"
  {
  }

  lemma CapitalSize()
    ensures Capitalize("size") == "Size"
  {
  }

  lemma CapitalY()
    ensures Capitalize("y") == "Y"
  {
  }

  lemma CapitalTurns()
    ensures Capitalize("turns") == "Turns"
  {
  }

  lemma CapitalVisits()
    ensures Capitalize("visits") == "Visits"
  {
  }

  lemma CapitalPolicy()
    ensures Capitalize("policy") == "Policy"
  {
  }

  lemma CapitalTemperature()
    ensures Capitalize("temperature") == "Temperature"
  {
  }

  lemma CapitalFpu()
    ensures Capitalize("fpu") == "Fpu"
  {
  }

  lemma CapitalReduction()
    ensures Capitalize("reduction") == "Reduction"
  {
  }

  lemma CapitalMax()
    ensures Capitalize("max") == "Max"
  {
  }

  lemma CapitalPv()
    ensures Capitalize("pv") == "Pv"
  {
  }

  lemma CapitalLen()
    ensures Capitalize("len") == "Len"
  {
  }

  lemma CapitalOwnership()
    ensures Capitalize("ownership") == "Ownership"
  {
  }

  lemma CapitalStdev()
    ensures Capitalize("stdev") == "Stdev"
  {
  }

  lemma CapitalMoves()
    ensures Capitalize("moves") == "Moves"
  {
  }

  lemma CapitalSettings()
    ensures Capitalize("settings") == "Settings"
  {
  }

  lemma CapitalDuring()
    ensures Capitalize("during") == "During"
  {
  }

  lemma CapitalSearch()
    ensures Capitalize("search") == "Search"
  {
  }

  lemma CapitalEvery()
    ensures Capitalize("every") == "Every"
  {
  }

  lemma CapitalDepth()
    ensures Capitalize("depth") == "Depth"
  {
  }

  lemma KeyId()
    ensures WireKey(Fields.Id) == "id"
  {
    WordId();
    CapitalizeAll0();
    assert "id" + [] == "id";
    KeyFromWords(Fields.Id, "id", []);
  }

  lemma ShapeInitialStones()
    ensures FieldWords("initial", ["stones"])
  {
    WordInitial();
    WordStones();
    var rest := ["stones"];
    assert rest[0] == "stones";
  }

  lemma SpelledInitialStones()
    ensures "initial" + "Stones" == "initialStones"
  {
  }

  lemma KeyInitialStones()
    ensures WireKey(Fields.InitialStones) == "initialStones"
  {
    ShapeInitialStones();
    CapitalStones();
    CapitalizeAll1("stones");
    SpelledInitialStones();
    KeyFromWords(Fields.InitialStones, "initial", ["stones"]);
  }

  lemma KeyMoves()
    ensures WireKey(Fields.Field.Moves) == "moves"
  {
    WordMoves();
    CapitalizeAll0();
    assert "moves" + [] == "moves";
    KeyFromWords(Fields.Field.Moves, "moves", []);
  }

  lemma KeyRules()
    ensures WireKey(Fields.Rules) == "rules"
  {
    WordRules();
    CapitalizeAll0();
    assert "rules" + [] == "rules";
    KeyFromWords(Fields.Rules, "rules", []);
  }

  lemma ShapeInitialPlayer()
    ensures FieldWords("initial", ["player"])
  {
    WordInitial();
    WordPlayer();
    var rest := ["player"];
    assert rest[0] == "player";
  }

  lemma SpelledInitialPlayer()
    ensures "initial" + "Player" == "initialPlayer"
  {
  }

  lemma KeyInitialPlayer()
    ensures WireKey(Fields.InitialPlayer) == "initialPlayer"
  {
    ShapeInitialPlayer();
    CapitalPlayer();
    CapitalizeAll1("player");
    SpelledInitialPlayer();
    KeyFromWords(Fields.InitialPlayer, "initial", ["player"]);
  }

  lemma KeyKomi()
    ensures WireKey(Fields.Komi) == "komi"
  {
    WordKomi();
    CapitalizeAll0();
    assert "komi" + [] == "komi";
    KeyFromWords(Fields.Komi, "komi", []);
  }

  lemma ShapeWhiteHandicapBonus()
    ensures FieldWords("white", ["handicap", "bonus"])
  {
    WordWhite();
    WordHandicap();
    WordBonus();
    var rest := ["handicap", "bonus"];
    assert rest[0] == "handicap" && rest[1] == "bonus";
  }

  lemma SpelledWhiteHandicapBonus()
    ensures "white" + ("Handicap" + "Bonus") == "whiteHandicapBonus"
  {
  }

  lemma KeyWhiteHandicapBonus()
    ensures WireKey(Fields.WhiteHandicapBonus) == "whiteHandicapBonus"
  {
    ShapeWhiteHandicapBonus();
    CapitalHandicap();
    CapitalBonus();
    CapitalizeAll2("handicap", "bonus");
    SpelledWhiteHandicapBonus();
    KeyFromWords(Fields.WhiteHandicapBonus, "white", ["handicap", "bonus"]);
  }

  lemma ShapeBoardXSize()
    ensures FieldWords("board", ["x", "size"])
  {
    WordBoard();
    WordX();
    WordSize();
    var rest := ["x", "size"];
    assert rest[0] == "x" && rest[1] == "size";
  }

  lemma SpelledBoardXSize()
    ensures "board" + ("X" + "Size") == "boardXSize"
  {
  }

  lemma KeyBoardXSize()
    ensures WireKey(Fields.BoardXSize) == "boardXSize"
  {
    ShapeBoardXSize();
    CapitalX();
    CapitalSize();
    CapitalizeAll2("x", "size");
    SpelledBoardXSize();
    KeyFromWords(Fields.BoardXSize, "board", ["x", "size"]);
  }

  lemma ShapeBoardYSize()
    ensures FieldWords("board", ["y", "size"])
  {
    WordBoard();
    WordY();
    WordSize();
    var rest := ["y", "size"];
    assert rest[0] == "y" && rest[1] == "size";
  }

  lemma SpelledBoardYSize()
    ensures "board" + ("Y" + "Size") == "boardYSize"
  {
  }

  lemma KeyBoardYSize()
    ensures WireKey(Fields.BoardYSize) == "boardYSize"
  {
    ShapeBoardYSize();
    CapitalY();
    CapitalSize();
    CapitalizeAll2("y", "size");
    SpelledBoardYSize();
    KeyFromWords(Fields.BoardYSize, "board", ["y", "size"]);
  }

  lemma ShapeAnalyzeTurns()
    ensures FieldWords("analyze", ["turns"])
  {
    WordAnalyze();
    WordTurns();
    var rest := ["turns"];
    assert rest[0] == "turns";
  }

  lemma SpelledAnalyzeTurns()
    ensures "analyze" + "Turns" == "analyzeTurns"
  {
  }

  lemma KeyAnalyzeTurns()
    ensures WireKey(Fields.AnalyzeTurns) == "analyzeTurns"
  {
    ShapeAnalyzeTurns();
    CapitalTurns();
    CapitalizeAll1("turns");
    SpelledAnalyzeTurns();
    KeyFromWords(Fields.AnalyzeTurns, "analyze", ["turns"]);
  }

  lemma ShapeMaxVisits()
    ensures FieldWords("max", ["visits"])
  {
    WordMax();
    WordVisits();
    var rest := ["visits"];
    assert rest[0] == "visits";
  }

  lemma SpelledMaxVisits()
    ensures "max" + "Visits" == "maxVisits"
  {
  }

  lemma KeyMaxVisits()
    ensures WireKey(Fields.MaxVisits) == "maxVisits"
  {
    ShapeMaxVisits();
    CapitalVisits();
    CapitalizeAll1("visits");
    SpelledMaxVisits();
    KeyFromWords(Fields.MaxVisits, "max", ["visits"]);
  }

  lemma ShapeRootPolicyTemperature()
    ensures FieldWords("root", ["policy", "temperature"])
  {
    WordRoot();
    WordPolicy();
    WordTemperature();
    var rest := ["policy", "temperature"];
    assert rest[0] == "policy" && rest[1] == "temperature";
  }

  lemma SpelledRootPolicyTemperature()
    ensures "root" + ("Policy" + "Temperature") == "rootPolicyTemperature"
  {
  }

  lemma KeyRootPolicyTemperature()
    ensures WireKey(Fields.RootPolicyTemperature) == "rootPolicyTemperature"
  {
    ShapeRootPolicyTemperature();
    CapitalPolicy();
    CapitalTemperature();
    CapitalizeAll2("policy", "temperature");
    SpelledRootPolicyTemperature();
    KeyFromWords(Fields.RootPolicyTemperature, "root", ["policy", "temperature"]);
  }

  lemma ShapeRootFpuReductionMax()
    ensures FieldWords("root", ["fpu", "reduction", "max"])
  {
    WordRoot();
    WordFpu();
    WordReduction();
    WordMax();
    var rest := ["fpu", "reduction", "max"];
    assert rest[0] == "fpu" && rest[1] == "reduction" && rest[2] == "max";
  }

  lemma SpelledRootFpuReductionMax()
    ensures "root" + ("Fpu" + ("Reduction" + "Max")) == "rootFpuReductionMax"
  {
  }

  lemma KeyRootFpuReductionMax()
    ensures WireKey(Fields.RootFpuReductionMax) == "rootFpuReductionMax"
  {
    ShapeRootFpuReductionMax();
    CapitalFpu();
    CapitalReduction();
    CapitalMax();
    CapitalizeAll3("fpu", "reduction", "max");
    SpelledRootFpuReductionMax();
    KeyFromWords(Fields.RootFpuReductionMax, "root", ["fpu", "reduction", "max"]);
  }

  lemma ShapeAnaysisPvLen()
    ensures FieldWords("anaysis", ["pv", "len"])
  {
    WordAnaysis();
    WordPv();
    WordLen();
    var rest := ["pv", "len"];
    assert rest[0] == "pv" && rest[1] == "len";
  }

  lemma SpelledAnaysisPvLen()
    ensures "anaysis" + ("Pv" + "Len") == "anaysisPvLen"
  {
  }

  lemma KeyAnaysisPvLen()
    ensures WireKey(Fields.AnaysisPvLen) == "anaysisPvLen"
  {
    ShapeAnaysisPvLen();
    CapitalPv();
    CapitalLen();
    CapitalizeAll2("pv", "len");
    SpelledAnaysisPvLen();
    KeyFromWords(Fields.AnaysisPvLen, "anaysis", ["pv", "len"]);
  }

  lemma ShapeIncludeOwnership()
    ensures FieldWords("include", ["ownership"])
  {
    WordInclude();
    WordOwnership();
    var rest := ["ownership"];
    assert rest[0] == "ownership";
  }

  lemma SpelledIncludeOwnership()
    ensures "include" + "Ownership" == "includeOwnership"
  {
  }

  lemma KeyIncludeOwnership()
    ensures WireKey(Fields.IncludeOwnership) == "includeOwnership"
  {
    ShapeIncludeOwnership();
    CapitalOwnership();
    CapitalizeAll1("ownership");
    SpelledIncludeOwnership();
    KeyFromWords(Fields.IncludeOwnership, "include", ["ownership"]);
  }

  lemma ShapeInlcudeOwnershipStdev()
    ensures FieldWords("inlcude", ["ownership", "stdev"])
  {
    WordInlcude();
    WordOwnership();
    WordStdev();
    var rest := ["ownership", "stdev"];
    assert rest[0] == "ownership" && rest[1] == "stdev";
  }

  lemma SpelledInlcudeOwnershipStdev()
    ensures "inlcude" + ("Ownership" + "Stdev") == "inlcudeOwnershipStdev"
  {
  }

  lemma KeyInlcudeOwnershipStdev()
    ensures WireKey(Fields.InlcudeOwnershipStdev) == "inlcudeOwnershipStdev"
  {
    ShapeInlcudeOwnershipStdev();
    CapitalOwnership();
    CapitalStdev();
    CapitalizeAll2("ownership", "stdev");
    SpelledInlcudeOwnershipStdev();
    KeyFromWords(Fields.InlcudeOwnershipStdev, "inlcude", ["ownership", "stdev"]);
  }

  lemma ShapeIncludeMovesOwnership()
    ensures FieldWords("include", ["moves", "ownership"])
  {
    WordInclude();
    WordMoves();
    WordOwnership();
    var rest := ["moves", "ownership"];
    assert rest[0] == "moves" && rest[1] == "ownership";
  }

  lemma SpelledIncludeMovesOwnership()
    ensures "include" + ("Moves" + "Ownership") == "includeMovesOwnership"
  {
  }

  lemma KeyIncludeMovesOwnership()
    ensures WireKey(Fields.IncludeMovesOwnership) == "includeMovesOwnership"
  {
    ShapeIncludeMovesOwnership();
    CapitalMoves();
    CapitalOwnership();
    CapitalizeAll2("moves", "ownership");
    SpelledIncludeMovesOwnership();
    KeyFromWords(Fields.IncludeMovesOwnership, "include", ["moves", "ownership"]);
  }

  lemma ShapeIncludeMovesOwnershipStdev()
    ensures FieldWords("include", ["moves", "ownership", "stdev"])
  {
    WordInclude();
    WordMoves();
    WordOwnership();
    WordStdev();
    var rest := ["moves", "ownership", "stdev"];
    assert rest[0] == "moves" && rest[1] == "ownership" && rest[2] == "stdev";
  }

  lemma SpelledIncludeMovesOwnershipStdev()
    ensures "include" + ("Moves" + ("Ownership" + "Stdev")) == "includeMovesOwnershipStdev"
  {
  }

  lemma KeyIncludeMovesOwnershipStdev()
    ensures WireKey(Fields.IncludeMovesOwnershipStdev) == "includeMovesOwnershipStdev"
  {
    ShapeIncludeMovesOwnershipStdev();
    CapitalMoves();
    CapitalOwnership();
    CapitalStdev();
    CapitalizeAll3("moves", "ownership", "stdev");
    SpelledIncludeMovesOwnershipStdev();
    KeyFromWords(Fields.IncludeMovesOwnershipStdev, "include", ["moves", "ownership", "stdev"]);
  }

  lemma ShapeIncludePolicy()
    ensures FieldWords("include", ["policy"])
  {
    WordInclude();
    WordPolicy();
    var rest := ["policy"];
    assert rest[0] == "policy";
  }

  lemma SpelledIncludePolicy()
    ensures "include" + "Policy" == "includePolicy"
  {
  }

  lemma KeyIncludePolicy()
    ensures WireKey(Fields.IncludePolicy) == "includePolicy"
  {
    ShapeIncludePolicy();
    CapitalPolicy();
    CapitalizeAll1("policy");
    SpelledIncludePolicy();
    KeyFromWords(Fields.IncludePolicy, "include", ["policy"]);
  }

  lemma ShapeIncludePvVisits()
    ensures FieldWords("include", ["pv", "visits"])
  {
    WordInclude();
    WordPv();
    WordVisits();
    var rest := ["pv", "visits"];
    assert rest[0] == "pv" && rest[1] == "visits";
  }

  lemma SpelledIncludePvVisits()
    ensures "include" + ("Pv" + "Visits") == "includePvVisits"
  {
  }

  lemma KeyIncludePvVisits()
    ensures WireKey(Fields.IncludePvVisits) == "includePvVisits"
  {
    ShapeIncludePvVisits();
    CapitalPv();
    CapitalVisits();
    CapitalizeAll2("pv", "visits");
    SpelledIncludePvVisits();
    KeyFromWords(Fields.IncludePvVisits, "include", ["pv", "visits"]);
  }

  lemma ShapeAvoidMoves()
    ensures FieldWords("avoid", ["moves"])
  {
    WordAvoid();
    WordMoves();
    var rest := ["moves"];
    assert rest[0] == "moves";
  }

  lemma SpelledAvoidMoves()
    ensures "avoid" + "Moves" == "avoidMoves"
  {
  }

  lemma KeyAvoidMoves()
    ensures WireKey(Fields.AvoidMoves) == "avoidMoves"
  {
    ShapeAvoidMoves();
    CapitalMoves();
    CapitalizeAll1("moves");
    SpelledAvoidMoves();
    KeyFromWords(Fields.AvoidMoves, "avoid", ["moves"]);
  }

  lemma ShapeAllowMoves()
    ensures FieldWords("allow", ["moves"])
  {
    WordAllow();
    WordMoves();
    var rest := ["moves"];
    assert rest[0] == "moves";
  }

  lemma SpelledAllowMoves()
    ensures "allow" + "Moves" == "allowMoves"
  {
  }

  lemma KeyAllowMoves()
    ensures WireKey(Fields.AllowMoves) == "allowMoves"
  {
    ShapeAllowMoves();
    CapitalMoves();
    CapitalizeAll1("moves");
    SpelledAllowMoves();
    KeyFromWords(Fields.AllowMoves, "allow", ["moves"]);
  }

  lemma ShapeOverrideSettings()
    ensures FieldWords("override", ["settings"])
  {
    WordOverride();
    WordSettings();
    var rest := ["settings"];
    assert rest[0] == "settings";
  }

  lemma SpelledOverrideSettings()
    ensures "override" + "Settings" == "overrideSettings"
  {
  }

  lemma KeyOverrideSettings()
    ensures WireKey(Fields.OverrideSettings) == "overrideSettings"
  {
    ShapeOverrideSettings();
    CapitalSettings();
    CapitalizeAll1("settings");
    SpelledOverrideSettings();
    KeyFromWords(Fields.OverrideSettings, "override", ["settings"]);
  }

  lemma ShapeReportDuringSearchEvery()
    ensures FieldWords("report", ["during", "search", "every"])
  {
    WordReport();
    WordDuring();
    WordSearch();
    WordEvery();
    var rest := ["during", "search", "every"];
    assert rest[0] == "during" && rest[1] == "search" && rest[2] == "every";
  }

  lemma SpelledReportDuringSearchEvery()
    ensures "report" + ("During" + ("Search" + "Every")) == "reportDuringSearchEvery"
  {
  }

  lemma KeyReportDuringSearchEvery()
    ensures WireKey(Fields.ReportDuringSearchEvery) == "reportDuringSearchEvery"
  {
    ShapeReportDuringSearchEvery();
    CapitalDuring();
    CapitalSearch();
    CapitalEvery();
    CapitalizeAll3("during", "search", "every");
    SpelledReportDuringSearchEvery();
    KeyFromWords(Fields.ReportDuringSearchEvery, "report", ["during", "search", "every"]);
  }

  lemma KeyPriority()
    ensures WireKey(Fields.Priority) == "priority"
  {
    WordPriority();
    CapitalizeAll0();
    assert "priority" + [] == "priority";
    KeyFromWords(Fields.Priority, "priority", []);
  }

  lemma KeyPriorities()
    ensures WireKey(Fields.Priorities) == "priorities"
  {
    WordPriorities();
    CapitalizeAll0();
    assert "priorities" + [] == "priorities";
    KeyFromWords(Fields.Priorities, "priorities", []);
  }

  lemma GroupKeyPlayer()
    ensures GroupKey(Fields.GroupField.Player) == "player"
  {
    WordPlayer();
    CapitalizeAll0();
    assert "player" + [] == "player";
    GroupKeyFromWords(Fields.GroupField.Player, "player", []);
  }

  lemma GroupKeyMoves()
    ensures GroupKey(Fields.GroupField.Moves) == "moves"
  {
    WordMoves();
    CapitalizeAll0();
    assert "moves" + [] == "moves";
    GroupKeyFromWords(Fields.GroupField.Moves, "moves", []);
  }

  lemma GroupShapeUntilDepth()
    ensures FieldWords("until", ["depth"])
  {
    WordUntil();
    WordDepth();
    var rest := ["depth"];
    assert rest[0] == "depth";
  }

  lemma GroupSpelledUntilDepth()
    ensures "until" + "Depth" == "untilDepth"
  {
  }

  lemma GroupKeyUntilDepth()
    ensures GroupKey(Fields.GroupField.UntilDepth) == "untilDepth"
  {
    GroupShapeUntilDepth();
    CapitalDepth();
    CapitalizeAll1("depth");
    GroupSpelledUntilDepth();
    GroupKeyFromWords(Fields.GroupField.UntilDepth, "until", ["depth"]);
  }

  /** The camelCase rule gives each field the key in the table. */
  lemma WireKeyTable(f: Fields.Field)
    ensures WireKey(f) == KeyTable(f)
  {
    match f
    case Id => KeyId();
    case InitialStones => KeyInitialStones();
    case Moves => KeyMoves();
    case Rules => KeyRules();
    case InitialPlayer => KeyInitialPlayer();
    case Komi => KeyKomi();
    case WhiteHandicapBonus => KeyWhiteHandicapBonus();
    case BoardXSize => KeyBoardXSize();
    case BoardYSize => KeyBoardYSize();
    case AnalyzeTurns => KeyAnalyzeTurns();
    case MaxVisits => KeyMaxVisits();
    case RootPolicyTemperature => KeyRootPolicyTemperature();
    case RootFpuReductionMax => KeyRootFpuReductionMax();
    case AnaysisPvLen => KeyAnaysisPvLen();
    case IncludeOwnership => KeyIncludeOwnership();
    case InlcudeOwnershipStdev => KeyInlcudeOwnershipStdev();
    case IncludeMovesOwnership => KeyIncludeMovesOwnership();
    case IncludeMovesOwnershipStdev => KeyIncludeMovesOwnershipStdev();
    case IncludePolicy => KeyIncludePolicy();
    case IncludePvVisits => KeyIncludePvVisits();
    case AvoidMoves => KeyAvoidMoves();
    case AllowMoves => KeyAllowMoves();
    case OverrideSettings => KeyOverrideSettings();
    case ReportDuringSearchEvery => KeyReportDuringSearchEvery();
    case Priority => KeyPriority();
    case Priorities => KeyPriorities();
  }

  lemma KeyTableInjective(f: Fields.Field, g: Fields.Field)
    ensures KeyTable(f) == KeyTable(g) ==> f == g
  {
  }

  /** No two fields share a key. */
  lemma WireKeyInjective(f: Fields.Field, g: Fields.Field)
    ensures WireKey(f) == WireKey(g) <==> f == g
  {
    WireKeyTable(f);
    WireKeyTable(g);
    KeyTableInjective(f, g);
  }

  lemma DeclaredDistinct()
    ensures Distinct(Fields.Declared)
  {
  }

  /** The keys in declaration order name each field once. */
  lemma DeclaredKeysDistinct()
    ensures Distinct(seq(|Fields.Declared|, i requires 0 <= i < |Fields.Declared| => KeyTable(Fields.Declared[i])))
  {
    DeclaredDistinct();
    forall i, j | 0 <= i < j < |Fields.Declared|
      ensures KeyTable(Fields.Declared[i]) != KeyTable(Fields.Declared[j])
    {
      KeyTableInjective(Fields.Declared[i], Fields.Declared[j]);
    }
  }

  /** The key every move-group field is written under. */
  function GroupKeyTable(g: Fields.GroupField): string
  {
    match g
    case Player => "player"
    case Moves => "moves"
    case UntilDepth => "untilDepth"
  }

  /** The camelCase rule gives each move-group field the key in its table; the three keys differ. */
  lemma GroupKeyTableOf(g: Fields.GroupField)
    ensures GroupKey(g) == GroupKeyTable(g)
    ensures forall h: Fields.GroupField :: GroupKeyTable(h) == GroupKeyTable(g) ==> h == g
  {
    match g
    case Player => GroupKeyPlayer();
    case Moves => GroupKeyMoves();
    case UntilDepth => GroupKeyUntilDepth();
  }
}
