/**
 * How a `KataQuery` is serialised by its derived `Serialize`: one object
 * member per declared field, in declaration order, under its camelCase
 * key. No field has a skip attribute, so an unset option is written as
 * `null` rather than left out.
 */
module Wire {
  import opened Wrappers
  import opened Json
  import opened Query
  import opened FieldKeys
  import opened Enums
  import Fields

  /** A `(Player, String)` tuple is a two-element array. */
  function StoneJson(s: Stone): Json
  {
    Array([Str(PlayerWire(s.0)), Str(s.1)])
  }

  /** A `Vec` or array is a JSON array of its elements, in order. */
  function SeqJson<T>(xs: seq<T>, enc: T -> Json): Json
  {
    Array(seq(|xs|, i requires 0 <= i < |xs| => enc(xs[i])))
  }

  /** The array of a sequence holds each element's encoding at that element's position. */
  lemma SeqJsonItems<T>(xs: seq<T>, enc: T -> Json)
    ensures SeqJson(xs, enc).Array?
    ensures |SeqJson(xs, enc).items| == |xs|
    ensures forall i :: 0 <= i < |xs| ==> SeqJson(xs, enc).items[i] == enc(xs[i])
  {
  }

  /** `Option` without `skip_serializing_if`: `None` is written as `null`. */
  function OptionJson<T>(o: Option<T>, enc: T -> Json): Json
  {
    if o.Some? then enc(o.value) else Null
  }

  /** serde_json writes a NaN or an infinite `f32` as `null`. */
  function F32Json(f: F32): Json
  {
    if IsFinite(f) then Float(Single(f.bits)) else Null
  }

  function IntJson(i: int): Json
  {
    Integer(i)
  }

  function BoolJson(b: bool): Json
  {
    Bool(b)
  }

  function StrJson(s: string): Json
  {
    Str(s)
  }

  function GroupJson(g: MoveGroup): Json
  {
    Object([
      (GroupKeyTable(Fields.GroupField.Player), Str(PlayerWire(g.player))),
      (GroupKeyTable(Fields.GroupField.Moves), SeqJson(g.moves, StrJson)),
      (GroupKeyTable(Fields.UntilDepth), Integer(g.untilDepth))])
  }

  /** `[MoveGroup; 1]` is an array holding its one group. */
  function AllowJson(g: MoveGroup): Json
  {
    Array([GroupJson(g)])
  }

  /**
   * The JSON value written for one field of a query. The rule set is
   * written as `RulesTable`, which is its kebab-case name by `RulesWireTable`.
   */
  function FieldJson(q: KataQuery, f: Fields.Field): Json
  {
    match f
    case Id => Str(q.id)
    case InitialStones => OptionJson(q.initialStones, (ss: seq<Stone>) => SeqJson(ss, StoneJson))
    case Moves => SeqJson(q.moves, StoneJson)
    case Rules => Str(RulesTable(q.rules))
    case InitialPlayer => OptionJson(q.initialPlayer, (p: Player) => Str(PlayerWire(p)))
    case Komi => OptionJson(q.komi, F32Json)
    case WhiteHandicapBonus => OptionJson(q.whiteHandicapBonus, (b: WhiteHandicapBonus) => Str(BonusWire(b)))
    case BoardXSize => Integer(q.boardXSize)
    case BoardYSize => Integer(q.boardYSize)
    case AnalyzeTurns => OptionJson(q.analyzeTurns, (ts: seq<U16>) => SeqJson<int>(ts, IntJson))
    case MaxVisits => OptionJson<int>(q.maxVisits, IntJson)
    case RootPolicyTemperature => OptionJson(q.rootPolicyTemperature, F32Json)
    case RootFpuReductionMax => OptionJson(q.rootFpuReductionMax, F32Json)
    case AnaysisPvLen => OptionJson<int>(q.anaysisPvLen, IntJson)
    case IncludeOwnership => OptionJson(q.includeOwnership, BoolJson)
    case InlcudeOwnershipStdev => OptionJson(q.inlcudeOwnershipStdev, BoolJson)
    case IncludeMovesOwnership => OptionJson(q.includeMovesOwnership, BoolJson)
    case IncludeMovesOwnershipStdev => OptionJson(q.includeMovesOwnershipStdev, BoolJson)
    case IncludePolicy => OptionJson(q.includePolicy, BoolJson)
    case IncludePvVisits => OptionJson(q.includePvVisits, BoolJson)
    case AvoidMoves => OptionJson(q.avoidMoves, (gs: seq<MoveGroup>) => SeqJson(gs, GroupJson))
    case AllowMoves => OptionJson(q.allowMoves, AllowJson)
    case OverrideSettings => OptionJson(q.overrideSettings, (v: Json) => v)
    case ReportDuringSearchEvery => OptionJson(q.reportDuringSearchEvery, F32Json)
    case Priority => OptionJson<int>(q.priority, IntJson)
    case Priorities => OptionJson(q.priorities, (ps: seq<I32>) => SeqJson<int>(ps, IntJson))
  }

  /**
   * One member per declared field, in declaration order, under the key the
   * camelCase rule gives it (`KeyTable` is that key, by `WireKeyTable`).
   */
  function Members(q: KataQuery): seq<(string, Json)>
  {
    seq(|Fields.Declared|, i requires 0 <= i < |Fields.Declared| => (KeyTable(Fields.Declared[i]), FieldJson(q, Fields.Declared[i])))
  }

  /** The value `serde_json::to_vec` serialises for a query. */
  function ToJson(q: KataQuery): Json
  {
    Object(Members(q))
  }

  /** Whether the query leaves an optional field unset; a required field is never unset. */
  predicate IsUnset(q: KataQuery, f: Fields.Field)
  {
    match f
    case Id => false
    case InitialStones => q.initialStones.None?
    case Moves => false
    case Rules => false
    case InitialPlayer => q.initialPlayer.None?
    case Komi => q.komi.None?
    case WhiteHandicapBonus => q.whiteHandicapBonus.None?
    case BoardXSize => false
    case BoardYSize => false
    case AnalyzeTurns => q.analyzeTurns.None?
    case MaxVisits => q.maxVisits.None?
    case RootPolicyTemperature => q.rootPolicyTemperature.None?
    case RootFpuReductionMax => q.rootFpuReductionMax.None?
    case AnaysisPvLen => q.anaysisPvLen.None?
    case IncludeOwnership => q.includeOwnership.None?
    case InlcudeOwnershipStdev => q.inlcudeOwnershipStdev.None?
    case IncludeMovesOwnership => q.includeMovesOwnership.None?
    case IncludeMovesOwnershipStdev => q.includeMovesOwnershipStdev.None?
    case IncludePolicy => q.includePolicy.None?
    case IncludePvVisits => q.includePvVisits.None?
    case AvoidMoves => q.avoidMoves.None?
    case AllowMoves => q.allowMoves.None?
    case OverrideSettings => q.overrideSettings.None?
    case ReportDuringSearchEvery => q.reportDuringSearchEvery.None?
    case Priority => q.priority.None?
    case Priorities => q.priorities.None?
  }

  /** No value of the query is one the encoding writes as `null` while it is set. */
  predicate Lossless(q: KataQuery)
  {
    && (q.komi.Some? ==> IsFinite(q.komi.value))
    && (q.rootPolicyTemperature.Some? ==> IsFinite(q.rootPolicyTemperature.value))
    && (q.rootFpuReductionMax.Some? ==> IsFinite(q.rootFpuReductionMax.value))
    && (q.reportDuringSearchEvery.Some? ==> IsFinite(q.reportDuringSearchEvery.value))
    && q.overrideSettings != Some(Null)
  }

  // ---------------------------------------------------------------------
  // The shape of the object

  /** Field `f` is the member at its declaration position, under its key from the table. */
  lemma MemberAt(q: KataQuery, f: Fields.Field)
    ensures |ToJson(q).members| == |Fields.Declared|
    ensures ToJson(q).members[Fields.Index(f)] == (WireKey(f), FieldJson(q, f))
  {
    var k := Fields.Index(f);
    assert ToJson(q).members[k] == (KeyTable(Fields.Declared[k]), FieldJson(q, Fields.Declared[k]));
    WireKeyTable(f);
  }

  /** The object has exactly the declared keys in declaration order, each once. */
  lemma ToJsonKeys(q: KataQuery)
    ensures Keys(ToJson(q).members) == seq(|Fields.Declared|, i requires 0 <= i < |Fields.Declared| => KeyTable(Fields.Declared[i]))
    ensures Distinct(Keys(ToJson(q).members))
  {
    DeclaredKeysDistinct();
  }

  /** Looking a field's key up in the object finds that field's value. */
  lemma LookupField(q: KataQuery, f: Fields.Field)
    ensures Lookup(ToJson(q).members, WireKey(f)) == Some(FieldJson(q, f))
  {
    ToJsonKeys(q);
    WireKeyTable(f);
    LookupDistinct(ToJson(q).members, Fields.Index(f));
  }

  /**
   * A field is written as `null` exactly when it is unset, or when it holds a
   * value the encoding cannot tell from an unset one (a NaN or infinite
   * float, or an override that is itself `null`).
   */
  lemma NullIffUnset(q: KataQuery, f: Fields.Field)
    ensures FieldJson(q, f) == Null <==> IsUnset(q, f) || LossyAt(q, f)
  {
    match f
    case Id =>
    case InitialStones =>
    case Moves =>
    case Rules =>
    case InitialPlayer =>
    case Komi =>
    case WhiteHandicapBonus =>
    case BoardXSize =>
    case BoardYSize =>
    case AnalyzeTurns =>
    case MaxVisits =>
    case RootPolicyTemperature =>
    case RootFpuReductionMax =>
    case AnaysisPvLen =>
    case IncludeOwnership =>
    case InlcudeOwnershipStdev =>
    case IncludeMovesOwnership =>
    case IncludeMovesOwnershipStdev =>
    case IncludePolicy =>
    case IncludePvVisits =>
    case AvoidMoves =>
    case AllowMoves =>
    case OverrideSettings =>
    case ReportDuringSearchEvery =>
    case Priority =>
    case Priorities =>
  }

  /** The fields whose set value is written as `null`. */
  predicate LossyAt(q: KataQuery, f: Fields.Field)
  {
    match f
    case Komi => q.komi.Some? && !IsFinite(q.komi.value)
    case RootPolicyTemperature => q.rootPolicyTemperature.Some? && !IsFinite(q.rootPolicyTemperature.value)
    case RootFpuReductionMax => q.rootFpuReductionMax.Some? && !IsFinite(q.rootFpuReductionMax.value)
    case ReportDuringSearchEvery => q.reportDuringSearchEvery.Some? && !IsFinite(q.reportDuringSearchEvery.value)
    case OverrideSettings => q.overrideSettings == Some(Null)
    case _ => false
  }

  /** A lossless query is one no field of which is written as `null` while set. */
  lemma LosslessIffNoLossyField(q: KataQuery)
    ensures Lossless(q) <==> forall f: Fields.Field :: !LossyAt(q, f)
  {
    if !Lossless(q) {
      if q.komi.Some? && !IsFinite(q.komi.value) {
        assert LossyAt(q, Fields.Komi);
      } else if q.rootPolicyTemperature.Some? && !IsFinite(q.rootPolicyTemperature.value) {
        assert LossyAt(q, Fields.RootPolicyTemperature);
      } else if q.rootFpuReductionMax.Some? && !IsFinite(q.rootFpuReductionMax.value) {
        assert LossyAt(q, Fields.RootFpuReductionMax);
      } else if q.reportDuringSearchEvery.Some? && !IsFinite(q.reportDuringSearchEvery.value) {
        assert LossyAt(q, Fields.ReportDuringSearchEvery);
      } else {
        assert LossyAt(q, Fields.OverrideSettings);
      }
    }
  }

  /** The five required fields are never `null`. */
  lemma RequiredNeverNull(q: KataQuery, f: Fields.Field)
    requires Fields.IsRequired(f)
    ensures FieldJson(q, f) != Null
  {
  }

  /** `moves` is an array of `[code, coordinate]` pairs, one per move, in order. */
  lemma MovesShape(q: KataQuery)
    ensures FieldJson(q, Fields.Field.Moves).Array?
    ensures |FieldJson(q, Fields.Field.Moves).items| == |q.moves|
    ensures forall i :: 0 <= i < |q.moves| ==>
      FieldJson(q, Fields.Field.Moves).items[i] == Array([Str(PlayerWire(q.moves[i].0)), Str(q.moves[i].1)])
  {
    SeqJsonItems(q.moves, StoneJson);
  }

  /** `initialStones`, when set, has the same shape as `moves`. */
  lemma InitialStonesShape(q: KataQuery)
    requires q.initialStones.Some?
    ensures FieldJson(q, Fields.InitialStones).Array?
    ensures |FieldJson(q, Fields.InitialStones).items| == |q.initialStones.value|
    ensures forall i :: 0 <= i < |q.initialStones.value| ==>
      FieldJson(q, Fields.InitialStones).items[i] == Array([Str(PlayerWire(q.initialStones.value[i].0)), Str(q.initialStones.value[i].1)])
  {
    SeqJsonItems(q.initialStones.value, StoneJson);
  }

  /** The rule set is written as the kebab-case form of its variant name. */
  lemma RulesField(q: KataQuery)
    ensures FieldJson(q, Fields.Rules) == Str(RulesWire(q.rules))
  {
    RulesWireTable(q.rules);
  }

  /** `allowMoves`, when set, is an array holding exactly one move group. */
  lemma AllowMovesShape(q: KataQuery)
    requires q.allowMoves.Some?
    ensures FieldJson(q, Fields.AllowMoves) == Array([GroupJson(q.allowMoves.value)])
  {
  }

  /** A non-finite komi is written exactly as an absent one: the encoding is lossy there. */
  lemma NonFiniteKomiLooksUnset(q: KataQuery)
    requires q.komi.Some? && !IsFinite(q.komi.value)
    ensures ToJson(q) == ToJson(q.(komi := None))
    ensures q != q.(komi := None)
  {
    var q' := q.(komi := None);
    forall i | 0 <= i < |Fields.Declared|
      ensures FieldJson(q, Fields.Declared[i]) == FieldJson(q', Fields.Declared[i])
    {
    }
    assert Members(q) == Members(q');
  }
}
