/**
 * `KataQueryBuilder`, the builder `#[derive(Builder)]` generates for
 * `KataQuery`: one optional slot per field, a setter per slot, and
 * `build()`, which fails on the first unset field that has no
 * `#[builder(default)]` and gives every other unset field its default,
 * `None`.
 */
module Builder {
  import opened Wrappers
  import opened Json
  import opened Query
  import Fields
  import Wire

  /** derive_builder's error type. `build()` here only ever reports an unset field. */
  datatype BuilderError = UninitializedField(field: string) | ValidationError(message: string)

  /**
   * The builder's slots. A required field's slot holds the value once set;
   * an optional field's slot holds the `Option` the setter was given, so
   * `komi(None)` fills the slot with `None`.
   */
  datatype Slots = Slots(
    id: Option<string>,
    initialStones: Option<Option<seq<Stone>>>,
    moves: Option<seq<Stone>>,
    rules: Option<Rules>,
    initialPlayer: Option<Option<Player>>,
    komi: Option<Option<F32>>,
    whiteHandicapBonus: Option<Option<WhiteHandicapBonus>>,
    boardXSize: Option<U8>,
    boardYSize: Option<U8>,
    analyzeTurns: Option<Option<seq<U16>>>,
    maxVisits: Option<Option<U32>>,
    rootPolicyTemperature: Option<Option<F32>>,
    rootFpuReductionMax: Option<Option<F32>>,
    anaysisPvLen: Option<Option<U16>>,
    includeOwnership: Option<Option<bool>>,
    inlcudeOwnershipStdev: Option<Option<bool>>,
    includeMovesOwnership: Option<Option<bool>>,
    includeMovesOwnershipStdev: Option<Option<bool>>,
    includePolicy: Option<Option<bool>>,
    includePvVisits: Option<Option<bool>>,
    avoidMoves: Option<Option<seq<MoveGroup>>>,
    allowMoves: Option<Option<MoveGroup>>,
    overrideSettings: Option<Option<Json>>,
    reportDuringSearchEvery: Option<Option<F32>>,
    priority: Option<Option<I32>>,
    priorities: Option<Option<seq<I32>>>)

  /** `Default::default()`: every slot empty. */
  const EmptySlots: Slots := Slots(
    None,
    None,
    None,
    None,
    None,
    None,
    None,
    None,
    None,
    None,
    None,
    None,
    None,
    None,
    None,
    None,
    None,
    None,
    None,
    None,
    None,
    None,
    None,
    None,
    None,
    None)

  /** An optional field of the built query: its slot's `Option`, or `None` when the slot is empty. */
  function OrNone<T>(slot: Option<Option<T>>): Option<T>
  {
    if slot.Some? then slot.value else None
  }

  /** Whether field `f`'s slot is empty. */
  predicate SlotEmpty(s: Slots, f: Fields.Field)
  {
    match f
    case Id => s.id.None?
    case InitialStones => s.initialStones.None?
    case Moves => s.moves.None?
    case Rules => s.rules.None?
    case InitialPlayer => s.initialPlayer.None?
    case Komi => s.komi.None?
    case WhiteHandicapBonus => s.whiteHandicapBonus.None?
    case BoardXSize => s.boardXSize.None?
    case BoardYSize => s.boardYSize.None?
    case AnalyzeTurns => s.analyzeTurns.None?
    case MaxVisits => s.maxVisits.None?
    case RootPolicyTemperature => s.rootPolicyTemperature.None?
    case RootFpuReductionMax => s.rootFpuReductionMax.None?
    case AnaysisPvLen => s.anaysisPvLen.None?
    case IncludeOwnership => s.includeOwnership.None?
    case InlcudeOwnershipStdev => s.inlcudeOwnershipStdev.None?
    case IncludeMovesOwnership => s.includeMovesOwnership.None?
    case IncludeMovesOwnershipStdev => s.includeMovesOwnershipStdev.None?
    case IncludePolicy => s.includePolicy.None?
    case IncludePvVisits => s.includePvVisits.None?
    case AvoidMoves => s.avoidMoves.None?
    case AllowMoves => s.allowMoves.None?
    case OverrideSettings => s.overrideSettings.None?
    case ReportDuringSearchEvery => s.reportDuringSearchEvery.None?
    case Priority => s.priority.None?
    case Priorities => s.priorities.None?
  }

  /** What `build()` returns for the given slots. */
  function Assemble(s: Slots): Result<KataQuery, BuilderError>
  {
    if s.id.None? then Failure(UninitializedField(Fields.RustName(Fields.Id)))
    else if s.moves.None? then Failure(UninitializedField(Fields.RustName(Fields.Field.Moves)))
    else if s.rules.None? then Failure(UninitializedField(Fields.RustName(Fields.Field.Rules)))
    else if s.boardXSize.None? then Failure(UninitializedField(Fields.RustName(Fields.BoardXSize)))
    else if s.boardYSize.None? then Failure(UninitializedField(Fields.RustName(Fields.BoardYSize)))
    else Success(KataQuery(
      s.id.value,
      OrNone(s.initialStones),
      s.moves.value,
      s.rules.value,
      OrNone(s.initialPlayer),
      OrNone(s.komi),
      OrNone(s.whiteHandicapBonus),
      s.boardXSize.value,
      s.boardYSize.value,
      OrNone(s.analyzeTurns),
      OrNone(s.maxVisits),
      OrNone(s.rootPolicyTemperature),
      OrNone(s.rootFpuReductionMax),
      OrNone(s.anaysisPvLen),
      OrNone(s.includeOwnership),
      OrNone(s.inlcudeOwnershipStdev),
      OrNone(s.includeMovesOwnership),
      OrNone(s.includeMovesOwnershipStdev),
      OrNone(s.includePolicy),
      OrNone(s.includePvVisits),
      OrNone(s.avoidMoves),
      OrNone(s.allowMoves),
      OrNone(s.overrideSettings),
      OrNone(s.reportDuringSearchEvery),
      OrNone(s.priority),
      OrNone(s.priorities)))
  }

  /** The slots of a builder on which every setter has been called with `q`'s values. */
  function SlotsOf(q: KataQuery): Slots
  {
    Slots(
      Some(q.id),
      Some(q.initialStones),
      Some(q.moves),
      Some(q.rules),
      Some(q.initialPlayer),
      Some(q.komi),
      Some(q.whiteHandicapBonus),
      Some(q.boardXSize),
      Some(q.boardYSize),
      Some(q.analyzeTurns),
      Some(q.maxVisits),
      Some(q.rootPolicyTemperature),
      Some(q.rootFpuReductionMax),
      Some(q.anaysisPvLen),
      Some(q.includeOwnership),
      Some(q.inlcudeOwnershipStdev),
      Some(q.includeMovesOwnership),
      Some(q.includeMovesOwnershipStdev),
      Some(q.includePolicy),
      Some(q.includePvVisits),
      Some(q.avoidMoves),
      Some(q.allowMoves),
      Some(q.overrideSettings),
      Some(q.reportDuringSearchEvery),
      Some(q.priority),
      Some(q.priorities))
  }

  class KataQueryBuilder {
    var id: Option<string>
    var initialStones: Option<Option<seq<Stone>>>
    var moves: Option<seq<Stone>>
    var rules: Option<Rules>
    var initialPlayer: Option<Option<Player>>
    var komi: Option<Option<F32>>
    var whiteHandicapBonus: Option<Option<WhiteHandicapBonus>>
    var boardXSize: Option<U8>
    var boardYSize: Option<U8>
    var analyzeTurns: Option<Option<seq<U16>>>
    var maxVisits: Option<Option<U32>>
    var rootPolicyTemperature: Option<Option<F32>>
    var rootFpuReductionMax: Option<Option<F32>>
    var anaysisPvLen: Option<Option<U16>>
    var includeOwnership: Option<Option<bool>>
    var inlcudeOwnershipStdev: Option<Option<bool>>
    var includeMovesOwnership: Option<Option<bool>>
    var includeMovesOwnershipStdev: Option<Option<bool>>
    var includePolicy: Option<Option<bool>>
    var includePvVisits: Option<Option<bool>>
    var avoidMoves: Option<Option<seq<MoveGroup>>>
    var allowMoves: Option<Option<MoveGroup>>
    var overrideSettings: Option<Option<Json>>
    var reportDuringSearchEvery: Option<Option<F32>>
    var priority: Option<Option<I32>>
    var priorities: Option<Option<seq<I32>>>

    /** The slots as one value. */
    function Contents(): Slots
      reads this
    {
      Slots(
        id,
        initialStones,
        moves,
        rules,
        initialPlayer,
        komi,
        whiteHandicapBonus,
        boardXSize,
        boardYSize,
        analyzeTurns,
        maxVisits,
        rootPolicyTemperature,
        rootFpuReductionMax,
        anaysisPvLen,
        includeOwnership,
        inlcudeOwnershipStdev,
        includeMovesOwnership,
        includeMovesOwnershipStdev,
        includePolicy,
        includePvVisits,
        avoidMoves,
        allowMoves,
        overrideSettings,
        reportDuringSearchEvery,
        priority,
        priorities)
    }

    /** `KataQuery::builder()`: a builder with every slot empty. */
    constructor ()
      ensures Contents() == EmptySlots
    {
      id := None;
      initialStones := None;
      moves := None;
      rules := None;
      initialPlayer := None;
      komi := None;
      whiteHandicapBonus := None;
      boardXSize := None;
      boardYSize := None;
      analyzeTurns := None;
      maxVisits := None;
      rootPolicyTemperature := None;
      rootFpuReductionMax := None;
      anaysisPvLen := None;
      includeOwnership := None;
      inlcudeOwnershipStdev := None;
      includeMovesOwnership := None;
      includeMovesOwnershipStdev := None;
      includePolicy := None;
      includePvVisits := None;
      avoidMoves := None;
      allowMoves := None;
      overrideSettings := None;
      reportDuringSearchEvery := None;
      priority := None;
      priorities := None;
    }

    method SetId(value: string)
      modifies this
      ensures Contents() == old(Contents()).(id := Some(value))
    {
      id := Some(value);
    }

    method SetInitialStones(value: Option<seq<Stone>>)
      modifies this
      ensures Contents() == old(Contents()).(initialStones := Some(value))
    {
      initialStones := Some(value);
    }

    method SetMoves(value: seq<Stone>)
      modifies this
      ensures Contents() == old(Contents()).(moves := Some(value))
    {
      moves := Some(value);
    }

    method SetRules(value: Rules)
      modifies this
      ensures Contents() == old(Contents()).(rules := Some(value))
    {
      rules := Some(value);
    }

    method SetInitialPlayer(value: Option<Player>)
      modifies this
      ensures Contents() == old(Contents()).(initialPlayer := Some(value))
    {
      initialPlayer := Some(value);
    }

    method SetKomi(value: Option<F32>)
      modifies this
      ensures Contents() == old(Contents()).(komi := Some(value))
    {
      komi := Some(value);
    }

    method SetWhiteHandicapBonus(value: Option<WhiteHandicapBonus>)
      modifies this
      ensures Contents() == old(Contents()).(whiteHandicapBonus := Some(value))
    {
      whiteHandicapBonus := Some(value);
    }

    method SetBoardXSize(value: U8)
      modifies this
      ensures Contents() == old(Contents()).(boardXSize := Some(value))
    {
      boardXSize := Some(value);
    }

    method SetBoardYSize(value: U8)
      modifies this
      ensures Contents() == old(Contents()).(boardYSize := Some(value))
    {
      boardYSize := Some(value);
    }

    method SetAnalyzeTurns(value: Option<seq<U16>>)
      modifies this
      ensures Contents() == old(Contents()).(analyzeTurns := Some(value))
    {
      analyzeTurns := Some(value);
    }

    method SetMaxVisits(value: Option<U32>)
      modifies this
      ensures Contents() == old(Contents()).(maxVisits := Some(value))
    {
      maxVisits := Some(value);
    }

    method SetRootPolicyTemperature(value: Option<F32>)
      modifies this
      ensures Contents() == old(Contents()).(rootPolicyTemperature := Some(value))
    {
      rootPolicyTemperature := Some(value);
    }

    method SetRootFpuReductionMax(value: Option<F32>)
      modifies this
      ensures Contents() == old(Contents()).(rootFpuReductionMax := Some(value))
    {
      rootFpuReductionMax := Some(value);
    }

    method SetAnaysisPvLen(value: Option<U16>)
      modifies this
      ensures Contents() == old(Contents()).(anaysisPvLen := Some(value))
    {
      anaysisPvLen := Some(value);
    }

    method SetIncludeOwnership(value: Option<bool>)
      modifies this
      ensures Contents() == old(Contents()).(includeOwnership := Some(value))
    {
      includeOwnership := Some(value);
    }

    method SetInlcudeOwnershipStdev(value: Option<bool>)
      modifies this
      ensures Contents() == old(Contents()).(inlcudeOwnershipStdev := Some(value))
    {
      inlcudeOwnershipStdev := Some(value);
    }

    method SetIncludeMovesOwnership(value: Option<bool>)
      modifies this
      ensures Contents() == old(Contents()).(includeMovesOwnership := Some(value))
    {
      includeMovesOwnership := Some(value);
    }

    method SetIncludeMovesOwnershipStdev(value: Option<bool>)
      modifies this
      ensures Contents() == old(Contents()).(includeMovesOwnershipStdev := Some(value))
    {
      includeMovesOwnershipStdev := Some(value);
    }

    method SetIncludePolicy(value: Option<bool>)
      modifies this
      ensures Contents() == old(Contents()).(includePolicy := Some(value))
    {
      includePolicy := Some(value);
    }

    method SetIncludePvVisits(value: Option<bool>)
      modifies this
      ensures Contents() == old(Contents()).(includePvVisits := Some(value))
    {
      includePvVisits := Some(value);
    }

    method SetAvoidMoves(value: Option<seq<MoveGroup>>)
      modifies this
      ensures Contents() == old(Contents()).(avoidMoves := Some(value))
    {
      avoidMoves := Some(value);
    }

    method SetAllowMoves(value: Option<MoveGroup>)
      modifies this
      ensures Contents() == old(Contents()).(allowMoves := Some(value))
    {
      allowMoves := Some(value);
    }

    method SetOverrideSettings(value: Option<Json>)
      modifies this
      ensures Contents() == old(Contents()).(overrideSettings := Some(value))
    {
      overrideSettings := Some(value);
    }

    method SetReportDuringSearchEvery(value: Option<F32>)
      modifies this
      ensures Contents() == old(Contents()).(reportDuringSearchEvery := Some(value))
    {
      reportDuringSearchEvery := Some(value);
    }

    method SetPriority(value: Option<I32>)
      modifies this
      ensures Contents() == old(Contents()).(priority := Some(value))
    {
      priority := Some(value);
    }

    method SetPriorities(value: Option<seq<I32>>)
      modifies this
      ensures Contents() == old(Contents()).(priorities := Some(value))
    {
      priorities := Some(value);
    }

    /** `build()`: the fields in declaration order, failing at the first required one left unset. */
    method Build() returns (r: Result<KataQuery, BuilderError>)
      ensures r == Assemble(Contents())
    {
      if id.None? {
        return Failure(UninitializedField(Fields.RustName(Fields.Id)));
      }
      if moves.None? {
        return Failure(UninitializedField(Fields.RustName(Fields.Field.Moves)));
      }
      if rules.None? {
        return Failure(UninitializedField(Fields.RustName(Fields.Field.Rules)));
      }
      if boardXSize.None? {
        return Failure(UninitializedField(Fields.RustName(Fields.BoardXSize)));
      }
      if boardYSize.None? {
        return Failure(UninitializedField(Fields.RustName(Fields.BoardYSize)));
      }
      r := Success(KataQuery(
        id.value,
        OrNone(initialStones),
        moves.value,
        rules.value,
        OrNone(initialPlayer),
        OrNone(komi),
        OrNone(whiteHandicapBonus),
        boardXSize.value,
        boardYSize.value,
        OrNone(analyzeTurns),
        OrNone(maxVisits),
        OrNone(rootPolicyTemperature),
        OrNone(rootFpuReductionMax),
        OrNone(anaysisPvLen),
        OrNone(includeOwnership),
        OrNone(inlcudeOwnershipStdev),
        OrNone(includeMovesOwnership),
        OrNone(includeMovesOwnershipStdev),
        OrNone(includePolicy),
        OrNone(includePvVisits),
        OrNone(avoidMoves),
        OrNone(allowMoves),
        OrNone(overrideSettings),
        OrNone(reportDuringSearchEvery),
        OrNone(priority),
        OrNone(priorities)));
    }
  }

  // ---------------------------------------------------------------------
  // What `build()` promises

  /** `build()` fails exactly when one of the five required fields is unset, and then only with an unset-field error. */
  lemma AssembleFails(s: Slots)
    ensures Assemble(s).Failure? <==> exists f :: Fields.IsRequired(f) && SlotEmpty(s, f)
    ensures Assemble(s).Failure? ==> Assemble(s).error.UninitializedField?
  {
    if Assemble(s).Failure? {
      if s.id.None? {
        assert SlotEmpty(s, Fields.Id);
      } else if s.moves.None? {
        assert SlotEmpty(s, Fields.Field.Moves);
      } else if s.rules.None? {
        assert SlotEmpty(s, Fields.Field.Rules);
      } else if s.boardXSize.None? {
        assert SlotEmpty(s, Fields.BoardXSize);
      } else {
        assert SlotEmpty(s, Fields.BoardYSize);
      }
    }
  }

  /** The error names the first unset required field in declaration order, by its Rust name. */
  lemma AssembleNamesFirstMissing(s: Slots, f: Fields.Field)
    requires Fields.IsRequired(f) && SlotEmpty(s, f)
    requires forall g :: Fields.IsRequired(g) && SlotEmpty(s, g) ==> Fields.Index(f) <= Fields.Index(g)
    ensures Assemble(s) == Failure(UninitializedField(Fields.RustName(f)))
  {
    if f != Fields.Id {
      assert !SlotEmpty(s, Fields.Id);
    }
    if f != Fields.Id && f != Fields.Field.Moves {
      assert !SlotEmpty(s, Fields.Field.Moves);
    }
    if f == Fields.BoardXSize || f == Fields.BoardYSize {
      assert !SlotEmpty(s, Fields.Field.Rules);
    }
    if f == Fields.BoardYSize {
      assert !SlotEmpty(s, Fields.BoardXSize);
    }
  }

  /** A field with `#[builder(default)]` whose slot is empty comes out as `None`. */
  lemma AssembleDefaults(s: Slots, f: Fields.Field)
    requires Assemble(s).Success?
    requires !Fields.IsRequired(f) && SlotEmpty(s, f)
    ensures Wire.IsUnset(Assemble(s).value, f)
  {
  }

  /** A builder whose every setter was called with a query's values builds that query. */
  lemma AssembleSlotsOf(q: KataQuery)
    ensures Assemble(SlotsOf(q)) == Success(q)
  {
  }

  /** A fresh builder fails, naming `id`. */
  lemma AssembleEmpty()
    ensures Assemble(EmptySlots) == Failure(UninitializedField("id"))
  {
    assert Fields.RustName(Fields.Id) == "id";
  }
}
