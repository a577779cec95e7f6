/**
 * A reader for the objects `Wire.ToJson` writes. The crate only ever
 * writes queries; this decoder is the inverse the round-trip lemmas are
 * stated against, so that "the encoding loses nothing" has a precise
 * meaning. It follows serde's reading of the derived format: a missing
 * or `null` optional is `None`, and integers must fit their Rust type.
 */
module WireDecode {
  import opened Wrappers
  import opened Json
  import opened Query
  import opened FieldKeys
  import opened Enums
  import opened Wire
  import Fields

  function DecodeStr(j: Json): Option<string>
  {
    if j.Str? then Some(j.s) else None
  }

  function DecodeBool(j: Json): Option<bool>
  {
    if j.Bool? then Some(j.b) else None
  }

  function DecodeU8(j: Json): Option<U8>
  {
    if j.Integer? && 0 <= j.i < 0x100 then Some(j.i) else None
  }

  function DecodeU16(j: Json): Option<U16>
  {
    if j.Integer? && 0 <= j.i < 0x1_0000 then Some(j.i) else None
  }

  function DecodeU32(j: Json): Option<U32>
  {
    if j.Integer? && 0 <= j.i < 0x1_0000_0000 then Some(j.i) else None
  }

  function DecodeI32(j: Json): Option<I32>
  {
    if j.Integer? && -0x8000_0000 <= j.i < 0x8000_0000 then Some(j.i) else None
  }

  function DecodeF32(j: Json): Option<F32>
  {
    if j.Float? && j.f.Single? then Some(F32(j.f.bits32)) else None
  }

  function DecodePlayer(j: Json): Option<Player>
  {
    if j.Str? then ParsePlayer(j.s) else None
  }

  function DecodeBonus(j: Json): Option<WhiteHandicapBonus>
  {
    if j.Str? then ParseBonus(j.s) else None
  }

  function DecodeRules(j: Json): Option<Rules>
  {
    if j.Str? then ParseRules(j.s) else None
  }

  /** Any value is accepted as the free-form override settings. */
  function DecodeAny(j: Json): Option<Json>
  {
    Some(j)
  }

  function DecodeStone(j: Json): Option<Stone>
  {
    if j.Array? && |j.items| == 2 && j.items[1].Str? then
      var p :- DecodePlayer(j.items[0]);
      Some((p, j.items[1].s))
    else None
  }

  /** Every item decoded, in order; one item that does not decode fails the whole array. */
  function DecodeItems<T>(items: seq<Json>, dec: Json -> Option<T>): Option<seq<T>>
  {
    if items == [] then Some([])
    else
      var x :- dec(items[0]);
      var rest :- DecodeItems(items[1..], dec);
      Some([x] + rest)
  }

  function DecodeSeq<T>(j: Json, dec: Json -> Option<T>): Option<seq<T>>
  {
    if j.Array? then DecodeItems(j.items, dec) else None
  }

  function DecodeGroup(j: Json): Option<MoveGroup>
  {
    if j.Object? then
      var p :- Lookup(j.members, GroupKeyTable(Fields.GroupField.Player));
      var player :- DecodePlayer(p);
      var ms :- Lookup(j.members, GroupKeyTable(Fields.GroupField.Moves));
      var moves :- DecodeSeq(ms, DecodeStr);
      var d :- Lookup(j.members, GroupKeyTable(Fields.UntilDepth));
      var untilDepth :- DecodeU32(d);
      Some(MoveGroup(player, moves, untilDepth))
    else None
  }

  /** `[MoveGroup; 1]`: an array of exactly one group. */
  function DecodeAllow(j: Json): Option<MoveGroup>
  {
    if j.Array? && |j.items| == 1 then DecodeGroup(j.items[0]) else None
  }

  /** A field that must be present. */
  function Required<T>(ms: seq<(string, Json)>, f: Fields.Field, dec: Json -> Option<T>): Option<T>
  {
    var j :- Lookup(ms, KeyTable(f));
    dec(j)
  }

  /** An `Option` field: absent or `null` is `None`. */
  function Optional<T>(ms: seq<(string, Json)>, f: Fields.Field, dec: Json -> Option<T>): Option<Option<T>>
  {
    match Lookup(ms, KeyTable(f))
    case None => Some(None)
    case Some(j) =>
      if j == Null then Some(None)
      else
        var x :- dec(j);
        Some(Some(x))
  }

  function StonesOf(j: Json): Option<seq<Stone>>
  {
    DecodeSeq(j, DecodeStone)
  }

  function TurnsOf(j: Json): Option<seq<U16>>
  {
    DecodeSeq(j, DecodeU16)
  }

  function GroupsOf(j: Json): Option<seq<MoveGroup>>
  {
    DecodeSeq(j, DecodeGroup)
  }

  function PrioritiesOf(j: Json): Option<seq<I32>>
  {
    DecodeSeq(j, DecodeI32)
  }

  /** Reads a query back from its object. */
  function FromJson(j: Json): Option<KataQuery>
  {
    if !j.Object? then None
    else
      var ms := j.members;
      var id :- Required(ms, Fields.Id, DecodeStr);
      var initialStones :- Optional(ms, Fields.InitialStones, StonesOf);
      var moves :- Required(ms, Fields.Field.Moves, StonesOf);
      var rules :- Required(ms, Fields.Rules, DecodeRules);
      var initialPlayer :- Optional(ms, Fields.InitialPlayer, DecodePlayer);
      var komi :- Optional(ms, Fields.Komi, DecodeF32);
      var whiteHandicapBonus :- Optional(ms, Fields.WhiteHandicapBonus, DecodeBonus);
      var boardXSize :- Required(ms, Fields.BoardXSize, DecodeU8);
      var boardYSize :- Required(ms, Fields.BoardYSize, DecodeU8);
      var analyzeTurns :- Optional(ms, Fields.AnalyzeTurns, TurnsOf);
      var maxVisits :- Optional(ms, Fields.MaxVisits, DecodeU32);
      var rootPolicyTemperature :- Optional(ms, Fields.RootPolicyTemperature, DecodeF32);
      var rootFpuReductionMax :- Optional(ms, Fields.RootFpuReductionMax, DecodeF32);
      var anaysisPvLen :- Optional(ms, Fields.AnaysisPvLen, DecodeU16);
      var includeOwnership :- Optional(ms, Fields.IncludeOwnership, DecodeBool);
      var inlcudeOwnershipStdev :- Optional(ms, Fields.InlcudeOwnershipStdev, DecodeBool);
      var includeMovesOwnership :- Optional(ms, Fields.IncludeMovesOwnership, DecodeBool);
      var includeMovesOwnershipStdev :- Optional(ms, Fields.IncludeMovesOwnershipStdev, DecodeBool);
      var includePolicy :- Optional(ms, Fields.IncludePolicy, DecodeBool);
      var includePvVisits :- Optional(ms, Fields.IncludePvVisits, DecodeBool);
      var avoidMoves :- Optional(ms, Fields.AvoidMoves, GroupsOf);
      var allowMoves :- Optional(ms, Fields.AllowMoves, DecodeAllow);
      var overrideSettings :- Optional(ms, Fields.OverrideSettings, DecodeAny);
      var reportDuringSearchEvery :- Optional(ms, Fields.ReportDuringSearchEvery, DecodeF32);
      var priority :- Optional(ms, Fields.Priority, DecodeI32);
      var priorities :- Optional(ms, Fields.Priorities, PrioritiesOf);
      Some(KataQuery(
        id, initialStones, moves, rules, initialPlayer, komi, whiteHandicapBonus,
        boardXSize, boardYSize, analyzeTurns, maxVisits, rootPolicyTemperature,
        rootFpuReductionMax, anaysisPvLen, includeOwnership, inlcudeOwnershipStdev,
        includeMovesOwnership, includeMovesOwnershipStdev, includePolicy,
        includePvVisits, avoidMoves, allowMoves, overrideSettings,
        reportDuringSearchEvery, priority, priorities))
  }

  // ---------------------------------------------------------------------
  // Round trips, value by value

  /** Items that each decode to the matching element decode to the whole sequence. */
  lemma {:induction false} DecodeItemsOf<T>(items: seq<Json>, dec: Json -> Option<T>, xs: seq<T>)
    requires |items| == |xs|
    requires forall i :: 0 <= i < |items| ==> dec(items[i]) == Some(xs[i])
    ensures DecodeItems(items, dec) == Some(xs)
  {
    if items != [] {
      DecodeItemsOf(items[1..], dec, xs[1..]);
      assert xs == [xs[0]] + xs[1..];
    }
  }

  lemma StoneRoundTrip(s: Stone)
    ensures DecodeStone(StoneJson(s)) == Some(s)
  {
    ParsePlayerWire(PlayerWire(s.0), s.0);
  }

  lemma StonesRoundTrip(ss: seq<Stone>)
    ensures StonesOf(SeqJson(ss, StoneJson)) == Some(ss)
  {
    SeqJsonItems(ss, StoneJson);
    forall i | 0 <= i < |ss|
      ensures DecodeStone(SeqJson(ss, StoneJson).items[i]) == Some(ss[i])
    {
      StoneRoundTrip(ss[i]);
    }
    DecodeItemsOf(SeqJson(ss, StoneJson).items, DecodeStone, ss);
  }

  lemma StrsRoundTrip(ss: seq<string>)
    ensures DecodeSeq(SeqJson(ss, StrJson), DecodeStr) == Some(ss)
  {
    SeqJsonItems(ss, StrJson);
    DecodeItemsOf(SeqJson(ss, StrJson).items, DecodeStr, ss);
  }

  lemma TurnsRoundTrip(ts: seq<U16>)
    ensures TurnsOf(SeqJson<int>(ts, IntJson)) == Some(ts)
  {
    SeqJsonItems<int>(ts, IntJson);
    DecodeItemsOf(SeqJson<int>(ts, IntJson).items, DecodeU16, ts);
  }

  lemma PrioritiesRoundTrip(ps: seq<I32>)
    ensures PrioritiesOf(SeqJson<int>(ps, IntJson)) == Some(ps)
  {
    SeqJsonItems<int>(ps, IntJson);
    DecodeItemsOf(SeqJson<int>(ps, IntJson).items, DecodeI32, ps);
  }

  lemma GroupRoundTrip(g: MoveGroup)
    ensures DecodeGroup(GroupJson(g)) == Some(g)
  {
    var ms := GroupJson(g).members;
    assert Lookup(ms, "player") == Some(Str(PlayerWire(g.player)));
    assert Lookup(ms, "moves") == Some(SeqJson(g.moves, StrJson));
    assert Lookup(ms[2..], "untilDepth") == Some(Integer(g.untilDepth));
    assert ms[1..][1..] == ms[2..];
    assert Lookup(ms, "untilDepth") == Some(Integer(g.untilDepth));
    ParsePlayerWire(PlayerWire(g.player), g.player);
    StrsRoundTrip(g.moves);
  }

  lemma GroupsRoundTrip(gs: seq<MoveGroup>)
    ensures GroupsOf(SeqJson(gs, GroupJson)) == Some(gs)
  {
    SeqJsonItems(gs, GroupJson);
    forall i | 0 <= i < |gs|
      ensures DecodeGroup(SeqJson(gs, GroupJson).items[i]) == Some(gs[i])
    {
      GroupRoundTrip(gs[i]);
    }
    DecodeItemsOf(SeqJson(gs, GroupJson).items, DecodeGroup, gs);
  }

  lemma AllowRoundTrip(g: MoveGroup)
    ensures DecodeAllow(AllowJson(g)) == Some(g)
  {
    GroupRoundTrip(g);
  }

  lemma RulesRoundTrip(r: Rules)
    ensures DecodeRules(Str(RulesTable(r))) == Some(r)
  {
    ParseRulesTable(RulesTable(r), r);
  }

  lemma F32RoundTrip(x: F32)
    requires IsFinite(x)
    ensures DecodeF32(F32Json(x)) == Some(x)
  {
  }

  // ---------------------------------------------------------------------
  // Round trips, field by field

  /** The value of field `f` is found under the key from the table. */
  lemma Found(q: KataQuery, f: Fields.Field)
    ensures Lookup(Members(q), KeyTable(f)) == Some(FieldJson(q, f))
  {
    LookupField(q, f);
    WireKeyTable(f);
  }

  lemma RoundTripId(ms: seq<(string, Json)>, q: KataQuery)
    requires Lookup(ms, KeyTable(Fields.Id)) == Some(FieldJson(q, Fields.Id))
    ensures Required(ms, Fields.Id, DecodeStr) == Some(q.id)
  {
  }

  lemma RoundTripInitialStones(ms: seq<(string, Json)>, q: KataQuery)
    requires Lookup(ms, KeyTable(Fields.InitialStones)) == Some(FieldJson(q, Fields.InitialStones))
    ensures Optional(ms, Fields.InitialStones, StonesOf) == Some(q.initialStones)
  {
    if q.initialStones.Some? {
      var v := q.initialStones.value;
      StonesRoundTrip(v);
    }
  }

  lemma RoundTripMoves(ms: seq<(string, Json)>, q: KataQuery)
    requires Lookup(ms, KeyTable(Fields.Field.Moves)) == Some(FieldJson(q, Fields.Field.Moves))
    ensures Required(ms, Fields.Field.Moves, StonesOf) == Some(q.moves)
  {
    StonesRoundTrip(q.moves);
  }

  lemma RoundTripRules(ms: seq<(string, Json)>, q: KataQuery)
    requires Lookup(ms, KeyTable(Fields.Rules)) == Some(FieldJson(q, Fields.Rules))
    ensures Required(ms, Fields.Rules, DecodeRules) == Some(q.rules)
  {
    RulesRoundTrip(q.rules);
  }

  lemma RoundTripInitialPlayer(ms: seq<(string, Json)>, q: KataQuery)
    requires Lookup(ms, KeyTable(Fields.InitialPlayer)) == Some(FieldJson(q, Fields.InitialPlayer))
    ensures Optional(ms, Fields.InitialPlayer, DecodePlayer) == Some(q.initialPlayer)
  {
    if q.initialPlayer.Some? {
      var v := q.initialPlayer.value;
      ParsePlayerWire(PlayerWire(v), v);
    }
  }

  lemma RoundTripKomi(ms: seq<(string, Json)>, q: KataQuery)
    requires Lookup(ms, KeyTable(Fields.Komi)) == Some(FieldJson(q, Fields.Komi))
    requires q.komi.Some? ==> IsFinite(q.komi.value)
    ensures Optional(ms, Fields.Komi, DecodeF32) == Some(q.komi)
  {
    if q.komi.Some? {
      var v := q.komi.value;
      F32RoundTrip(v);
    }
  }

  lemma RoundTripWhiteHandicapBonus(ms: seq<(string, Json)>, q: KataQuery)
    requires Lookup(ms, KeyTable(Fields.WhiteHandicapBonus)) == Some(FieldJson(q, Fields.WhiteHandicapBonus))
    ensures Optional(ms, Fields.WhiteHandicapBonus, DecodeBonus) == Some(q.whiteHandicapBonus)
  {
    if q.whiteHandicapBonus.Some? {
      var v := q.whiteHandicapBonus.value;
      ParseBonusWire(BonusWire(v), v);
    }
  }

  lemma RoundTripBoardXSize(ms: seq<(string, Json)>, q: KataQuery)
    requires Lookup(ms, KeyTable(Fields.BoardXSize)) == Some(FieldJson(q, Fields.BoardXSize))
    ensures Required(ms, Fields.BoardXSize, DecodeU8) == Some(q.boardXSize)
  {
  }

  lemma RoundTripBoardYSize(ms: seq<(string, Json)>, q: KataQuery)
    requires Lookup(ms, KeyTable(Fields.BoardYSize)) == Some(FieldJson(q, Fields.BoardYSize))
    ensures Required(ms, Fields.BoardYSize, DecodeU8) == Some(q.boardYSize)
  {
  }

  lemma RoundTripAnalyzeTurns(ms: seq<(string, Json)>, q: KataQuery)
    requires Lookup(ms, KeyTable(Fields.AnalyzeTurns)) == Some(FieldJson(q, Fields.AnalyzeTurns))
    ensures Optional(ms, Fields.AnalyzeTurns, TurnsOf) == Some(q.analyzeTurns)
  {
    if q.analyzeTurns.Some? {
      var v := q.analyzeTurns.value;
      TurnsRoundTrip(v);
    }
  }

  lemma RoundTripMaxVisits(ms: seq<(string, Json)>, q: KataQuery)
    requires Lookup(ms, KeyTable(Fields.MaxVisits)) == Some(FieldJson(q, Fields.MaxVisits))
    ensures Optional(ms, Fields.MaxVisits, DecodeU32) == Some(q.maxVisits)
  {
  }

  lemma RoundTripRootPolicyTemperature(ms: seq<(string, Json)>, q: KataQuery)
    requires Lookup(ms, KeyTable(Fields.RootPolicyTemperature)) == Some(FieldJson(q, Fields.RootPolicyTemperature))
    requires q.rootPolicyTemperature.Some? ==> IsFinite(q.rootPolicyTemperature.value)
    ensures Optional(ms, Fields.RootPolicyTemperature, DecodeF32) == Some(q.rootPolicyTemperature)
  {
    if q.rootPolicyTemperature.Some? {
      var v := q.rootPolicyTemperature.value;
      F32RoundTrip(v);
    }
  }

  lemma RoundTripRootFpuReductionMax(ms: seq<(string, Json)>, q: KataQuery)
    requires Lookup(ms, KeyTable(Fields.RootFpuReductionMax)) == Some(FieldJson(q, Fields.RootFpuReductionMax))
    requires q.rootFpuReductionMax.Some? ==> IsFinite(q.rootFpuReductionMax.value)
    ensures Optional(ms, Fields.RootFpuReductionMax, DecodeF32) == Some(q.rootFpuReductionMax)
  {
    if q.rootFpuReductionMax.Some? {
      var v := q.rootFpuReductionMax.value;
      F32RoundTrip(v);
    }
  }

  lemma RoundTripAnaysisPvLen(ms: seq<(string, Json)>, q: KataQuery)
    requires Lookup(ms, KeyTable(Fields.AnaysisPvLen)) == Some(FieldJson(q, Fields.AnaysisPvLen))
    ensures Optional(ms, Fields.AnaysisPvLen, DecodeU16) == Some(q.anaysisPvLen)
  {
  }

  lemma RoundTripIncludeOwnership(ms: seq<(string, Json)>, q: KataQuery)
    requires Lookup(ms, KeyTable(Fields.IncludeOwnership)) == Some(FieldJson(q, Fields.IncludeOwnership))
    ensures Optional(ms, Fields.IncludeOwnership, DecodeBool) == Some(q.includeOwnership)
  {
  }

  lemma RoundTripInlcudeOwnershipStdev(ms: seq<(string, Json)>, q: KataQuery)
    requires Lookup(ms, KeyTable(Fields.InlcudeOwnershipStdev)) == Some(FieldJson(q, Fields.InlcudeOwnershipStdev))
    ensures Optional(ms, Fields.InlcudeOwnershipStdev, DecodeBool) == Some(q.inlcudeOwnershipStdev)
  {
  }

  lemma RoundTripIncludeMovesOwnership(ms: seq<(string, Json)>, q: KataQuery)
    requires Lookup(ms, KeyTable(Fields.IncludeMovesOwnership)) == Some(FieldJson(q, Fields.IncludeMovesOwnership))
    ensures Optional(ms, Fields.IncludeMovesOwnership, DecodeBool) == Some(q.includeMovesOwnership)
  {
  }

  lemma RoundTripIncludeMovesOwnershipStdev(ms: seq<(string, Json)>, q: KataQuery)
    requires Lookup(ms, KeyTable(Fields.IncludeMovesOwnershipStdev)) == Some(FieldJson(q, Fields.IncludeMovesOwnershipStdev))
    ensures Optional(ms, Fields.IncludeMovesOwnershipStdev, DecodeBool) == Some(q.includeMovesOwnershipStdev)
  {
  }

  lemma RoundTripIncludePolicy(ms: seq<(string, Json)>, q: KataQuery)
    requires Lookup(ms, KeyTable(Fields.IncludePolicy)) == Some(FieldJson(q, Fields.IncludePolicy))
    ensures Optional(ms, Fields.IncludePolicy, DecodeBool) == Some(q.includePolicy)
  {
  }

  lemma RoundTripIncludePvVisits(ms: seq<(string, Json)>, q: KataQuery)
    requires Lookup(ms, KeyTable(Fields.IncludePvVisits)) == Some(FieldJson(q, Fields.IncludePvVisits))
    ensures Optional(ms, Fields.IncludePvVisits, DecodeBool) == Some(q.includePvVisits)
  {
  }

  lemma RoundTripAvoidMoves(ms: seq<(string, Json)>, q: KataQuery)
    requires Lookup(ms, KeyTable(Fields.AvoidMoves)) == Some(FieldJson(q, Fields.AvoidMoves))
    ensures Optional(ms, Fields.AvoidMoves, GroupsOf) == Some(q.avoidMoves)
  {
    if q.avoidMoves.Some? {
      var v := q.avoidMoves.value;
      GroupsRoundTrip(v);
    }
  }

  lemma RoundTripAllowMoves(ms: seq<(string, Json)>, q: KataQuery)
    requires Lookup(ms, KeyTable(Fields.AllowMoves)) == Some(FieldJson(q, Fields.AllowMoves))
    ensures Optional(ms, Fields.AllowMoves, DecodeAllow) == Some(q.allowMoves)
  {
    if q.allowMoves.Some? {
      var v := q.allowMoves.value;
      AllowRoundTrip(v);
    }
  }

  lemma RoundTripOverrideSettings(ms: seq<(string, Json)>, q: KataQuery)
    requires Lookup(ms, KeyTable(Fields.OverrideSettings)) == Some(FieldJson(q, Fields.OverrideSettings))
    requires q.overrideSettings != Some(Null)
    ensures Optional(ms, Fields.OverrideSettings, DecodeAny) == Some(q.overrideSettings)
  {
  }

  lemma RoundTripReportDuringSearchEvery(ms: seq<(string, Json)>, q: KataQuery)
    requires Lookup(ms, KeyTable(Fields.ReportDuringSearchEvery)) == Some(FieldJson(q, Fields.ReportDuringSearchEvery))
    requires q.reportDuringSearchEvery.Some? ==> IsFinite(q.reportDuringSearchEvery.value)
    ensures Optional(ms, Fields.ReportDuringSearchEvery, DecodeF32) == Some(q.reportDuringSearchEvery)
  {
    if q.reportDuringSearchEvery.Some? {
      var v := q.reportDuringSearchEvery.value;
      F32RoundTrip(v);
    }
  }

  lemma RoundTripPriority(ms: seq<(string, Json)>, q: KataQuery)
    requires Lookup(ms, KeyTable(Fields.Priority)) == Some(FieldJson(q, Fields.Priority))
    ensures Optional(ms, Fields.Priority, DecodeI32) == Some(q.priority)
  {
  }

  lemma RoundTripPriorities(ms: seq<(string, Json)>, q: KataQuery)
    requires Lookup(ms, KeyTable(Fields.Priorities)) == Some(FieldJson(q, Fields.Priorities))
    ensures Optional(ms, Fields.Priorities, PrioritiesOf) == Some(q.priorities)
  {
    if q.priorities.Some? {
      var v := q.priorities.value;
      PrioritiesRoundTrip(v);
    }
  }

  /** A query whose every set value survives the encoding reads back as itself. */
  lemma RoundTrip(q: KataQuery)
    requires Lossless(q)
    ensures FromJson(ToJson(q)) == Some(q)
  {
    Found(q, Fields.Id);
    RoundTripId(Members(q), q);
    Found(q, Fields.InitialStones);
    RoundTripInitialStones(Members(q), q);
    Found(q, Fields.Field.Moves);
    RoundTripMoves(Members(q), q);
    Found(q, Fields.Rules);
    RoundTripRules(Members(q), q);
    Found(q, Fields.InitialPlayer);
    RoundTripInitialPlayer(Members(q), q);
    Found(q, Fields.Komi);
    RoundTripKomi(Members(q), q);
    Found(q, Fields.WhiteHandicapBonus);
    RoundTripWhiteHandicapBonus(Members(q), q);
    Found(q, Fields.BoardXSize);
    RoundTripBoardXSize(Members(q), q);
    Found(q, Fields.BoardYSize);
    RoundTripBoardYSize(Members(q), q);
    Found(q, Fields.AnalyzeTurns);
    RoundTripAnalyzeTurns(Members(q), q);
    Found(q, Fields.MaxVisits);
    RoundTripMaxVisits(Members(q), q);
    Found(q, Fields.RootPolicyTemperature);
    RoundTripRootPolicyTemperature(Members(q), q);
    Found(q, Fields.RootFpuReductionMax);
    RoundTripRootFpuReductionMax(Members(q), q);
    Found(q, Fields.AnaysisPvLen);
    RoundTripAnaysisPvLen(Members(q), q);
    Found(q, Fields.IncludeOwnership);
    RoundTripIncludeOwnership(Members(q), q);
    Found(q, Fields.InlcudeOwnershipStdev);
    RoundTripInlcudeOwnershipStdev(Members(q), q);
    Found(q, Fields.IncludeMovesOwnership);
    RoundTripIncludeMovesOwnership(Members(q), q);
    Found(q, Fields.IncludeMovesOwnershipStdev);
    RoundTripIncludeMovesOwnershipStdev(Members(q), q);
    Found(q, Fields.IncludePolicy);
    RoundTripIncludePolicy(Members(q), q);
    Found(q, Fields.IncludePvVisits);
    RoundTripIncludePvVisits(Members(q), q);
    Found(q, Fields.AvoidMoves);
    RoundTripAvoidMoves(Members(q), q);
    Found(q, Fields.AllowMoves);
    RoundTripAllowMoves(Members(q), q);
    Found(q, Fields.OverrideSettings);
    RoundTripOverrideSettings(Members(q), q);
    Found(q, Fields.ReportDuringSearchEvery);
    RoundTripReportDuringSearchEvery(Members(q), q);
    Found(q, Fields.Priority);
    RoundTripPriority(Members(q), q);
    Found(q, Fields.Priorities);
    RoundTripPriorities(Members(q), q);
  }

  /** Two lossless queries with the same encoding are the same query. */
  lemma ToJsonInjective(q: KataQuery, q': KataQuery)
    requires Lossless(q) && Lossless(q')
    ensures ToJson(q) == ToJson(q') <==> q == q'
  {
    if ToJson(q) == ToJson(q') {
      RoundTrip(q);
      RoundTrip(q');
    }
  }
}
