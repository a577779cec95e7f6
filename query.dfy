/**
 * The values a caller puts into an analysis query: the enums, the move
 * group record and `KataQuery` itself, with Rust's fixed-width integers as
 * bounded subsets of `int` and `f32` as its IEEE-754 bit pattern.
 */
module Query {
  import opened Wrappers
  import opened Json

  type U8 = x: int | 0 <= x < 0x100
  type U16 = x: int | 0 <= x < 0x1_0000
  type U32 = x: int | 0 <= x < 0x1_0000_0000
  type I32 = x: int | -0x8000_0000 <= x < 0x8000_0000

  /** An `f32`, known only by its bits; arithmetic on it is not modelled. */
  datatype F32 = F32(bits: bv32)

  /** Not a NaN or an infinity: the exponent bits are not all set. */
  predicate IsFinite(f: F32)
  {
    f.bits & 0x7F80_0000 != 0x7F80_0000
  }

  datatype Player = Black | White

  datatype WhiteHandicapBonus = Zero | N | NMinusOne

  /** The rule-set shorthands the engine accepts; a custom rule set is not supported. */
  datatype Rules =
    | TrompTaylor
    | Chinese
    | ChineseOgs
    | ChineseKgs
    | Japanese
    | Korean
    | StoneScoring
    | Aga
    | Bga
    | NewZealand
    | AgaButton

  /** A `(Player, String)` pair: who plays, and at which board coordinate. */
  type Stone = (Player, string)

  datatype MoveGroup = MoveGroup(player: Player, moves: seq<string>, untilDepth: U32)

  /**
   * One analysis request, field by field in declaration order. The five
   * fields that are not `Option` are the ones the builder requires.
   * `allowMoves` is Rust's `Option<[MoveGroup; 1]>`: at most one group.
   * `overrideSettings` is a free-form JSON value passed through as it is.
   */
  datatype KataQuery = KataQuery(
    id: string,
    initialStones: Option<seq<Stone>>,
    moves: seq<Stone>,
    rules: Rules,
    initialPlayer: Option<Player>,
    komi: Option<F32>,
    whiteHandicapBonus: Option<WhiteHandicapBonus>,
    boardXSize: U8,
    boardYSize: U8,
    analyzeTurns: Option<seq<U16>>,
    maxVisits: Option<U32>,
    rootPolicyTemperature: Option<F32>,
    rootFpuReductionMax: Option<F32>,
    anaysisPvLen: Option<U16>,
    includeOwnership: Option<bool>,
    inlcudeOwnershipStdev: Option<bool>,
    includeMovesOwnership: Option<bool>,
    includeMovesOwnershipStdev: Option<bool>,
    includePolicy: Option<bool>,
    includePvVisits: Option<bool>,
    avoidMoves: Option<seq<MoveGroup>>,
    allowMoves: Option<MoveGroup>,
    overrideSettings: Option<Json>,
    reportDuringSearchEvery: Option<F32>,
    priority: Option<I32>,
    priorities: Option<seq<I32>>)
}
