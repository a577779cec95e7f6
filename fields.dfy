/**
 * The declared fields of `KataQuery` and `MoveGroup` as the derives see
 * them: their Rust identifiers, their order, and which of them carry
 * `#[builder(default)]`.
 */
module Fields {
  import opened Rename

  datatype Field =
    | Id
    | InitialStones
    | Moves
    | Rules
    | InitialPlayer
    | Komi
    | WhiteHandicapBonus
    | BoardXSize
    | BoardYSize
    | AnalyzeTurns
    | MaxVisits
    | RootPolicyTemperature
    | RootFpuReductionMax
    | AnaysisPvLen
    | IncludeOwnership
    | InlcudeOwnershipStdev
    | IncludeMovesOwnership
    | IncludeMovesOwnershipStdev
    | IncludePolicy
    | IncludePvVisits
    | AvoidMoves
    | AllowMoves
    | OverrideSettings
    | ReportDuringSearchEvery
    | Priority
    | Priorities

  /** The fields of `KataQuery` in declaration order. */
  const Declared: seq<Field> := [
    Id, InitialStones, Field.Moves, Rules, InitialPlayer, Komi, WhiteHandicapBonus,
    BoardXSize, BoardYSize, AnalyzeTurns, MaxVisits, RootPolicyTemperature,
    RootFpuReductionMax, AnaysisPvLen, IncludeOwnership, InlcudeOwnershipStdev,
    IncludeMovesOwnership, IncludeMovesOwnershipStdev, IncludePolicy,
    IncludePvVisits, AvoidMoves, AllowMoves, OverrideSettings,
    ReportDuringSearchEvery, Priority, Priorities]

  /**
   * The Rust identifier of each field, spelling mistakes included, as the
   * words its underscores separate.
   */
  function Words(f: Field): (ws: seq<string>)
    ensures |ws| > 0
  {
    match f
    case Id => ["id"]
    case InitialStones => ["initial", "stones"]
    case Moves => ["moves"]
    case Rules => ["rules"]
    case InitialPlayer => ["initial", "player"]
    case Komi => ["komi"]
    case WhiteHandicapBonus => ["white", "handicap", "bonus"]
    case BoardXSize => ["board", "x", "size"]
    case BoardYSize => ["board", "y", "size"]
    case AnalyzeTurns => ["analyze", "turns"]
    case MaxVisits => ["max", "visits"]
    case RootPolicyTemperature => ["root", "policy", "temperature"]
    case RootFpuReductionMax => ["root", "fpu", "reduction", "max"]
    case AnaysisPvLen => ["anaysis", "pv", "len"]
    case IncludeOwnership => ["include", "ownership"]
    case InlcudeOwnershipStdev => ["inlcude", "ownership", "stdev"]
    case IncludeMovesOwnership => ["include", "moves", "ownership"]
    case IncludeMovesOwnershipStdev => ["include", "moves", "ownership", "stdev"]
    case IncludePolicy => ["include", "policy"]
    case IncludePvVisits => ["include", "pv", "visits"]
    case AvoidMoves => ["avoid", "moves"]
    case AllowMoves => ["allow", "moves"]
    case OverrideSettings => ["override", "settings"]
    case ReportDuringSearchEvery => ["report", "during", "search", "every"]
    case Priority => ["priority"]
    case Priorities => ["priorities"]
  }

  /** The Rust identifier of a field: `board_x_size`, `anaysis_pv_len`, ... */
  function RustName(f: Field): string
  {
    Joined(Words(f), '_')
  }

  /** A field without `#[builder(default)]`: `build()` fails when it is unset. */
  predicate IsRequired(f: Field)
  {
    f == Id || f == Field.Moves || f == Rules || f == BoardXSize || f == BoardYSize
  }

  /** The position of a field in the declaration. */
  function Index(f: Field): (k: nat)
    ensures k < |Declared| && Declared[k] == f
  {
    match f
    case Id => 0
    case InitialStones => 1
    case Moves => 2
    case Rules => 3
    case InitialPlayer => 4
    case Komi => 5
    case WhiteHandicapBonus => 6
    case BoardXSize => 7
    case BoardYSize => 8
    case AnalyzeTurns => 9
    case MaxVisits => 10
    case RootPolicyTemperature => 11
    case RootFpuReductionMax => 12
    case AnaysisPvLen => 13
    case IncludeOwnership => 14
    case InlcudeOwnershipStdev => 15
    case IncludeMovesOwnership => 16
    case IncludeMovesOwnershipStdev => 17
    case IncludePolicy => 18
    case IncludePvVisits => 19
    case AvoidMoves => 20
    case AllowMoves => 21
    case OverrideSettings => 22
    case ReportDuringSearchEvery => 23
    case Priority => 24
    case Priorities => 25
  }

  datatype GroupField = Player | Moves | UntilDepth

  const GroupDeclared: seq<GroupField> := [GroupField.Player, GroupField.Moves, UntilDepth]

  function GroupWords(g: GroupField): (ws: seq<string>)
    ensures |ws| > 0
  {
    match g
    case Player => ["player"]
    case Moves => ["moves"]
    case UntilDepth => ["until", "depth"]
  }

  function GroupRustName(g: GroupField): string
  {
    Joined(GroupWords(g), '_')
  }
}
