/** The records of one loaded snapshot of the fantasy-football statistics:
    players (the `elements` table), fixtures and teams.  Every numeric field is
    taken as already parsed: integer columns stay `int`, the decimal-string
    columns (form, ownership, points per game) become `real`. */
module FplData {

  datatype Option<+T> = None | Some(value: T)

  /** The four position codes of the `element_type` column. */
  datatype Position = GKP | DEF | MID | FWD {
    /** The code a position filter compares `element_type` with. */
    function Code(): (c: int)
      ensures 1 <= c <= 4
    {
      match this
      case GKP => 1
      case DEF => 2
      case MID => 3
      case FWD => 4
    }
  }

  /** Distinct positions filter on distinct codes. */
  lemma PositionCodesDistinct(a: Position, b: Position)
    ensures a.Code() == b.Code() <==> a == b
  {
  }

  /** The columns added to the player table by the metric calculation. */
  datatype Metrics = Metrics(
    pointsPerMinute: real,
    valueIndex: real,
    recentFormIndex: real,
    differentialIndex: real,
    surpriseIndex: real)

  /** One row of the player table.  `derived` is `None` until the metric
      calculation has added its columns to the table. */
  datatype Player = Player(
    id: int,
    webName: string,
    team: int,
    elementType: int,
    nowCost: int,             // tenths of a currency unit
    totalPoints: int,
    minutes: int,
    pointsPerGame: real,
    selectedByPercent: real,  // ownership, in percent
    form: real,
    derived: Option<Metrics>)

  /** One row of the fixture table.  `event` is the round; it is absent for a
      fixture that has not been scheduled yet, and such a fixture matches no round. */
  datatype Fixture = Fixture(
    event: Option<int>,
    teamH: int,
    teamA: int,
    teamHDifficulty: int,
    teamADifficulty: int)

  datatype Team = Team(id: int, name: string)

  /** What one successful fetch delivers. */
  datatype Snapshot = Snapshot(players: seq<Player>, fixtures: seq<Fixture>, teams: seq<Team>)

  /** Every row of the table carries the derived columns. */
  predicate Augmented(players: seq<Player>)
  {
    forall i :: 0 <= i < |players| ==> players[i].derived.Some?
  }
}
