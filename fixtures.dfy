/** The fixture resolver: for a player and a round, the difficulty rating and the
    opponent of the player's team, taken from the first fixture of that round the
    team plays in.  Each resolver falls back to its own default (3.0, or the
    unknown text) when any lookup it performs fails. */
module Fixtures {
  import opened FplData

  /** The midpoint of the 1..5 rating scale, used when no fixture is found. */
  const NeutralDifficulty: real := 3.0

  /** "unknown": the opponent text when any lookup fails. */
  const UnknownOpponent: string := "غير معروف"
  /** "away": the venue label when the player's team is the away side. */
  const AwayLabel: string := "خارج الأرض"
  /** "home": the venue label otherwise. */
  const HomeLabel: string := "داخل الأرض"

  /** The first index at or after `lo` whose element satisfies `p`. */
  function FirstIndex<T>(s: seq<T>, p: T -> bool, lo: nat): (r: Option<nat>)
    requires lo <= |s|
    ensures r.None? <==> forall i :: lo <= i < |s| ==> !p(s[i])
    ensures r.Some? ==> lo <= r.value < |s| && p(s[r.value])
    ensures r.Some? ==> forall j :: lo <= j < r.value ==> !p(s[j])
    decreases |s| - lo
  {
    if lo == |s| then None
    else if p(s[lo]) then Some(lo)
    else FirstIndex(s, p, lo + 1)
  }

  /** Row `k` is the first row satisfying `p`. */
  ghost predicate IsFirst<T>(s: seq<T>, p: T -> bool, k: int)
  {
    0 <= k < |s| && p(s[k]) && forall j :: 0 <= j < k ==> !p(s[j])
  }

  /** No row satisfies `p`. */
  ghost predicate NoneMatch<T>(s: seq<T>, p: T -> bool)
  {
    forall k :: 0 <= k < |s| ==> !p(s[k])
  }

  /** A row filter followed by taking its first row: the first matching row, or
      nothing when the filter leaves no row. */
  function Find<T>(s: seq<T>, p: T -> bool): (r: Option<nat>)
    ensures r.None? <==> NoneMatch(s, p)
    ensures r.Some? ==> IsFirst(s, p, r.value)
  {
    FirstIndex(s, p, 0)
  }

  /** Whatever row is first, `Find` returns that row. */
  lemma FindIsFirst<T>(s: seq<T>, p: T -> bool, k: int)
    requires IsFirst(s, p, k)
    ensures Find(s, p) == Some(k)
  {
    assert !NoneMatch(s, p) by { assert p(s[k]); }
  }

  /** The player-table filter on the id column. */
  function HasId(id: int): Player -> bool
  {
    (p: Player) => p.id == id
  }

  /** The fixture-table filter: round `gw`, with `team` on either side. */
  function PlaysIn(team: int, gw: int): Fixture -> bool
  {
    (f: Fixture) => f.event == Some(gw) && (f.teamA == team || f.teamH == team)
  }

  /** The team-table filter on the id column. */
  function IsTeam(id: int): Team -> bool
  {
    (t: Team) => t.id == id
  }

  /** The rating of the side `team` plays on: the away rating when it is the
      away team, the home rating otherwise. */
  function SideDifficulty(f: Fixture, team: int): real
  {
    if f.teamA == team then f.teamADifficulty as real else f.teamHDifficulty as real
  }

  /** The other side of the fixture. */
  function OpponentId(f: Fixture, team: int): int
  {
    if f.teamA == team then f.teamH else f.teamA
  }

  /** "<opponent name> (<venue>)". */
  function Describe(opponentName: string, away: bool): (s: string)
    ensures |s| > 0 && s[|s| - 1] == ')'
  {
    opponentName + " (" + (if away then AwayLabel else HomeLabel) + ")"
  }

  /** The difficulty rating of the player's fixture in round `targetGw`: a rating
      taken from some fixture of the table, or the neutral default. */
  function FixtureDifficulty(players: seq<Player>, fixtures: seq<Fixture>, playerId: int, targetGw: int): (r: real)
    ensures r == NeutralDifficulty ||
            exists k :: 0 <= k < |fixtures| && (r == fixtures[k].teamADifficulty as real || r == fixtures[k].teamHDifficulty as real)
  {
    match Find(players, HasId(playerId))
    case None => NeutralDifficulty
    case Some(i) =>
      var team := players[i].team;
      match Find(fixtures, PlaysIn(team, targetGw))
      case None => NeutralDifficulty
      case Some(k) => SideDifficulty(fixtures[k], team)
  }

  /** The opponent of the player's team in round `targetGw`, with the venue:
      either the unknown marker or a description ending in ')'. */
  function FixtureOpponent(players: seq<Player>, fixtures: seq<Fixture>, teams: seq<Team>, playerId: int, targetGw: int): (r: string)
    ensures r == UnknownOpponent || (|r| > 0 && r[|r| - 1] == ')')
  {
    match Find(players, HasId(playerId))
    case None => UnknownOpponent
    case Some(i) =>
      var team := players[i].team;
      match Find(fixtures, PlaysIn(team, targetGw))
      case None => UnknownOpponent
      case Some(k) =>
        var opponent := OpponentId(fixtures[k], team);
        match Find(teams, IsTeam(opponent))
        case None => UnknownOpponent
        case Some(t) => Describe(teams[t].name, fixtures[k].teamA == team)
  }

  /** The resolver's fallbacks: with no player row for the id, or with no fixture
      in the round for the first such row's team, the difficulty is the neutral
      midpoint and the opponent is unknown. */
  lemma ResolverDefaults(players: seq<Player>, fixtures: seq<Fixture>, teams: seq<Team>, playerId: int, targetGw: int)
    requires NoneMatch(players, HasId(playerId)) ||
             exists i :: IsFirst(players, HasId(playerId), i) && NoneMatch(fixtures, PlaysIn(players[i].team, targetGw))
    ensures FixtureDifficulty(players, fixtures, playerId, targetGw) == NeutralDifficulty
    ensures FixtureOpponent(players, fixtures, teams, playerId, targetGw) == UnknownOpponent
  {
    if !NoneMatch(players, HasId(playerId)) {
      var i :| IsFirst(players, HasId(playerId), i) && NoneMatch(fixtures, PlaysIn(players[i].team, targetGw));
      FindIsFirst(players, HasId(playerId), i);
    }
  }

  /** With a fixture found, the difficulty is the rating of the player's side of
      the FIRST fixture of the round the team plays in: the away rating when the
      team is the away side, the home rating otherwise. */
  lemma DifficultyOfFirstFixture(players: seq<Player>, fixtures: seq<Fixture>, playerId: int, targetGw: int, i: int, k: int)
    requires IsFirst(players, HasId(playerId), i)
    requires IsFirst(fixtures, PlaysIn(players[i].team, targetGw), k)
    ensures FixtureDifficulty(players, fixtures, playerId, targetGw) ==
            if fixtures[k].teamA == players[i].team then fixtures[k].teamADifficulty as real
            else fixtures[k].teamHDifficulty as real
  {
    FindIsFirst(players, HasId(playerId), i);
    FindIsFirst(fixtures, PlaysIn(players[i].team, targetGw), k);
  }

  /** The opponent comes from the same first fixture as the difficulty: the other
      side's team, labelled away when the player's team is the away side and home
      otherwise; when that team has no row the opponent is unknown although the
      difficulty is still resolved. */
  lemma OpponentOfFirstFixture(players: seq<Player>, fixtures: seq<Fixture>, teams: seq<Team>, playerId: int, targetGw: int, i: int, k: int)
    requires IsFirst(players, HasId(playerId), i)
    requires IsFirst(fixtures, PlaysIn(players[i].team, targetGw), k)
    ensures var team := players[i].team;
            var away := fixtures[k].teamA == team;
            var opponent := if away then fixtures[k].teamH else fixtures[k].teamA;
            && FixtureDifficulty(players, fixtures, playerId, targetGw) == SideDifficulty(fixtures[k], team)
            && (NoneMatch(teams, IsTeam(opponent)) ==>
                  FixtureOpponent(players, fixtures, teams, playerId, targetGw) == UnknownOpponent)
            && (forall t :: IsFirst(teams, IsTeam(opponent), t) ==>
                  FixtureOpponent(players, fixtures, teams, playerId, targetGw) ==
                  teams[t].name + " (" + (if away then AwayLabel else HomeLabel) + ")")
  {
    var team := players[i].team;
    FindIsFirst(players, HasId(playerId), i);
    FindIsFirst(fixtures, PlaysIn(team, targetGw), k);
    forall t | IsFirst(teams, IsTeam(OpponentId(fixtures[k], team)), t)
      ensures FixtureOpponent(players, fixtures, teams, playerId, targetGw) ==
              Describe(teams[t].name, fixtures[k].teamA == team)
    {
      FindIsFirst(teams, IsTeam(OpponentId(fixtures[k], team)), t);
    }
  }

  /** The opponent is known exactly when all three lookups succeed: the player
      row, the fixture of the round and the opponent's team row. */
  lemma OpponentKnownIff(players: seq<Player>, fixtures: seq<Fixture>, teams: seq<Team>, playerId: int, targetGw: int)
    ensures FixtureOpponent(players, fixtures, teams, playerId, targetGw) != UnknownOpponent <==>
            exists i, k, t :: IsFirst(players, HasId(playerId), i) &&
                              IsFirst(fixtures, PlaysIn(players[i].team, targetGw), k) &&
                              IsFirst(teams, IsTeam(OpponentId(fixtures[k], players[i].team)), t)
  {
    assert UnknownOpponent[|UnknownOpponent| - 1] != ')';
    var r := FixtureOpponent(players, fixtures, teams, playerId, targetGw);
    match Find(players, HasId(playerId))
    case None =>
    case Some(i) =>
      var team := players[i].team;
      match Find(fixtures, PlaysIn(team, targetGw))
      case None =>
        forall i', k | IsFirst(players, HasId(playerId), i') && IsFirst(fixtures, PlaysIn(players[i'].team, targetGw), k)
          ensures false
        {
          FindIsFirst(players, HasId(playerId), i');
        }
      case Some(k) =>
        var opponent := OpponentId(fixtures[k], team);
        match Find(teams, IsTeam(opponent))
        case None =>
          forall i', k', t | IsFirst(players, HasId(playerId), i') && IsFirst(fixtures, PlaysIn(players[i'].team, targetGw), k') &&
                             IsFirst(teams, IsTeam(OpponentId(fixtures[k'], players[i'].team)), t)
            ensures false
          {
            FindIsFirst(players, HasId(playerId), i');
            FindIsFirst(fixtures, PlaysIn(team, targetGw), k');
          }
        case Some(t) =>
          assert IsFirst(teams, IsTeam(OpponentId(fixtures[k], players[i].team)), t);
  }

  /** When every rating in the table is on the 1..5 scale, so is the difficulty. */
  lemma DifficultyInScale(players: seq<Player>, fixtures: seq<Fixture>, playerId: int, targetGw: int)
    requires forall k :: 0 <= k < |fixtures| ==>
               1 <= fixtures[k].teamHDifficulty <= 5 && 1 <= fixtures[k].teamADifficulty <= 5
    ensures 1.0 <= FixtureDifficulty(players, fixtures, playerId, targetGw) <= 5.0
  {
  }
}
