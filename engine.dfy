/** The two ranking passes over a snapshot whose player table already carries the
    derived metrics: the recommendation pass (optional position and budget
    filters, predicted points) and the surprise pass (low ownership and good form
    only, surprise score).  Both score every remaining row with its fixture
    difficulty and opponent and keep the top N. */
module Engine {
  import opened FplData
  import opened Metrics
  import opened Fixtures
  import opened Ranking

  /** Surprise picks must be owned by fewer than this percentage of managers... */
  const SurpriseOwnershipCap: real := 5.0
  /** ...and have a form above this. */
  const SurpriseFormFloor: real := 3.0

  /** Which pass is ranking.  A recommendation filter applies only when it is
      given and not zero: an absent position and an absent or zero budget mean
      no filter. */
  datatype Selection =
    | Recommendation(position: Option<Position>, budget: Option<real>)
    | Surprise

  /** The row survives the pass's filters. */
  predicate Passes(sel: Selection, p: Player)
  {
    match sel
    case Recommendation(position, budget) =>
      (position.None? || p.elementType == position.value.Code()) &&
      (budget.None? || budget.value == 0.0 || p.nowCost as real <= budget.value)
    case Surprise =>
      p.selectedByPercent < SurpriseOwnershipCap && p.form > SurpriseFormFloor
  }

  /** The predicted points of a row for a fixture of the given difficulty. */
  function PredictedPoints(p: Player, difficulty: real): real
    requires p.derived.Some?
  {
    var m := p.derived.value;
    p.form * 2.0 + m.pointsPerMinute * 90.0 * 1.5 + m.valueIndex * 0.7 - difficulty * 0.8
    + m.differentialIndex * 0.4 + m.surpriseIndex * 0.6
  }

  /** The surprise score of a row for a fixture of the given difficulty. */
  function SurpriseScore(p: Player, difficulty: real): real
    requires p.derived.Some?
  {
    p.form * 2.5 + p.derived.value.pointsPerMinute * 120.0 - difficulty * 1.5
    + (100.0 - p.selectedByPercent)
  }

  function Score(sel: Selection, p: Player, difficulty: real): real
    requires p.derived.Some?
  {
    match sel
    case Recommendation(_, _) => PredictedPoints(p, difficulty)
    case Surprise => SurpriseScore(p, difficulty)
  }

  /** The rows of `players` from `lo` on that survive the filters, in table order. */
  function EligibleRows(players: seq<Player>, sel: Selection, lo: nat): (rows: seq<nat>)
    requires lo <= |players|
    ensures forall j :: 0 <= j < |rows| ==> lo <= rows[j] < |players| && Passes(sel, players[rows[j]])
    ensures forall j, j' :: 0 <= j < j' < |rows| ==> rows[j] < rows[j']
    ensures forall i :: lo <= i < |players| && Passes(sel, players[i]) ==> i in rows
    decreases |players| - lo
  {
    if lo == |players| then []
    else if Passes(sel, players[lo]) then [lo] + EligibleRows(players, sel, lo + 1)
    else EligibleRows(players, sel, lo + 1)
  }

  /** The set of rows that survive the filters. */
  ghost function EligibleSet(players: seq<Player>, sel: Selection): set<nat>
  {
    set i: nat | i < |players| && Passes(sel, players[i])
  }

  /** Row `i` scored: its fixture difficulty and opponent in round `gw`, looked up
      by the row's id in the whole table, and the pass's score. */
  function ScoreRow(players: seq<Player>, fixtures: seq<Fixture>, teams: seq<Team>, gw: int, sel: Selection, i: nat): (e: Entry)
    requires i < |players| && Augmented(players)
    ensures e.row == i && e.player == players[i]
  {
    var d := FixtureDifficulty(players, fixtures, players[i].id, gw);
    Entry(i, players[i], d, FixtureOpponent(players, fixtures, teams, players[i].id, gw), Score(sel, players[i], d))
  }

  /** The listed rows scored, in the same order.  Rows listed in increasing
      order give entries from distinct rows, as top-N selection needs. */
  function Candidates(players: seq<Player>, fixtures: seq<Fixture>, teams: seq<Team>, gw: int, sel: Selection, rows: seq<nat>): (c: seq<Entry>)
    requires Augmented(players) && forall j :: 0 <= j < |rows| ==> rows[j] < |players|
    ensures (forall j, j' :: 0 <= j < j' < |rows| ==> rows[j] < rows[j']) ==> DistinctRows(c)
  {
    seq(|rows|, j requires 0 <= j < |rows| => ScoreRow(players, fixtures, teams, gw, sel, rows[j]))
  }

  /** Some entry of `r` comes from row `i`. */
  predicate Taken(r: seq<Entry>, i: nat)
  {
    exists j :: 0 <= j < |r| && r[j].row == i
  }

  /** One ranking pass: filter, score, keep the top `topN`.  The result has
      min(topN, eligible) entries, each the scored form of an eligible row; it is
      ranked (descending score, equal scores in table order); and every eligible
      row left out ranks behind every entry taken. */
  function Rank(players: seq<Player>, fixtures: seq<Fixture>, teams: seq<Team>, gw: int, sel: Selection, topN: nat): (r: seq<Entry>)
    requires Augmented(players)
    ensures |r| == Min(topN, |EligibleSet(players, sel)|)
    ensures forall j :: 0 <= j < |r| ==>
              r[j].row in EligibleSet(players, sel) && r[j] == ScoreRow(players, fixtures, teams, gw, sel, r[j].row)
    ensures Ranked(r)
    ensures forall i, j :: i in EligibleSet(players, sel) && !Taken(r, i) && 0 <= j < |r| ==>
              Before(r[j], ScoreRow(players, fixtures, teams, gw, sel, i))
  {
    var rows := EligibleRows(players, sel, 0);
    var c := Candidates(players, fixtures, teams, gw, sel, rows);
    assert DistinctRows(c);
    var r := TopN(c, topN);
    EligibleCount(players, sel);
    RankFacts(players, fixtures, teams, gw, sel, rows, c, r);
    r
  }

  /** The proof of `Rank`'s contract from those of `EligibleRows` and `TopN`. */
  lemma RankFacts(players: seq<Player>, fixtures: seq<Fixture>, teams: seq<Team>, gw: int, sel: Selection,
                  rows: seq<nat>, c: seq<Entry>, r: seq<Entry>)
    requires Augmented(players)
    requires rows == EligibleRows(players, sel, 0)
    requires c == Candidates(players, fixtures, teams, gw, sel, rows)
    requires DistinctRows(c) && |r| <= |c| && multiset(r) <= multiset(c)
    requires forall x, y :: x in c && x !in r && y in r ==> Before(y, x)
    ensures forall j :: 0 <= j < |r| ==>
              r[j].row in EligibleSet(players, sel) && r[j] == ScoreRow(players, fixtures, teams, gw, sel, r[j].row)
    ensures forall i, j :: i in EligibleSet(players, sel) && !Taken(r, i) && 0 <= j < |r| ==>
              Before(r[j], ScoreRow(players, fixtures, teams, gw, sel, i))
  {
    forall j | 0 <= j < |r|
      ensures r[j].row in EligibleSet(players, sel) && r[j] == ScoreRow(players, fixtures, teams, gw, sel, r[j].row)
    {
      assert r[j] in multiset(r);
      var m :| 0 <= m < |c| && c[m] == r[j];
    }
    forall i, j | i in EligibleSet(players, sel) && !Taken(r, i) && 0 <= j < |r|
      ensures Before(r[j], ScoreRow(players, fixtures, teams, gw, sel, i))
    {
      var m :| 0 <= m < |rows| && rows[m] == i;
      assert c[m] in c;
      assert r[j] in r;
    }
  }

  /** As many rows are listed as survive the filters. */
  lemma EligibleCount(players: seq<Player>, sel: Selection)
    ensures |EligibleRows(players, sel, 0)| == |EligibleSet(players, sel)|
  {
    var rows := EligibleRows(players, sel, 0);
    assert (set x: nat | x in rows) == EligibleSet(players, sel);
    IncreasingCard(rows);
  }

  /** `Rank`'s contract leaves no freedom: any sequence meeting it is the result
      of `Rank`. */
  lemma RankDetermined(players: seq<Player>, fixtures: seq<Fixture>, teams: seq<Team>, gw: int, sel: Selection, topN: nat,
                       r: seq<Entry>)
    requires Augmented(players)
    requires |r| == Min(topN, |EligibleSet(players, sel)|)
    requires forall j :: 0 <= j < |r| ==>
               r[j].row in EligibleSet(players, sel) && r[j] == ScoreRow(players, fixtures, teams, gw, sel, r[j].row)
    requires Ranked(r)
    requires forall i, j :: i in EligibleSet(players, sel) && !Taken(r, i) && 0 <= j < |r| ==>
               Before(r[j], ScoreRow(players, fixtures, teams, gw, sel, i))
    ensures r == Rank(players, fixtures, teams, gw, sel, topN)
  {
    var rows := EligibleRows(players, sel, 0);
    var c := Candidates(players, fixtures, teams, gw, sel, rows);
    EligibleCount(players, sel);
    SelectionFromCandidates(players, fixtures, teams, gw, sel, rows, c, r);
    TopNUnique(c, topN, r);
  }

  /** A selection meeting `Rank`'s contract, seen as a selection from the
      candidate entries: it is drawn from them and ranked ahead of every
      candidate it leaves out. */
  lemma SelectionFromCandidates(players: seq<Player>, fixtures: seq<Fixture>, teams: seq<Team>, gw: int, sel: Selection,
                                rows: seq<nat>, c: seq<Entry>, r: seq<Entry>)
    requires Augmented(players)
    requires rows == EligibleRows(players, sel, 0)
    requires c == Candidates(players, fixtures, teams, gw, sel, rows)
    requires forall j :: 0 <= j < |r| ==>
               r[j].row in EligibleSet(players, sel) && r[j] == ScoreRow(players, fixtures, teams, gw, sel, r[j].row)
    requires forall i, j :: i in EligibleSet(players, sel) && !Taken(r, i) && 0 <= j < |r| ==>
               Before(r[j], ScoreRow(players, fixtures, teams, gw, sel, i))
    ensures forall x :: x in r ==> x in c
    ensures forall x, y :: x in c && x !in r && y in r ==> Before(y, x)
  {
    forall x | x in r
      ensures x in c
    {
      var j :| 0 <= j < |r| && r[j] == x;
      var m :| 0 <= m < |rows| && rows[m] == r[j].row;
      assert c[m] == x;
    }
    forall x, y | x in c && x !in r && y in r
      ensures Before(y, x)
    {
      var m :| 0 <= m < |c| && c[m] == x;
      var j :| 0 <= j < |r| && r[j] == y;
      var i := rows[m];
      assert x == ScoreRow(players, fixtures, teams, gw, sel, i);
      assert !Taken(r, i);
    }
  }

  /** A strictly increasing sequence has as many distinct elements as entries. */
  lemma {:induction false} IncreasingCard(rows: seq<nat>)
    requires forall j, j' :: 0 <= j < j' < |rows| ==> rows[j] < rows[j']
    ensures |set x: nat | x in rows| == |rows|
  {
    if rows != [] {
      var tail := rows[1..];
      IncreasingCard(tail);
      var rest := set x: nat | x in tail;
      assert (set x: nat | x in rows) == rest + {rows[0]};
      assert rows[0] !in rest by {
        forall k | 0 <= k < |tail| ensures tail[k] != rows[0] {
          assert tail[k] == rows[k + 1];
        }
      }
      assert |rest + {rows[0]}| == |rest| + 1;
    }
  }

  /** The recommendation pass for round `gw`. */
  function Recommendations(players: seq<Player>, fixtures: seq<Fixture>, teams: seq<Team>, gw: int,
                           position: Option<Position>, budget: Option<real>, topN: nat): seq<Entry>
    requires Augmented(players)
  {
    Rank(players, fixtures, teams, gw, Recommendation(position, budget), topN)
  }

  /** The surprise pass for round `gw`. */
  function SurprisePicks(players: seq<Player>, fixtures: seq<Fixture>, teams: seq<Team>, gw: int, topN: nat): seq<Entry>
    requires Augmented(players)
  {
    Rank(players, fixtures, teams, gw, Surprise, topN)
  }

  /** What one entry of a ranking pass holds: a row that passed the filters,
      with that row's difficulty, opponent and score. */
  lemma RankEntry(players: seq<Player>, fixtures: seq<Fixture>, teams: seq<Team>, gw: int, sel: Selection, topN: nat, j: int)
    requires Augmented(players) && 0 <= j < |Rank(players, fixtures, teams, gw, sel, topN)|
    ensures var e := Rank(players, fixtures, teams, gw, sel, topN)[j];
            && e.row < |players| && e.player == players[e.row] && Passes(sel, e.player)
            && e.difficulty == FixtureDifficulty(players, fixtures, e.player.id, gw)
            && e.opponent == FixtureOpponent(players, fixtures, teams, e.player.id, gw)
            && e.score == Score(sel, e.player, e.difficulty)
  {
    var r := Rank(players, fixtures, teams, gw, sel, topN);
    assert r[j].row in EligibleSet(players, sel);
    assert r[j] == ScoreRow(players, fixtures, teams, gw, sel, r[j].row);
  }

  /** The recommendation filters keep exactly the rows whose position code is the
      requested one and whose price is within the budget, each filter only when
      it is given and not zero. */
  lemma RecommendationFilterExact(players: seq<Player>, position: Option<Position>, budget: Option<real>, i: nat)
    requires i < |players|
    ensures i in EligibleSet(players, Recommendation(position, budget)) <==>
              (position.Some? ==> players[i].elementType == position.value.Code()) &&
              (budget.Some? && budget.value != 0.0 ==> players[i].nowCost as real <= budget.value)
  {
  }

  /** Every recommended entry meets the given filters and carries its row's
      difficulty, opponent and predicted points. */
  lemma RecommendationsFiltered(players: seq<Player>, fixtures: seq<Fixture>, teams: seq<Team>, gw: int,
                                position: Option<Position>, budget: Option<real>, topN: nat)
    requires Augmented(players)
    ensures var r := Recommendations(players, fixtures, teams, gw, position, budget, topN);
            forall j :: 0 <= j < |r| ==>
              && (position.Some? ==> r[j].player.elementType == position.value.Code())
              && (budget.Some? && budget.value != 0.0 ==> r[j].player.nowCost as real <= budget.value)
              && r[j].difficulty == FixtureDifficulty(players, fixtures, r[j].player.id, gw)
              && r[j].opponent == FixtureOpponent(players, fixtures, teams, r[j].player.id, gw)
              && r[j].score == PredictedPoints(r[j].player, r[j].difficulty)
  {
    var r := Recommendations(players, fixtures, teams, gw, position, budget, topN);
    forall j | 0 <= j < |r|
      ensures (position.Some? ==> r[j].player.elementType == position.value.Code())
      ensures (budget.Some? && budget.value != 0.0 ==> r[j].player.nowCost as real <= budget.value)
      ensures r[j].difficulty == FixtureDifficulty(players, fixtures, r[j].player.id, gw)
      ensures r[j].opponent == FixtureOpponent(players, fixtures, teams, r[j].player.id, gw)
      ensures r[j].score == PredictedPoints(r[j].player, r[j].difficulty)
    {
      RankEntry(players, fixtures, teams, gw, Recommendation(position, budget), topN, j);
    }
  }

  /** Surprise picks are restricted to rows owned by fewer than 5 percent and
      with a form above 3: every other row is left out whatever its score.  Each
      pick carries its row's difficulty, opponent and surprise score. */
  lemma SurprisePicksRestricted(players: seq<Player>, fixtures: seq<Fixture>, teams: seq<Team>, gw: int, topN: nat)
    requires Augmented(players)
    ensures var r := SurprisePicks(players, fixtures, teams, gw, topN);
            forall j :: 0 <= j < |r| ==>
              && r[j].player.selectedByPercent < SurpriseOwnershipCap && r[j].player.form > SurpriseFormFloor
              && r[j].difficulty == FixtureDifficulty(players, fixtures, r[j].player.id, gw)
              && r[j].opponent == FixtureOpponent(players, fixtures, teams, r[j].player.id, gw)
              && r[j].score == SurpriseScore(r[j].player, r[j].difficulty)
    ensures forall i :: 0 <= i < |players| && !(players[i].selectedByPercent < SurpriseOwnershipCap && players[i].form > SurpriseFormFloor) ==>
              !Taken(SurprisePicks(players, fixtures, teams, gw, topN), i)
  {
    var r := SurprisePicks(players, fixtures, teams, gw, topN);
    forall j | 0 <= j < |r|
      ensures r[j].player.selectedByPercent < SurpriseOwnershipCap && r[j].player.form > SurpriseFormFloor
      ensures r[j].difficulty == FixtureDifficulty(players, fixtures, r[j].player.id, gw)
      ensures r[j].opponent == FixtureOpponent(players, fixtures, teams, r[j].player.id, gw)
      ensures r[j].score == SurpriseScore(r[j].player, r[j].difficulty)
    {
      RankEntry(players, fixtures, teams, gw, Surprise, topN, j);
    }
  }

  /** A harder fixture lowers both scores: by 0.8 points per step of difficulty
      for predicted points and by 1.5 for the surprise score. */
  lemma HarderFixtureScoresLower(p: Player, easier: real, harder: real)
    requires p.derived.Some? && easier < harder
    ensures PredictedPoints(p, easier) - PredictedPoints(p, harder) == 0.8 * (harder - easier)
    ensures SurpriseScore(p, easier) - SurpriseScore(p, harder) == 1.5 * (harder - easier)
    ensures PredictedPoints(p, harder) < PredictedPoints(p, easier)
    ensures SurpriseScore(p, harder) < SurpriseScore(p, easier)
  {
  }
}
