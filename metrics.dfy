/** The metric calculation: the derived columns added to every player row,
    each with its divide-by-zero guard. */
module Metrics {
  import opened FplData

  /** Ownership below this percentage doubles the surprise index. */
  const LowOwnership: real := 5.0

  /** Total points per minute played; 0 for a player who has not played. */
  function PointsPerMinute(p: Player): (r: real)
    ensures p.minutes <= 0 ==> r == 0.0
    ensures p.minutes > 0 ==> r * (p.minutes as real) == p.totalPoints as real
  {
    if p.minutes > 0 then p.totalPoints as real / p.minutes as real else 0.0
  }

  /** Total points per currency unit of price (the price is kept in tenths);
      0 for a player whose price is not positive. */
  function ValueIndex(p: Player): (r: real)
    ensures p.nowCost <= 0 ==> r == 0.0
    ensures p.nowCost > 0 ==> r * (p.nowCost as real) == 10.0 * (p.totalPoints as real)
  {
    if p.nowCost > 0 then p.totalPoints as real / (p.nowCost as real / 10.0) else 0.0
  }

  /** The share of managers who do NOT own the player, times points per game. */
  function DifferentialIndex(ownership: real, pointsPerGame: real): real
  {
    (100.0 - ownership) * pointsPerGame
  }

  /** Points per game, doubled for a player owned by fewer than 5 percent. */
  function SurpriseIndex(ownership: real, pointsPerGame: real): real
  {
    if ownership < LowOwnership then pointsPerGame * 2.0 else pointsPerGame
  }

  /** The derived columns of one row, computed from its raw columns only. */
  function ComputeMetrics(p: Player): (m: Metrics)
    ensures p.minutes <= 0 ==> m.pointsPerMinute == 0.0
    ensures p.nowCost <= 0 ==> m.valueIndex == 0.0
    ensures p.pointsPerGame >= 0.0 ==> m.surpriseIndex >= p.pointsPerGame
  {
    Metrics(
      PointsPerMinute(p),
      ValueIndex(p),
      p.form * 1.5,
      DifferentialIndex(p.selectedByPercent, p.pointsPerGame),
      SurpriseIndex(p.selectedByPercent, p.pointsPerGame))
  }

  /** The row with the derived columns (re)computed; the raw columns are kept. */
  function Augment(p: Player): (q: Player)
    ensures q.derived == Some(ComputeMetrics(p))
    ensures q.(derived := p.derived) == p
  {
    p.(derived := Some(ComputeMetrics(p)))
  }

  /** Every row that carries derived columns carries the ones computed from its
      own raw columns. */
  predicate MetricsCurrent(players: seq<Player>)
  {
    forall i :: 0 <= i < |players| && players[i].derived.Some? ==>
      players[i].derived == Some(ComputeMetrics(players[i]))
  }

  /** No row carries derived columns yet, as in a freshly fetched table. */
  predicate Raw(players: seq<Player>)
  {
    forall i :: 0 <= i < |players| ==> players[i].derived.None?
  }

  /** The whole table with the derived columns added, row for row: row `i` gets
      the metrics of row `i`'s own raw columns. */
  function AugmentAll(players: seq<Player>): (r: seq<Player>)
    ensures |r| == |players| && Augmented(r) && MetricsCurrent(r)
    ensures forall i :: 0 <= i < |r| ==> r[i].derived == Some(ComputeMetrics(players[i]))
    ensures forall i :: 0 <= i < |r| ==> r[i].(derived := players[i].derived) == players[i]
  {
    seq(|players|, i requires 0 <= i < |players| => Augment(players[i]))
  }

  /** The surprise index never falls below points per game when that is not
      negative, and equals it exactly from 5 percent ownership up. */
  lemma SurpriseIndexAtLeastPointsPerGame(ownership: real, pointsPerGame: real)
    requires pointsPerGame >= 0.0
    ensures SurpriseIndex(ownership, pointsPerGame) >= pointsPerGame
    ensures ownership >= LowOwnership ==> SurpriseIndex(ownership, pointsPerGame) == pointsPerGame
    ensures ownership < LowOwnership ==> SurpriseIndex(ownership, pointsPerGame) == 2.0 * pointsPerGame
  {
  }

  /** For a fixed, non-negative points per game the differential index does not
      grow as ownership grows, and strictly falls when points per game is positive. */
  lemma DifferentialIndexAntitone(o1: real, o2: real, pointsPerGame: real)
    requires o1 <= o2 && pointsPerGame >= 0.0
    ensures DifferentialIndex(o2, pointsPerGame) <= DifferentialIndex(o1, pointsPerGame)
    ensures o1 < o2 && pointsPerGame > 0.0 ==> DifferentialIndex(o2, pointsPerGame) < DifferentialIndex(o1, pointsPerGame)
  {
    var gap := o2 - o1;
    assert DifferentialIndex(o1, pointsPerGame) - DifferentialIndex(o2, pointsPerGame) == gap * pointsPerGame;
    if gap > 0.0 && pointsPerGame > 0.0 {
      assert gap * pointsPerGame > 0.0;
    }
  }

  /** Recomputing the metrics on a table that already has them changes nothing:
      the derived columns depend on the raw columns alone. */
  lemma AugmentAllIdempotent(players: seq<Player>)
    ensures AugmentAll(AugmentAll(players)) == AugmentAll(players)
  {
    var once := AugmentAll(players);
    forall i | 0 <= i < |once|
      ensures AugmentAll(once)[i] == once[i]
    {
      assert once[i].(derived := players[i].derived) == players[i];
      assert ComputeMetrics(once[i]) == ComputeMetrics(players[i]);
    }
  }
}
