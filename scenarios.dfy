/** A worked two-player table in a round with no fixtures: a regular scorer owned
    by 2 percent against an unused player owned by 30 percent. */
module Scenarios {
  import opened FplData
  import opened Metrics
  import opened Fixtures
  import opened Engine

  /** Form 5.0, 450 minutes, 45 points, price 5.0, 2 percent owned, 9.0 a game. */
  const Regular: Player := Player(1, "Regular", 1, 3, 50, 45, 450, 9.0, 2.0, 5.0, None)
  /** Form 1.0, no minutes, no points, price 4.0, 30 percent owned. */
  const Unused: Player := Player(2, "Unused", 2, 3, 40, 0, 0, 0.0, 30.0, 1.0, None)

  /** The two rows scored for an unfiltered recommendation. */
  lemma ExampleScores(gw: int)
    ensures var players := AugmentAll([Regular, Unused]);
            var sel := Recommendation(None, None);
            && ScoreRow(players, [], [], gw, sel, 0).difficulty == NeutralDifficulty
            && ScoreRow(players, [], [], gw, sel, 0).opponent == UnknownOpponent
            && ScoreRow(players, [], [], gw, sel, 0).score == 391.0
            && ScoreRow(players, [], [], gw, sel, 1).score == -0.4
  {
    var players := AugmentAll([Regular, Unused]);
    assert players[0] == Augment(Regular) && players[1] == Augment(Unused);
    assert PointsPerMinute(Regular) == 0.1;
    assert ValueIndex(Regular) == 9.0;
    ResolverDefaults(players, [], [], Regular.id, gw);
    ResolverDefaults(players, [], [], Unused.id, gw);
  }

  /** Both rows pass when no filter is given. */
  lemma ExampleEligible()
    ensures EligibleSet(AugmentAll([Regular, Unused]), Recommendation(None, None)) == {0, 1}
  {
    var players := AugmentAll([Regular, Unused]);
    assert |players| == 2;
    forall i: nat | i < 2 ensures i in EligibleSet(players, Recommendation(None, None)) {
    }
  }

  /** Both rows are eligible for an unfiltered recommendation; the regular
      scorer's predicted points (391) beat the unused player's (-0.4), so a top-1
      request returns the regular scorer alone, with the neutral difficulty and
      an unknown opponent. */
  lemma RegularScorerRecommended(gw: int)
    ensures var players := AugmentAll([Regular, Unused]);
            var r := Recommendations(players, [], [], gw, None, None, 1);
            |r| == 1 && r[0].row == 0 && r[0].difficulty == NeutralDifficulty &&
            r[0].opponent == UnknownOpponent && r[0].score == 391.0
  {
    var players := AugmentAll([Regular, Unused]);
    var sel := Recommendation(None, None);
    var r := Recommendations(players, [], [], gw, None, None, 1);
    ExampleScores(gw);
    ExampleEligible();
    assert |r| == 1;
    assert r[0] == ScoreRow(players, [], [], gw, sel, 0);
  }

  /** Only the regular scorer passes the surprise filters, and its surprise
      score is 118. */
  lemma ExampleSurprise(gw: int)
    ensures var players := AugmentAll([Regular, Unused]);
            && EligibleSet(players, Surprise) == {0}
            && ScoreRow(players, [], [], gw, Surprise, 0).score == 118.0
  {
    var players := AugmentAll([Regular, Unused]);
    assert players[0] == Augment(Regular) && players[1] == Augment(Unused);
    assert PointsPerMinute(Regular) == 0.1;
    assert EligibleSet(players, Surprise) == {0};
    ResolverDefaults(players, [], [], Regular.id, gw);
  }

  /** In the same table only the regular scorer (2 percent owned, form 5.0)
      survives the surprise filters, with a surprise score of 118. */
  lemma RegularScorerIsTheOnlySurprise(gw: int)
    ensures var players := AugmentAll([Regular, Unused]);
            var r := SurprisePicks(players, [], [], gw, 5);
            |r| == 1 && r[0].row == 0 && r[0].score == 118.0
  {
    var players := AugmentAll([Regular, Unused]);
    var r := SurprisePicks(players, [], [], gw, 5);
    ExampleSurprise(gw);
    assert |r| == 1;
    assert r[0] == ScoreRow(players, [], [], gw, Surprise, 0);
  }

  /** The surprise cut-offs are strict: 4.99 percent owned with form 3.01 passes,
      while exactly 5.0 percent or exactly form 3.0 is excluded. */
  lemma SurpriseCutoffs()
    ensures Passes(Surprise, Regular.(selectedByPercent := 4.99, form := 3.01))
    ensures !Passes(Surprise, Regular.(selectedByPercent := 5.0, form := 3.01))
    ensures !Passes(Surprise, Regular.(selectedByPercent := 4.99, form := 3.0))
  {
  }
}
