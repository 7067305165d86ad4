/** The predictor object: it holds the last loaded snapshot in three fields and
    runs the metric calculation and the two ranking passes over it. */
module Predictor {
  import opened FplData
  import opened Metrics
  import opened Ranking
  import opened Engine

  class FplExpertPredictor {
    /** The player table; absent until a fetch has succeeded. */
    var playerData: Option<seq<Player>>
    /** The fixture and team tables; empty until a fetch has succeeded (an
        absent table makes every lookup fall back exactly as an empty one). */
    var fixtureData: seq<Fixture>
    var teamData: seq<Team>

    /** A loaded player table carries no derived columns other than those
        computed from each row's own raw columns. */
    ghost predicate Valid()
      reads this
    {
      playerData.Some? ==> MetricsCurrent(playerData.value)
    }

    constructor ()
      ensures Valid()
      ensures playerData == None && fixtureData == [] && teamData == []
    {
      playerData := None;
      fixtureData := [];
      teamData := [];
    }

    /** Stores the outcome of a fetch: on success the three tables are replaced
        together, on failure nothing changes and false is returned.  A fetched
        player table never carries derived columns. */
    method FetchData(fetched: Option<Snapshot>) returns (ok: bool)
      requires Valid()
      requires fetched.Some? ==> Raw(fetched.value.players)
      modifies this
      ensures Valid()
      ensures ok == fetched.Some?
      ensures ok ==> playerData == Some(fetched.value.players) &&
                     fixtureData == fetched.value.fixtures && teamData == fetched.value.teams
      ensures !ok ==> playerData == old(playerData) && fixtureData == old(fixtureData) && teamData == old(teamData)
    {
      match fetched
      case None =>
        ok := false;
      case Some(snapshot) =>
        playerData := Some(snapshot.players);
        fixtureData := snapshot.fixtures;
        teamData := snapshot.teams;
        ok := true;
    }

    /** Replaces the player table by a copy carrying the derived metrics; does
        nothing when no table is loaded.  The other tables are untouched. */
    method CalculateAdvancedMetrics()
      requires Valid()
      modifies this
      ensures Valid()
      ensures playerData == if old(playerData).None? then None else Some(AugmentAll(old(playerData).value))
      ensures playerData.Some? ==> Augmented(playerData.value)
      ensures fixtureData == old(fixtureData) && teamData == old(teamData)
    {
      if playerData.Some? {
        playerData := Some(AugmentAll(playerData.value));
      }
    }

    /** The recommendations for round `targetGw`.  With no table loaded it first
        takes the outcome of a fetch, `fetched`, and returns nothing when that
        failed; otherwise it recalculates the metrics and ranks the table. */
    method GenerateRecommendationsForGw(targetGw: int, position: Option<Position>, budget: Option<real>, topN: nat,
                                        fetched: Option<Snapshot>) returns (r: Option<seq<Entry>>)
      requires Valid()
      requires fetched.Some? ==> Raw(fetched.value.players)
      modifies this
      ensures Valid()
      ensures old(playerData).None? && fetched.None? ==>
                r.None? && playerData == old(playerData) && fixtureData == old(fixtureData) && teamData == old(teamData)
      ensures old(playerData).Some? ==>
                playerData == Some(AugmentAll(old(playerData).value)) &&
                fixtureData == old(fixtureData) && teamData == old(teamData)
      ensures old(playerData).None? && fetched.Some? ==>
                playerData == Some(AugmentAll(fetched.value.players)) &&
                fixtureData == fetched.value.fixtures && teamData == fetched.value.teams
      ensures r.Some? <==> old(playerData).Some? || fetched.Some?
      ensures r.Some? ==> playerData.Some? && Augmented(playerData.value) &&
                          r.value == Recommendations(playerData.value, fixtureData, teamData, targetGw, position, budget, topN)
    {
      if playerData.None? {
        var ok := FetchData(fetched);
        if !ok {
          return None;
        }
      }
      CalculateAdvancedMetrics();
      r := Some(Recommendations(playerData.value, fixtureData, teamData, targetGw, position, budget, topN));
    }

    /** The surprise picks for round `targetGw`.  The table must be loaded and
        carry the derived metrics, which a recommendation pass leaves behind;
        each pick is scored with the points per minute of its own raw columns. */
    method GetSurprisePicksForGw(targetGw: int, topN: nat) returns (r: seq<Entry>)
      requires Valid() && playerData.Some? && Augmented(playerData.value)
      ensures r == SurprisePicks(playerData.value, fixtureData, teamData, targetGw, topN)
      ensures |r| <= topN
      ensures forall j :: 0 <= j < |r| ==>
                && r[j].player.selectedByPercent < SurpriseOwnershipCap && r[j].player.form > SurpriseFormFloor
                && r[j].player.derived == Some(ComputeMetrics(r[j].player))
                && r[j].score == r[j].player.form * 2.5 + PointsPerMinute(r[j].player) * 120.0
                                 - r[j].difficulty * 1.5 + (100.0 - r[j].player.selectedByPercent)
    {
      r := SurprisePicks(playerData.value, fixtureData, teamData, targetGw, topN);
      SurprisePicksRestricted(playerData.value, fixtureData, teamData, targetGw, topN);
      forall j | 0 <= j < |r|
        ensures r[j].player.derived == Some(ComputeMetrics(r[j].player))
      {
        RankEntry(playerData.value, fixtureData, teamData, targetGw, Surprise, topN, j);
      }
    }
  }
}
