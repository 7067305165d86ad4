# FPL Expert Predictor — scoring and ranking pipeline in Dafny

This project models the scoring and ranking core of the `FPLExpertPredictor`
class of the FPL Expert Predictor dashboard (`fpl_app.py`). Over one loaded
snapshot of fantasy-football statistics (players, fixtures, teams) the class:

- adds derived metrics to every player row: points per minute, value index,
  recent-form index, differential index and surprise index. Each ratio is
  guarded against a zero denominator, and the surprise index doubles points per
  game below 5 percent ownership;
- resolves, for a player and a round (gameweek), the difficulty rating and the
  opponent of the player's team. It uses the first fixture of that round the
  team plays in. With no player row for the id, or no fixture of that round
  for the team, the difficulty falls back to 3.0 and the opponent to the
  "unknown" text. When only the opponent's team row is missing, the opponent
  is unknown but the difficulty is still the fixture's rating, since the
  difficulty lookup never reads the team table;
- ranks players for recommendation. It applies an optional position-code filter
  and an optional budget ceiling, scores each row with predicted points, and
  keeps the top N;
- ranks surprise picks. Only rows with ownership below 5 percent and form above
  3 are kept; they are scored with the surprise score and the top N are kept.

Modules, one per component:

| file | module | what it holds |
|---|---|---|
| data.dfy | `FplData` | the records: `Player`, `Fixture`, `Team`, `Metrics`, `Position`, `Snapshot` |
| metrics.dfy | `Metrics` | the metric calculation, row by row and for the whole table |
| fixtures.dfy | `Fixtures` | the first-match lookups, the difficulty and opponent resolvers |
| ranking.dfy | `Ranking` | top-N selection as `nlargest(n, column)` with `keep='first'` does it: a stable descending sort followed by a prefix |
| engine.dfy | `Engine` | the filters, the two score formulas and the ranking passes |
| predictor.dfy | `Predictor` | the `FplExpertPredictor` class: the snapshot fields and the methods that update and read them |
| scenarios.dfy | `Scenarios` | a worked two-player table |

Numeric columns are taken as already parsed. Cost, points, minutes, ids and
position codes are `int`. Form, ownership and points per game are `real`, and
all formulas are stated over `real`. The strings are the dashboard's own: the
unknown-opponent text and the two venue labels are kept in Arabic.

Points worth noting about the code:

- The surprise index is at least points per game only when points per game is
  not negative. A negative value is doubled downwards, so
  `SurpriseIndexAtLeastPointsPerGame` requires `pointsPerGame >= 0.0`.
- A failed fetch is reported by returning `false`.
- The fixture lookups find the player's team through the first row of the WHOLE
  player table with the player's id, not through the filtered row.
- A fetched player table has no metric columns (`fpl_app.py:64`); only the
  metric calculation writes them (`fpl_app.py:93-102`). The class keeps this as
  its invariant `Valid`: every row carrying metrics carries the ones computed
  from its own raw columns. `FetchData` therefore takes only snapshots whose
  rows carry none.

## Model

| member | source | states |
|---|---|---|
| FplData.Position.Code | fpl_app.py:173 | the `position_map` code a position filter compares `element_type` with lies in 1..4 |
| FplData.PositionCodesDistinct | fpl_app.py:173 | two positions share a code iff they are the same position, so the filter keeps exactly one position |
| Metrics.PointsPerMinute | fpl_app.py:94 | 0 when minutes ≤ 0; otherwise the value times minutes is total points (the ratio) |
| Metrics.ValueIndex | fpl_app.py:95 | 0 when the price ≤ 0; otherwise the value times the price (in tenths) is 10 × total points |
| Metrics.ComputeMetrics | fpl_app.py:93-102 | zero minutes gives zero points per minute, zero price gives zero value index, and the surprise index is at least points per game when that is not negative |
| Metrics.DifferentialIndex | fpl_app.py:97 | (100 − ownership) × points per game; its properties are stated by `DifferentialIndexAntitone` |
| Metrics.SurpriseIndex | fpl_app.py:98-102 | points per game, doubled below 5 percent ownership; its properties are stated by `SurpriseIndexAtLeastPointsPerGame` |
| Metrics.SurpriseIndexAtLeastPointsPerGame | fpl_app.py:98-102 | for points per game ≥ 0 the surprise index is ≥ points per game; it is double below 5 percent ownership and equal from 5 percent up |
| Metrics.DifferentialIndexAntitone | fpl_app.py:97 | for fixed points per game ≥ 0 the differential index does not grow with ownership, and strictly falls when points per game > 0 |
| Metrics.Augment | fpl_app.py:84-104 | the row gets the metrics computed from its own raw columns, and its raw columns are unchanged |
| Metrics.AugmentAll | fpl_app.py:84-104 | same length, row i carries the metrics computed from row i's raw columns, and every row's raw columns are unchanged |
| Metrics.AugmentAllIdempotent | fpl_app.py:169 | recalculating the metrics on every recommendation call changes nothing after the first time |
| Fixtures.FirstIndex | fpl_app.py:109 | the result is absent iff no row from `lo` on matches; otherwise it is a matching row with no matching row before it |
| Fixtures.Find | fpl_app.py:111-120 | a filter followed by `iloc[0]`/`values[0]`: absent iff no row matches, otherwise the first matching row |
| Fixtures.FindIsFirst | fpl_app.py:120 | whichever row is the first match, the lookup returns exactly that row |
| Fixtures.Describe | fpl_app.py:159 | the opponent text ends with the closing parenthesis of the venue label |
| Fixtures.FixtureDifficulty | fpl_app.py:106-129 | the result is the neutral 3.0 or a rating taken from a fixture of the table |
| Fixtures.FixtureOpponent | fpl_app.py:131-161 | the result is the unknown text or a described opponent |
| Fixtures.ResolverDefaults | fpl_app.py:106-161 | with no player row for the id, or no fixture of the round for the player's team, the difficulty is 3.0 and the opponent is unknown |
| Fixtures.DifficultyOfFirstFixture | fpl_app.py:120-127 | otherwise the difficulty is the first matching fixture's away rating if the team is the away side, its home rating otherwise |
| Fixtures.OpponentOfFirstFixture | fpl_app.py:145-159 | the opponent comes from the same first fixture: the other side's team name with "away" when the team is the away side and "home" otherwise; unknown when that team has no row, while the difficulty is still resolved |
| Fixtures.OpponentKnownIff | fpl_app.py:131-161 | the opponent is known iff the player row, the round's fixture and the opponent's team row all exist |
| Fixtures.DifficultyInScale | fpl_app.py:117-127 | when all ratings of the table are on the 1..5 scale, so is the difficulty |
| Ranking.Insert | fpl_app.py:192 | inserting into a ranked sequence keeps it ranked and adds exactly that entry |
| Ranking.Sort | fpl_app.py:192 | the result is ranked (score descending, equal scores in table order) and a permutation of the input |
| Ranking.TopN | fpl_app.py:192 | min(n, size) entries, ranked, drawn from the input, and every entry left out ranks behind every entry kept |
| Ranking.RankedUnique | fpl_app.py:192 | two ranked sequences of one length with the same elements are equal |
| Ranking.TopNUnique | fpl_app.py:192 | `TopN`'s contract determines its result: any sequence meeting it is `TopN` |
| Engine.Passes | fpl_app.py:172-177 | the filters of both passes (the surprise ones at lines 208-212); `RecommendationFilterExact` states the recommendation filters as an iff, and `SurprisePicksRestricted` and `SurpriseCutoffs` state the strict surprise cut-offs |
| Engine.PredictedPoints | fpl_app.py:183-190 | the weighted sum of form, points per minute, value, difficulty, differential and surprise indices; `RecommendationsFiltered` ties every recommendation's score to it, and `HarderFixtureScoresLower` states the exact 0.8 drop per difficulty step |
| Engine.SurpriseScore | fpl_app.py:220-225 | the weighted sum of form, points per minute, difficulty and non-ownership; `SurprisePicksRestricted` ties every pick's score to it, and `HarderFixtureScoresLower` states the exact 1.5 drop per difficulty step |
| Engine.EligibleRows | fpl_app.py:172-177 | the surviving rows in table order: each passes the filters, they are strictly increasing, and every passing row is listed |
| Engine.EligibleCount | fpl_app.py:172-177 | as many rows are listed as pass the filters |
| Engine.ScoreRow | fpl_app.py:179-190 | the scored entry keeps the row's position in the table and the row itself |
| Engine.Candidates | fpl_app.py:179-180 | the filtered rows scored in table order; rows listed in increasing order give entries from distinct rows, which top-N selection needs |
| Engine.Rank | fpl_app.py:192-195 | min(top_n, eligible) entries, each the scored form of an eligible row, ranked by score with ties in table order, and every eligible row left out ranks behind every entry kept |
| Engine.RankDetermined | fpl_app.py:192-195 | `Rank`'s contract determines its result exactly |
| Engine.RankEntry | fpl_app.py:179-190 | every ranked entry is a row that passed the filters, with that row's difficulty, opponent and score |
| Engine.Recommendations | fpl_app.py:163-195 | the recommendation pass: `Rank` with the position and budget filters and predicted points, so `Rank`'s contract, `RankDetermined` and `RecommendationsFiltered` describe it |
| Engine.SurprisePicks | fpl_app.py:204-227 | the surprise pass: `Rank` with the surprise cut-offs and surprise score, so `Rank`'s contract, `RankDetermined` and `SurprisePicksRestricted` describe it |
| Engine.RecommendationFilterExact | fpl_app.py:172-177 | a row is eligible iff its position code is the requested one (GKP 1, DEF 2, MID 3, FWD 4) and its price is within the budget, each filter applying only when given and not zero |
| Engine.RecommendationsFiltered | fpl_app.py:172-190 | every recommendation meets the filters and carries its row's difficulty, opponent and predicted points |
| Engine.SurprisePicksRestricted | fpl_app.py:208-225 | every surprise pick is below 5 percent ownership with form above 3 and carries its surprise score; every other row is excluded whatever its score |
| Engine.HarderFixtureScoresLower | fpl_app.py:183-190 | one more step of difficulty lowers predicted points by 0.8 (and the surprise score, lines 220-225, by 1.5) |
| Scenarios.RegularScorerRecommended | fpl_app.py:183-195 | in the worked table with no fixtures, top 1 is the regular scorer with difficulty 3.0, an unknown opponent and 391 predicted points |
| Scenarios.RegularScorerIsTheOnlySurprise | fpl_app.py:208-227 | in the same table the regular scorer is the only surprise pick, with a surprise score of 118 |
| Scenarios.SurpriseCutoffs | fpl_app.py:209-212 | the cut-offs are strict: 4.99 percent with form 3.01 passes, exactly 5.0 percent or exactly form 3.0 is excluded |
| Predictor.FplExpertPredictor.constructor | fpl_app.py:39-45 | no player table, empty fixture and team tables; the invariant holds |
| Predictor.FplExpertPredictor.FetchData | fpl_app.py:58-77 | on success the three tables are replaced by the fetched ones (whose player rows carry no metrics) and true is returned; on failure nothing changes and false is returned; the invariant is kept |
| Predictor.FplExpertPredictor.CalculateAdvancedMetrics | fpl_app.py:79-104 | the player table is replaced by its augmented copy (nothing happens without one); the other tables are untouched; the invariant is kept |
| Predictor.FplExpertPredictor.GenerateRecommendationsForGw | fpl_app.py:163-195 | lazy fetch when no table is loaded (nothing returned when it fails), then recalculated metrics and the recommendation ranking of the new table; the invariant is kept |
| Predictor.FplExpertPredictor.GetSurprisePicksForGw | fpl_app.py:204-230 | the surprise ranking of the loaded, augmented table: at most top_n picks, all below 5 percent ownership with form above 3, each scored with the points per minute of its own raw columns |

## Left out

- HTTP fetching (`fpl_app.py:47-77`): the requests to the statistics API and the current-gameweek lookup are network I/O. The outcome of a fetch is a parameter, `Option<Snapshot>`, of `FetchData` and of the lazy fetch in `GenerateRecommendationsForGw`.
- Predictor.FplExpertPredictor.FetchData: a fetch is all-or-nothing here. In the source a request that fails after the player table was stored leaves that table replaced and the others not.
- Text parsing and NaN: `pd.to_numeric(..., errors='coerce')` and NaN propagation are library behaviour. Fields are already-parsed numbers, so a non-numeric form or ownership is not modelled. Such a NaN fails the surprise comparisons, but in the recommendation pass it gives a NaN predicted score, which `nlargest` places after every numeric score and keeps when fewer than N rows have one.
- Floating point: every formula is over exact `real`; IEEE rounding is not modelled.
- The columns `value_season`, `goals_scored`, `assists` and `clean_sheets` are coerced to numbers and never used, so they are not fields of `Player`.
- The recent-form index (form × 1.5) is computed but no score uses it.
- Column projection and renaming, and the display labels for positions and team names (`fpl_app.py:192-202`, `227-239`). Entries keep the whole player row instead.
- Engine.RecommendationFilterExact: the position is a `Position` value. A position string outside the four keys raises `KeyError` in the source, and the type rules that out.
- Engine.Rank: `top_n` is a `nat`. The dashboard passes 15 and 5; a negative `top_n` is not modelled.
- Predictor.FplExpertPredictor.GetSurprisePicksForGw: it requires a loaded table carrying the derived metrics. In the source it raises on a table without them, and on no table at all.
- An absent fixture or team table is modelled as an empty one. Every lookup then fails inside the `try` and falls back exactly as for an empty table.
- The Streamlit page, widgets, tables and Plotly charts (`fpl_app.py:1-36`, `241-388`), and the process-wide `predictor` instance.
