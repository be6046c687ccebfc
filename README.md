# NFL game prediction pipeline, snake draft and team records — a Dafny model

This project models the core of a Django back end that predicts NFL games.

- **Feature extraction** (`FeatureExtractor`). For one team and a cutoff date, it selects the team's most recent completed games before the cutoff. It averages box-score rows, derives points scored and allowed, situational values (home, weather, dome, rest days) and a recent-form trend. It lays everything out as a fixed 44-slot vector whose slot names `get_feature_names` lists in the same order.
- **Training-data builder** (`TrainingDataBuilder.build`, `train_test_split_by_season`). It selects regular-season games, builds one feature row and three labels per game, and skips games with too little history.
- **Model-version registry** (`PredictionModelVersion`). Version rows are keyed by version string, and `activate` leaves exactly one row active.
- **Training command** (`train_model.Command.handle`). Build, abort on failure or on fewer than 100 rows, train, save, record the version, and activate it on request.
- **Snake draft** (`DraftSession.get_team_for_pick`, `total_picks`). This includes the `create_session` and `make_pick` endpoints and their guards and counter updates.
- **Team record** (`TeamWithRecordSerializer.get_record`). It counts wins, losses and ties over a season's completed games and writes "W-L" or "W-L-T".

Modules:

- `Wrappers`: `Option` and `Result`.
- `Store`: game and stat rows, and the date ordering the queries request.
- `Features`, `Training`, `Registry` and `TrainCommand` follow the prediction pipeline.
- `DraftRules`: the pure pick arithmetic.
- `DraftSessions`: the session class and the two endpoints.
- `TeamRecord`: the serializer method.

Modelling choices:

- **Scores.** Nullable scores are `Option<int>`. Python's comparison of a NULL score raises `TypeError`; the model turns this into `ExtractError.ScoreTypeError`, which makes the build fail.
- **Store and order.** The database is a pair of sequences. SQL leaves the order of games with equal dates unspecified; the model fixes one order by sorting stably on the date, so such games keep their store order.
- **Falsy values.** Python's `x or d` is modelled exactly: NULL and 0 both fall back to `d`.
- **Division.** Python's `//` and `%` agree with Dafny's because every divisor is at least 1.
- **State.** Stateful code is imperative Dafny:
  - the version table is a class with a `map` field;
  - the draft session is a class whose methods change its counters and pick list;
  - the points lists, the trend scan, the name list, the training loop and the record counters are loops with invariants, proved against specification functions.

## Model

| member | source | states |
|---|---|---|
| Store.SortByDate | backend/predictions/features.py:64-68 | `order_by('-date')` returns a date-sorted permutation of its input, of the same length |
| Store.Take | backend/predictions/features.py:68 | `[:n]` keeps the first min(n, len) rows, in order |
| Features.Qualifying | backend/predictions/features.py:64-67 | a game is selectable iff it involves the team, is dated strictly before the cutoff and has a non-null home score |
| Features.Recent | backend/predictions/features.py:64-68 | the selection holds min(num_games, #qualifying) games, all qualifying, newest first |
| Features.RecentAreNewest | backend/predictions/features.py:64-68 | the selected games are a sub-multiset of the qualifying ones, and every qualifying game left out is no newer than any selected game |
| Features.Latest | backend/predictions/features.py:197-202 | `.first()` of the newest-first query is None iff no game qualifies, and otherwise a qualifying game no older than any other |
| Features.Avg | backend/predictions/features.py:77-95 | Django's `Avg` is None iff there are no rows, and otherwise the average times the row count is the column sum |
| Features.AvgOrZero | backend/predictions/features.py:77-95 | `Avg(...) or 0`: 0 with no rows, otherwise the value times the row count is the column sum |
| Features.TeamRows | backend/predictions/features.py:77-80 | the team's own rows for the selected games: membership iff team and game id match |
| Features.OpponentRows | backend/predictions/features.py:142-146 | the rows of the selected games with this team's rows excluded |
| Features.PointsScored | backend/predictions/features.py:98-103 | points scored are the home score when the team is home, otherwise the away score, with NULL read as 0 |
| Features.PointsAllowed | backend/predictions/features.py:164-169 | points allowed are the opponent's points scored, and scored plus allowed is the sum of both scores |
| Features.Mean | backend/predictions/features.py:105 | `np.mean(...) if list else 0`: the mean times the length is the total, and 0 for an empty list |
| Features.OffensiveFrom | backend/predictions/features.py:107-120 | the offensive dictionary from the given rows: each average is `AvgOrZero` of its column over those rows; turnovers = average interceptions + average fumbles lost; total yards = pass + rush yards; the completion percentage as below; points scored is the mean of the points list |
| Features.CollectPointsScored | backend/predictions/features.py:98-103 | the appending loop yields one entry per game: that game's points scored |
| Features.CollectPointsAllowed | backend/predictions/features.py:164-169 | the appending loop yields one entry per game: that game's points allowed |
| Features.CompletionPct | backend/predictions/features.py:108-109 | completions / attempts × 100, where a NULL or 0 attempts average is replaced by 1 |
| Features.CompletionPctInRange | backend/predictions/features.py:108-109 | when no row has more completions than attempts, the completion percentage lies in [0, 100] |
| Features.Offensive | backend/predictions/features.py:49-120 | fails with InsufficientData iff fewer than 3 games are selected; otherwise it is `OffensiveFrom` of the team's own stat rows of the selected recent games and of its points in them |
| Features.OffensiveOf | backend/predictions/features.py:70-120 | on a given selection: fails with InsufficientData iff fewer than 3 games; otherwise it is `OffensiveFrom` of the team's own rows of those games and of its scores in them |
| Features.ExtractTeamOffensiveFeatures | backend/predictions/features.py:49-120 | the method (with its points loop) returns exactly `Offensive` |
| Features.DefensiveFrom | backend/predictions/features.py:173-183 | yards allowed are averaged over the opponents' rows, sacks and interceptions over the team's own rows; total yards allowed = pass + rush yards allowed; turnovers forced = average interceptions + average forced fumbles (so ≥ interceptions); points allowed is the mean of the allowed list |
| Features.FumblesForcedNonNegative | backend/predictions/features.py:181-182 | the forced-fumbles average, NULL read as 0, is never negative |
| Features.Defensive | backend/predictions/features.py:122-183 | fails with InsufficientData iff fewer than 3 games are selected; otherwise it is `DefensiveFrom` of the opponents' rows and the team's own rows of the selected recent games and of the points allowed in them |
| Features.ExtractTeamDefensiveFeatures | backend/predictions/features.py:122-183 | the method (with its points loop) returns exactly `Defensive` |
| Features.Situational | backend/predictions/features.py:185-215 | is_home is 1 iff the team is home; a dome/closed/retractable roof gives 70° and wind 0; a NULL or 0 temp/wind gives 70/0; rest days are 7 without a prior game, and otherwise min(days since the newest earlier qualifying game, 14), never exceeding the gap to any earlier qualifying game |
| Features.RunLength | backend/predictions/features.py:234-256 | the length of the leading run of one result: every result before it matches, the one after it does not |
| Features.RunLengthIs | backend/predictions/features.py:234-256 | any k with that property is the run length (uniqueness) |
| Features.StreakStopsAtFirstBreak | backend/predictions/features.py:234-256 | the streak's magnitude is the leading run of the newest result, stopping at the first game that breaks it |
| Features.StreakExample | backend/predictions/features.py:234-256 | [W, W, L, W] gives a streak of +2 |
| Features.ScanAsWritten | backend/predictions/features.py:230-258 | the scan as written: with no games, win_pct 0.5 and streak 0; it fails (the NULL-score TypeError) iff a NULL is met among the games up to and including the first that breaks the streak; otherwise win_pct × #games = the wins among those scanned games, and the streak is the true streak |
| Features.ScannedLength | backend/predictions/features.py:234-256 | how many games the loop as written reads before its `break`: the streak's run plus the breaking game, at most all games, at least one |
| Features.CountRun | backend/predictions/features.py:240-244 | the wins in the first k games of a run of one result are k for a winning run and 0 for a losing one |
| Features.ScannedPrefix | backend/predictions/features.py:234-256 | the games read before the `break` hold no NULL before the breaking one, and their wins are the run (if winning) plus 1 when a win breaks a losing run |
| Features.ScansAgreeOnStreak | backend/predictions/features.py:234-256 | whenever the corrected scan succeeds, the scan as written succeeds too and reports the same streak |
| Features.ScanAsWrittenUndercountsWins | backend/predictions/features.py:240-258 | on [W, L, W, W, W] the loop as written reports win_pct 0.2, while the 5-game win rate is 0.8 |
| Features.ScanAsWrittenAgreesUntilBreak | backend/predictions/features.py:234-258 | when the streak runs through the oldest selected game, the as-written scan and the corrected one agree entirely |
| Features.Scan | backend/predictions/features.py:230-258 | fails iff a score is NULL; win_pct × #games = #wins (0.5 with no games); win_pct in [0, 1]; streak bounded by #games, non-zero, and positive iff the newest game is a win |
| Features.Ratio | backend/predictions/features.py:258 | `wins / len(games)`: the ratio times the game count is the win count, and it lies in [0, 1] |
| Features.Trend | backend/predictions/features.py:217-263 | the trend features of the newest 5 games, by the corrected scan: they fail only with the NULL-score TypeError |
| Features.ExtractTrendFeaturesAsWritten | backend/predictions/features.py:217-263 | the loop with its `break` computes `ScanAsWritten` of the newest 5 results |
| Features.ScanGamesAsWritten | backend/predictions/features.py:234-258 | the loop as written over the given games computes `ScanAsWritten` of their results |
| Features.ExtractTrendFeatures | backend/predictions/features.py:217-263 | the corrected loop counts every win and still stops the streak at the break; it computes `Scan` of the newest 5 results |
| Features.ScanGames | backend/predictions/features.py:234-258 | the corrected loop over the given games computes `Scan` of their results |
| Features.TeamVectorOrder | backend/predictions/features.py:294-323 | one team's half holds 22 slots, slot k being the value of key k of the fixed order |
| Features.FeatureVectorOrder | backend/predictions/features.py:294-354 | the vector holds 44 slots: home slot k at k, away slot k at 22 + k |
| Features.GetFeatureNames | backend/predictions/features.py:358-403 | 44 names: "home_" + key k at k and "away_" + key k at 22 + k, so the same order as the vector |
| Features.SideNames | backend/predictions/features.py:367-401 | one prefix's 22 names, in slot order |
| Features.FirstFailure | backend/predictions/features.py:281-290 | the vector is built iff all six fallible extractions succeed; otherwise the error raised is that of the first failing one in call order (home offensive, home defensive, home trend, away offensive, away defensive, away trend) |
| Features.GameFeatures | backend/predictions/features.py:265-356 | a built vector has 44 slots; fewer than 3 prior home games fails with InsufficientData; fewer than 3 prior away games fails with the home trend's error when the home history suffices and its trend fails, and with InsufficientData otherwise; InsufficientData arises only from a short history |
| Features.BuildGameFeatures | backend/predictions/features.py:265-356 | the method calling the eight extractions returns exactly `GameFeatures` |
| Features.RecentAgrees | backend/predictions/features.py:64-68 | two stores that agree on all games before the cutoff select the same games |
| Features.TeamFeaturesAgree | backend/predictions/features.py:49-263 | every feature group of a team is the same in two stores that agree on the past |
| Features.NoLeakage | backend/predictions/features.py:53-54 | a game's feature vector depends only on games dated strictly before it and on their stat rows |
| Training.FilterSelectable | backend/predictions/training.py:69-73 | a game is selected iff its season is one of those given, week ≥ min_week, the home score is non-null and stage is 'REG' |
| Training.SelectedGames | backend/predictions/training.py:69-75 | the same selection, ordered by ascending date |
| Training.HomeWin | backend/predictions/training.py:93 | home_win is 0 or 1, and 1 iff the home score exceeds the away score |
| Training.Step | backend/predictions/training.py:88-105 | one pass of the loop body: InsufficientData skips the game; any other error, or a NULL score, aborts; otherwise the game's row and three labels are appended |
| Training.Fold | backend/predictions/training.py:87-105 | the whole loop: a completed loop only extends the lists and the skip counter, and rows + skips grow by the number of games |
| Training.Usable | backend/predictions/training.py:87-101 | the games whose features build, in order |
| Training.ExplainsAppend | backend/predictions/training.py:97-100 | appending one game's row keeps the four lists aligned with the games used |
| Training.FoldShape | backend/predictions/training.py:87-105 | a completed loop leaves row i of X and the three labels belonging to the i-th usable game; skipped grows by exactly the games whose extraction raised InsufficientData, and no other error occurred |
| Training.FoldExplains | backend/predictions/training.py:87-105 | by induction over the games: row i of X and of each label column belongs to the i-th game whose extraction succeeded |
| Training.FoldSkips | backend/predictions/training.py:87-105 | by induction over the games: `skipped` grows by the number of games whose extraction did not succeed |
| Training.FoldAccepts | backend/predictions/training.py:87-105 | by induction over the games: a loop that completes met no error other than InsufficientData |
| Training.AssembleShape | backend/predictions/training.py:87-121 | a successful build has at least one row, the four lists have equal length, row i belongs to the i-th usable game, and rows + skipped = number of selected games |
| Training.FinishShape | backend/predictions/training.py:87-121 | the same facts for any extractor: the loop followed by the `X.shape[1]` access |
| Training.NoRowsIffNothingUsable | backend/predictions/training.py:87-121 | the build fails with the IndexError of `X.shape[1]` iff the loop completed without a usable game (no game selected, or every game skipped) |
| Training.FoldNeverNoRows | backend/predictions/training.py:87-105 | the loop itself never raises the IndexError: only the `X.shape[1]` access after it does |
| Training.LabelsAgree | backend/predictions/training.py:93-95 | y_winner is 1 iff y_spread > 0 (a tie gives 0), and y_total − y_spread is even |
| Training.FoldStep | backend/predictions/training.py:87-105 | one iteration: an error other than InsufficientData ends the loop, otherwise the loop goes on from the updated lists |
| Training.Build | backend/predictions/training.py:53-126 | the loop, then the `X.shape[1]` access, returns exactly `Assemble` over the selected games: an IndexError when no row was built |
| Training.AddGame | backend/predictions/training.py:88-105 | one iteration's effect on the lists and the skip counter |
| Training.TrainTestSplitBySeason | backend/predictions/training.py:152-155 | the test list is [test_season]; each season occurs in the training list exactly as often as in the input when it is < test_season, and not at all otherwise |
| Training.SplitAppend | backend/predictions/training.py:152 | the comprehension keeps the input order: the training list of a concatenation is the concatenation of the training lists |
| Training.SplitSingle | backend/predictions/training.py:152 | one season alone is kept iff it is < test_season |
| Training.SplitAllLater | backend/predictions/training.py:152 | no season below the test season gives an empty training list |
| Training.SplitIsPrefix | backend/predictions/training.py:152 | on ascending seasons the training list is the prefix before the first season ≥ test_season |
| Training.SplitExample | backend/predictions/training.py:143-155 | [2020..2024] split at 2024 gives [2020..2023] and [2024] |
| Registry.Blank | backend/predictions/models.py:33-63 | a new row is inactive, with 0 samples, 0.0 metrics, no seasons and blank paths |
| Registry.Deactivated | backend/predictions/models.py:77 | `update(is_active=False)` keeps every row and clears only its flag |
| Registry.Activated | backend/predictions/models.py:72-79 | the table after `activate` holds the old keys and the activated one |
| Registry.ActivatedExactlyOne | backend/predictions/models.py:72-79 | after `activate` the activated version is the only active one |
| Registry.ActivateChangesOnlyFlags | backend/predictions/models.py:72-79 | activating a stored row changes no key and no field except `is_active` |
| Registry.ActivateIdempotent | backend/predictions/models.py:72-79 | activating twice leaves the table as activating once |
| Registry.InsertInactive | backend/predictions/models.py:61-63 | inserting an inactive row leaves the set of active versions unchanged |
| Registry.VersionRegistry.Create | backend/predictions/models.py:30 | `create` inserts iff the version (the primary key) is new and changes nothing otherwise; an inactive insert keeps at most one version active |
| Registry.VersionRegistry.Activate | backend/predictions/models.py:72-79 | the table becomes `Activated`, with exactly the activated version active |
| TrainCommand.SeasonRange | backend/predictions/management/commands/train_model.py:91 | `range(start, end + 1)`: end − start + 1 consecutive seasons from start |
| TrainCommand.SeasonRangeMembers | backend/predictions/management/commands/train_model.py:91 | a season is trained on iff start ≤ season ≤ end |
| TrainCommand.ChooseVersion | backend/predictions/management/commands/train_model.py:73 | a given, non-empty version is used, otherwise the timestamp stamp |
| TrainCommand.VersionRecord | backend/predictions/management/commands/train_model.py:134-144 | the created row carries the version, creation time, seasons, sample count, three metrics and three paths it is given, and is inactive |
| TrainCommand.Planned | backend/predictions/management/commands/train_model.py:67-155 | a run always starts by building the dataset; it completes iff the build succeeded with ≥ 100 rows under a version not yet recorded, and stops at the duplicate version iff the version was already recorded |
| TrainCommand.AbortsChangeNothing | backend/predictions/management/commands/train_model.py:94-107 | for the result of `build()`: the run ends at the build iff the build failed; it ends at the sample check iff fewer than 100 rows were built; every early end leaves the table unchanged, and the first two leave only the build step |
| TrainCommand.EmptyBuildEndsAtBuild | backend/predictions/management/commands/train_model.py:94-107 | with `build()` raising on zero rows, the sample check only ever sees 1 to 99 rows, and a loop that built no row ends the run at the build with only the build step |
| TrainCommand.RecordFollowsSave | backend/predictions/management/commands/train_model.py:109-144 | a version is recorded only as the fourth step, after training on ≥ 100 rows and saving under that version |
| TrainCommand.TrainedRecord | backend/predictions/management/commands/train_model.py:134-155 | a completed run stores len(X), the seasons, the three metrics, the three paths and the creation time under the new version; the version is active, and the only active one, iff `--activate` is given; with it the old rows only lose their flag, without it they are unchanged |
| TrainCommand.Handle | backend/predictions/management/commands/train_model.py:67-155 | the command's steps, outcome and resulting table are `Planned` for the dataset `Build` assembles; the table invariant is kept |
| TrainCommand.AfterBuild | backend/predictions/management/commands/train_model.py:94-155 | the steps after the build, using the registry's `Create` and `Activate` |
| DraftRules.PlaceInRound | backend/draft/models.py:33 | the position within the round lies in 0..n−1 |
| DraftRules.TotalPicks | backend/draft/models.py:26-27 | `num_teams * num_rounds` is the last pick of the last round: it lies in round num_rounds and the next pick in round num_rounds + 1 |
| DraftRules.RoundOf | backend/draft/views.py:80 | `(pick − 1) // n + 1` is the round r with (r − 1)·n < pick ≤ r·n |
| DraftRules.TeamForPick | backend/draft/models.py:30-37 | the team for any pick lies in 1..num_teams |
| DraftRules.PickAtInverse | backend/draft/models.py:32-33 | pick (r−1)·n + k + 1 is in round r at position k |
| DraftRules.SnakeOrder | backend/draft/models.py:32-37 | the k-th pick of an odd round goes to team k+1; of an even round, to team n−k |
| DraftRules.PickOfTeam | backend/draft/models.py:30-37 | every team owns a pick in every round (the inverse of `get_team_for_pick` within a round) |
| DraftRules.RoundInjective | backend/draft/models.py:30-37 | two picks of one round owned by the same team are the same pick |
| DraftRules.RoundIsPermutation | backend/draft/models.py:30-37 | a round's n picks go to n distinct teams, which are exactly teams 1..n |
| DraftRules.SnakeTurn | backend/draft/models.py:31-37 | the last pick of round r and the first pick of round r+1 go to the same team |
| DraftRules.ConsecutivePicks | backend/draft/models.py:30-37 | with ≥ 2 teams, a team owns two consecutive picks iff the first ends its round |
| DraftRules.PicksWithinRounds | backend/draft/models.py:26-32 | 1 ≤ pick ≤ total_picks iff the pick's round lies in 1..num_rounds |
| DraftSessions.PickVerdict | backend/draft/views.py:58-88 | the guards in order: not active; missing or 0 player id; not the user's turn (turn iff team-for-pick = user position); unknown player (iff the earlier guards pass and the id is not a player); already drafted (iff the earlier guards pass, the player exists and is drafted). A pick is made iff all pass, recorded at the current pick with round (p−1)//n+1, the user's team (which owns that pick) and is_user |
| DraftSessions.DraftSession.constructor | backend/draft/views.py:29-35 | a created session is active at pick 1 of round 1 with no picks, and carries its configuration |
| DraftSessions.DraftSession.MakePick | backend/draft/views.py:58-92 | a refused pick changes nothing; a pick is appended, current_pick goes up by exactly 1, and current_round is recomputed from it; uniqueness and snake order of the picks are kept |
| DraftSessions.RecordKeepsUnique | backend/draft/models.py:53 | a pick at the counter for an undrafted player keeps both uniqueness constraints, (session, overall_pick) and (session, player) |
| DraftSessions.CreateSession | backend/draft/views.py:16-35 | no session is created iff the position lies outside 1..num_teams; the defaults are 10 teams, 15 rounds, position 1 and PPR |
| DraftSessions.MakePickRequest | backend/draft/views.py:51-92 | a missing session gives 404; otherwise it answers as `PickVerdict`, and the stored session keeps its status and validity, gains the recorded pick and advances its counter by one exactly when a pick is made, with the round recomputed from the counter |
| TeamRecord.MaxSeason | backend/api/serializers.py:24-25 | the latest season in a non-empty store |
| TeamRecord.ResolveSeason | backend/api/serializers.py:22-25 | a given non-zero season is used; otherwise the latest season in the store, or 2024 when it is empty |
| TeamRecord.CountedGames | backend/api/serializers.py:28-38 | a game counts iff it involves the team, is in the season and has both scores, and, in simulation mode, has week < simulation_week |
| TeamRecord.OutcomesMirror | backend/api/serializers.py:44-60 | judged from the two sides, a win is the other side's loss and a tie is a tie |
| TeamRecord.Tally | backend/api/serializers.py:40-60 | wins + losses + ties = number of games counted |
| TeamRecord.TallyCounts | backend/api/serializers.py:44-60 | each counter equals the number of counted games with that outcome from the team's side |
| TeamRecord.RecordCoversCounted | backend/api/serializers.py:40-60 | for the serializer's game selection, each counted game adds to exactly one counter |
| TeamRecord.NatToString | backend/api/serializers.py:63-64 | a count is written as a non-empty run of digits |
| TeamRecord.ParseNatToString | backend/api/serializers.py:63-64 | the written digits read back as the count |
| TeamRecord.FormatRecordRoundTrip | backend/api/serializers.py:62-64 | the record string reads back as the three counts, and it has three fields iff ties > 0 ("W-L-T"), otherwise two ("W-L") |
| TeamRecord.GetRecord | backend/api/serializers.py:20-64 | the counting loop returns the formatted tally of the counted games |

## Left out

- Floating point. `np.float32` and Django's float averages are exact `real`s here, so rounding is not modelled.
- Printing and progress output: `print`, `tqdm` and the command's stdout reporting.
- Training itself. `GamePredictionModel` (train, save) and `get_feature_importance` are outside the model. Their results are parameters (`Metrics`, `SavedPaths`). The feature-importance display changes no state.
- `DraftAI.auto_pick_until_user`, whose source is not part of this model. Sessions are modelled as the user's endpoint leaves them, before the AI's turns, and so is the `completed` status the AI would set.
- The clock. The timestamp used as the default version string and `created_at` are parameters (`stamp`, `now`).
- Request parsing. `int(...)` conversion failures in `create_session`, and the HTTP response bodies beyond which answer is given.
- `activate` is two statements that a concurrent reader could observe half done. The model runs them in sequence.
- The draft board and the other read-only endpoints of the draft view set.
- TrainCommand.Handle: a negative `--num-games` is not modelled (`numGames` is a `nat`). Python slicing with a negative bound would drop games from the end instead.
- DraftSessions.DraftSession.MakePick: requires a valid session, one made by `create_session`. A session with fewer than one team, which only direct database edits can produce, would make the source divide by zero.
- Training.Build: the skip counter `Dataset.skipped` is returned alongside the four lists so the count can be stated. The source only prints it.
- Features.GameFeatures: uses the corrected trend scan (see Findings), not the scan as written, so its trend slots and its NULL-score failures follow `Scan`.
- Features.Trend: computes the corrected scan `Scan`, not the scan as written (`ScanAsWritten`, reached through `ExtractTrendFeaturesAsWritten`); on [W, L, W, W, W] it gives win_pct 0.8 where the source gives 0.2.
- Features.ExtractTrendFeatures: the corrected loop; it differs from the source's loop as `Trend` does.
- Features.BuildGameFeatures: calls the corrected trend extraction, as `GameFeatures` does.
- Features.TeamFeaturesAgree: its trend group is the corrected one.
- Features.NoLeakage: proved for the vector with the corrected trend group, not for the scan as written; and its premise `AgreeBefore` asks the two stores to list their past games in the same order, since equally dated games are taken in store order.
- Features.Recent: games with equal dates are taken in store order; SQL leaves their order unspecified, so with ties the source may select a different, equally new game.
- Training.SelectedGames: games with equal dates keep their store order; SQL leaves that order unspecified.
- Features.RecentAgrees: two stores are assumed to order equally dated games alike (by store order), which SQL does not promise.
- Training.Build: the feature rows come from the corrected trend scan, as in `GameFeatures`.
- TrainCommand.Handle: builds through `Training.Build`, so the trained rows carry the corrected trend features.

## Findings

| source | as written | input that shows it | evidently intended | confidence | as-written member | corrected member |
|---|---|---|---|---|---|---|
| backend/predictions/features.py:240-258 | the `break` that ends the streak also ends the loop that counts `wins`, so `recent_win_pct` counts only the wins within the current streak | the newest five results [W, L, W, W, W] give win_pct 1/5 = 0.2 | win_pct is the share of wins among all selected games (0.8 here); only the streak stops at the first break | medium, not executed | Features.ScanAsWrittenUndercountsWins | Features.Scan |
