# Football Elo prediction engine, modelled in Dafny

The system rates football teams with an Elo-style rule and uses the ratings to
predict matches and to simulate the rest of a season. The repository holds two
generations of the same ideas, and the model keeps each file's own formulas.

- **The older scripts at the top level.**
  - `ELO_system.py` rates teams from JSON fixtures. Its update scores raw goal counts. It has a three-way match probability with a draw constant, the "form" of a team (the mean of its last five rating gains), and a points simulation of the remaining fixtures against per-mille thresholds.
  - `test.py` is a stand-alone trainer. It scores matches 1/0.5/0 with k = 20.
  - `helper.py` computes the share of draws, the current table keyed by upper-cased name, and the rank aggregation.
- **The newer `src/` package.**
  - `src/elo_system.py` holds the `EloRatingSystem` class. It has league-dependent starting ratings, a decayed and league-weighted update, gain windows of three matches with a logarithmically weighted form, and a blended probability.
  - `src/sim.py` holds the `Simulator` that runs N trials on private copies of the engine's state.
  - `src/helper.py` covers match verdicts, decay, and rank aggregation with positions 1..16 filled in.
  - `src/data_manager.py` does the grouping of database rows into season/round buckets, the head-to-head adjustment and the home/away strength counting.

The Dafny model has one module per source file: `LegacyElo`, `LegacyTrainer`, `LegacyHelper`, `EloSystem`, `Sim`, `Helper` and `DataManager`. Four shared modules sit beside them:

- `Wrappers` has `Option` and `Result`. Python exceptions become `Err(KeyError)`, `Err(TypeError)` or `Err(ZeroDivisionError)`.
- `Numerics` has the transcendentals, rounding, upper-casing and sums.
- `Fixtures` has the season → round → match collections.
- `Standings` has the league table.

How the Python maps to Dafny:

- A Python dict in insertion order becomes a sequence of labelled entries.
- Ratings are exact `real`s.
- Dates become day numbers, as `date.toordinal()` gives them.
- `10**x`, `math.exp` and `math.log` are the fields of a `Transcendentals` value, passed in as a parameter. `Lawful(tm)` constrains it with exactly the laws the proofs use: positivity, `10^x · 10^-x = 1`, and `ln` increasing and positive above 1.
- The parts that change state follow the source's own form:
  - the `EloRatingSystem` and `Simulator` classes have fields and `modifies` clauses;
  - the loop functions become methods with loops, each proved equal to a specification function;
  - the properties are proved about those functions.

## Model

| member | source | states |
|---|---|---|
| LegacyElo.FindFractionOfHomeWins | ELO_system.py:7-37 | keys are exactly the teams that played at home; each value is that team's home wins over its home games, lies in [0, 1], and is 0 when it never won at home |
| LegacyElo.CountHomeGames | ELO_system.py:12-28 | after the loop the game counter holds every home team's number of home games, and the win counter (absent meaning 0) its home wins |
| LegacyElo.HomeCountedStep | ELO_system.py:15-28 | one pass of the loop raises the home team's game count by one and its win count by one exactly on a home win, so the counters keep matching the games visited |
| LegacyElo.HomeFractions | ELO_system.py:31-35 | every counted team gets wins / games, with games > 0 |
| LegacyElo.FindFractionOfAwayWins | ELO_system.py:39-70 | the same for away games: keys are the away teams, values are away wins over away games in [0, 1], 0 without a win |
| LegacyElo.CountAwayGames | ELO_system.py:44-61 | after the loop the counters hold each away team's away games and away wins |
| LegacyElo.AwayCountedStep | ELO_system.py:47-61 | one pass of the loop raises the away team's game count by one and its win count by one exactly on an away win |
| LegacyElo.AwayFractions | ELO_system.py:64-68 | every counted team gets wins / games, with games > 0 |
| LegacyElo.TeamsSnoc | ELO_system.py:15-19 | one more match adds exactly its home team to the home teams and its away team to the away teams |
| LegacyElo.UpdateRating | ELO_system.py:82-84 | with a positive k the rating rises exactly when the actual score beats the expectation and falls exactly when it falls short; it is unchanged when they are equal |
| LegacyElo.Advantages | ELO_system.py:104-110 | hfa becomes (3h − a)/2 and afa becomes (7a − 3h)/4 for the scaled strengths h and a, because afa is pushed away from the already adjusted hfa; equal strengths leave both at 100 × strength |
| LegacyElo.GoalScores | ELO_system.py:116-125 | the actual home score is the larger goal count and the actual away score the smaller one, whoever scored them |
| LegacyElo.GameRatings | ELO_system.py:86-133 | the ratings after a match rate the old teams plus the two match teams, and every other team keeps its rating |
| LegacyElo.ProcessGame | ELO_system.py:86-133 | the in-place update of team_ratings yields exactly GameRatings of the old map |
| LegacyElo.UnseenTeamsStartAt1500 | ELO_system.py:96-98 | an unrated team plays exactly as if it had been entered at 1500 |
| LegacyElo.SeededUpdate | ELO_system.py:96-98 | once both match teams are overwritten, a map and its seeded copy give the same result |
| LegacyElo.DecidedMatchFavoursHomeSide | ELO_system.py:117-129 | with k > 0 the home side gains from every decided match, even one it lost, and a side credited with 0 goals loses rating, even when it won |
| LegacyElo.Denominator | ELO_system.py:176 | the shared denominator exceeds the draw constant K = 0.22 |
| LegacyElo.CalculateMatchProbabilities | ELO_system.py:170-186 | home, draw and away add up to 1, each lies strictly between 0 and 1, and the draw is K over the denominator |
| LegacyElo.ProbabilitiesSwap | ELO_system.py:171-180 | negating delta_R swaps the home and away probabilities and keeps the draw |
| LegacyElo.Last5 | ELO_system.py:197 | what a deque(maxlen=5) fed with a sequence holds: all of it when it has at most 5 elements, else its last 5 |
| LegacyElo.Push | ELO_system.py:222-223 | an append to a window ends with the new gain |
| LegacyElo.PushLast5 | ELO_system.py:222-223 | appending to the window of xs gives the window of xs + [x], so the deque always holds the latest five gains |
| LegacyElo.Mean | ELO_system.py:226-229 | an empty window has form 0 |
| LegacyElo.MeanWithin | ELO_system.py:228 | the mean of gains each within ±b is within ±b |
| LegacyElo.EloRaterRatesAsProcessGame | ELO_system.py:86-133 | the rating-update function value used by the loops is process_game at every input |
| LegacyElo.RateFacts | ELO_system.py:96-133 | any admissible rating update keeps the old keys, adds the two teams, and leaves every other rating alone |
| LegacyElo.InitializeTeamRatings | ELO_system.py:72-74 | the starting map is empty, whatever initial rating is given |
| LegacyElo.TrainedTeams | ELO_system.py:140-161 | training rates exactly the starting teams plus the teams of the games, and a team without a game keeps its rating |
| LegacyElo.TrainedAppend | ELO_system.py:140-161 | training on a + b is training on a, then on b from where a left off, which is why the nested season/round/match loops equal one loop over all matches |
| LegacyElo.ProcessRound | ELO_system.py:140-143 | the ratings after a round are the ratings after its games, one after the other |
| LegacyElo.ProcessYear | ELO_system.py:145-149 | the ratings after a season are the ratings after all its rounds' games in order |
| LegacyElo.RunEloRatingSystem | ELO_system.py:151-167 | the result is the training of the empty map on every match with k passed down, and it rates exactly the teams of the fixtures |
| LegacyElo.FormStep | ELO_system.py:201-223 | one match of calculate_form succeeds exactly when both teams are rated already; otherwise KeyError |
| LegacyElo.FormStepKeys | ELO_system.py:211-223 | a match adds no rated team and gives both of its teams a gain history |
| LegacyElo.FormAfterKeys | ELO_system.py:199-223 | the run succeeds exactly when every team of every match is in the ratings, fails only with KeyError, and rates the same teams throughout |
| LegacyElo.FormOfKeys | ELO_system.py:189-234 | calculate_form succeeds exactly when every match team is in team_elo.json, fails only with KeyError, and gives a form to exactly those teams |
| LegacyElo.FormErrorPersists | ELO_system.py:199-223 | once a match raises, the whole run raises that error |
| LegacyElo.GainsTelescope | ELO_system.py:205-220 | each gain is measured against the previous post-match rating, so a team's gains add up to its total rating change (matches of a team against itself excluded) |
| LegacyElo.StepTelescope | ELO_system.py:216-223 | one match adds to a team's gains exactly its rating change |
| LegacyElo.RecordedGains | ELO_system.py:222-223 | the home gain goes to the home team's history, the away gain to the away team's, and no other history changes |
| LegacyElo.CalculateForm | ELO_system.py:189-234 | the loop's result is the specification FormOf: mean of the last five gains per team, or KeyError |
| LegacyElo.FormLoop | ELO_system.py:194-229 | init_elos always equals the ratings, every deque holds its team's last five gains, and the result is their mean per team |
| LegacyElo.FormLoopStep | ELO_system.py:211-223 | one pass with both teams rated keeps the loop invariant: the state is the specification's next one, init_elos equals the ratings and every deque holds its team's last five gains |
| LegacyElo.RateMatch | ELO_system.py:211 | a process_game call is the rating update the loops are stated with |
| LegacyElo.CopyCaughtUp | ELO_system.py:219-220 | the copy that takes the two new ratings equals the ratings after the match |
| LegacyElo.FormMeans | ELO_system.py:226-229 | the final loop gives each team of team_elo.json the mean of its window |
| LegacyElo.FormAfterNext | ELO_system.py:211-223 | one more loop pass is the specification's next step |
| LegacyElo.PushFormRecords | ELO_system.py:222-223 | after both appends every deque still holds the last five gains of its team, for the same set of teams |
| LegacyElo.StrengthAdvantage | ELO_system.py:279 | the home advantage exceeds the home strength by half the strength difference |
| LegacyElo.PerMille | ELO_system.py:282-284 | round(p · 1000) is within 0.5 of p · 1000, and in 0..1000 for p in (0, 1) |
| LegacyElo.PerMilleIntervals | ELO_system.py:290-299 | the thresholds cut the random number's range into consecutive intervals: home below the home threshold, then probDraw numbers of draws, then away |
| LegacyElo.PerMilleMonotone | ELO_system.py:290-299 | a larger random number never gives an earlier outcome in Home, Draw, Away order |
| LegacyElo.SimProbabilities | ELO_system.py:275-281 | the probabilities of a future match, with form added to the ratings, add up to 1 |
| LegacyElo.SimStep | ELO_system.py:273-299 | a simulated match fails only with KeyError; otherwise it keeps the table's teams and order, lowers no tally, and hands out 2 or 3 points |
| LegacyElo.Tallies | ELO_system.py:290-299 | every admissible simulated-match function has SimStep's guarantees |
| LegacyElo.SimTallierTalliesAsSimStep | ELO_system.py:273-299 | the match function used by the loops is SimStep at every input |
| LegacyElo.SimTrial | ELO_system.py:270-299 | a trial over n matches fails only with KeyError, and otherwise adds between 2n and 3n points without lowering a tally or changing the teams |
| LegacyElo.SimTrialErrorPersists | ELO_system.py:270-299 | once a match raises, the trial raises that error |
| LegacyElo.Simulations | ELO_system.py:266-302 | N trials succeed together, the list has N tables, and entry t is trial t on a fresh table |
| LegacyElo.SimulationsErrorPersists | ELO_system.py:266-302 | once a trial raises, the simulation raises that error |
| LegacyElo.SimulateGamesTallies | ELO_system.py:259-306 | simulate_games records N tallies, each starting from the current table, keeping its teams and order, and adding 2 to 3 points per future match |
| LegacyElo.PlayMatches | ELO_system.py:270-299 | the match loop of one trial computes the specification trial |
| LegacyElo.PlayTallied | ELO_system.py:273-299 | a PlayMatch call is the match function the trials are stated with |
| LegacyElo.PlayMatch | ELO_system.py:273-299 | the body of the match loop, including its KeyError exits, computes SimStep |
| LegacyElo.SimulateGames | ELO_system.py:259-306 | the result is the form computed once and then N specification trials; a form failure is the result |
| LegacyElo.CalculateSpecificGame | ELO_system.py:309-329 | a missing strength is a TypeError, then a form failure is the result, then a team missing from the ratings is a KeyError; otherwise the probabilities of the two rated teams with their form added |
| LegacyElo.SpecificGameWithForm | ELO_system.py:320-323 | with a form for exactly the rated teams, the probabilities of the two form-adjusted ratings, or KeyError |
| LegacyTrainer.MatchScores | test.py:46-55 | the actual scores are 1/0, 0/1 or 0.5/0.5 exactly by the goal comparison, and add up to 1 |
| LegacyTrainer.GameRatings | test.py:18-63 | the ratings after a match rate the old teams plus the two match teams, and every other team keeps its rating |
| LegacyTrainer.ProcessGame | test.py:18-63 | the in-place update yields exactly GameRatings of the old map |
| LegacyTrainer.UnseenTeamsStartAt1500 | test.py:27-30 | an unrated team plays exactly as if it had been entered at 1500 |
| LegacyTrainer.NoAdvantageZeroSum | test.py:37-59 | with hfa = afa = 0 the two independently computed expectations add up to 1, and the two gains cancel |
| LegacyTrainer.TrainerRaterRatesAsProcessGame | test.py:18-63 | the rating-update function value used by the loops is process_game at every input |
| LegacyTrainer.ProcessRound | test.py:70-73 | the ratings after a round are the ratings after its games in order |
| LegacyTrainer.ProcessYear | test.py:75-79 | the ratings after a season are the ratings after all its rounds' games in order |
| LegacyTrainer.RunEloRatingSystem | test.py:81-97 | training starts from the empty map and runs over every season, round and match in order; the final keys are exactly the teams of the fixtures |
| LegacyHelper.PercentageOfDraws | helper.py:19-32 | with no match the division raises ZeroDivisionError; otherwise the result is draws over matches, in [0, 1] |
| LegacyHelper.Put | helper.py:39 | a dict store keeps an existing key in place with its new value or appends a new key; every other key keeps its points |
| LegacyHelper.PutSameKeys | helper.py:39 | overwriting an existing key keeps every key and its position |
| LegacyHelper.PutAppends | helper.py:39 | a new key goes to the end and earlier keys keep their points |
| LegacyHelper.GetTable | helper.py:35-41 | the loop builds the table of the upper-cased names in first-appearance order, each once |
| LegacyHelper.TableOfKeys | helper.py:38-39 | the table's keys are exactly the upper-cased names, distinct and all in upper case |
| LegacyHelper.LastEntryWins | helper.py:38-39 | the points under a name are those of its last entry, because a later duplicate overwrites an earlier one |
| LegacyHelper.AnalyzeSimulations | helper.py:44-60 | each team seen gets, for exactly the positions it reached, the percentage count / total · 100; unreached positions are absent |
| Helper.DetermineResult | src/helper.py:8-19 | "NaN" exactly when the status is not "FT"; otherwise True, False or None exactly as the winner flag is true, false or null |
| Helper.GetMatchResult | src/helper.py:83-104 | +1, −1 or 0 by the sign of the team's goal difference, and 0 when the team did not play |
| Helper.MatchResultAntisymmetric | src/helper.py:90-104 | between two distinct teams the home result is minus the away result |
| Helper.DecayDays | src/helper.py:108-111 | the elapsed days are at least 1 and at least the distance from the reference date (2024-12-10 or today) |
| Helper.GetDecayFactor | src/helper.py:108-112 | k / ln(days + 10) is positive for k > 0 and 0 for k = 0 |
| Helper.FixedReferenceIgnoresToday | src/helper.py:110 | with the fixed reference date the factor does not depend on the current date |
| Helper.MaxDecay | src/helper.py:111-112 | k / ln 11 is non-negative for k ≥ 0 |
| Helper.DecayFactorBounded | src/helper.py:111-112 | no decay factor exceeds k / ln 11, the value for games at most a day old |
| Helper.DecayNonIncreasingWithAge | src/helper.py:108-112 | an older game never gets a larger decay factor than a newer one |
| Helper.Increment | src/helper.py:67 | the nested defaultdict counter of (team, position) rises by exactly one and nothing else changes |
| Helper.CountOne | src/helper.py:65-67 | enumerating one sorted simulation counts each of its teams once, at its position |
| Helper.CountAll | src/helper.py:63-67 | the counters hold, for every team and position, the number of simulations placing the team there |
| Helper.Percentages | src/helper.py:69-73 | each team's counted positions become count / total · 100 |
| Helper.FillAll | src/helper.py:75-79 | every team's row has positions 1..16 filled in with 0.0 where missing, and keeps its other entries |
| Helper.FilledRow | src/helper.py:69-79 | a finished row has a position exactly when it was reached or lies in 1..16, with the count's percentage as its value |
| Helper.AnalyzeSimulations | src/helper.py:58-81 | each team seen gets the percentage of simulations placing it at each position, with positions 1..16 always present |
| Standings.AddPoints | src/sim.py:57-66 | `team_points[team] += pts` raises one entry by pts, keeps every other entry and the order, and adds pts to the total |
| Standings.PositionInRange | src/helper.py:65-67 | a position of the stable descending sort lies in 1..n |
| Standings.AheadGetsSmallerPosition | src/helper.py:65-67 | an entry sorted ahead of another gets a strictly smaller position |
| Standings.MorePointsFinishHigher | src/helper.py:65-67 | a team with strictly more points finishes above the other |
| Standings.TiesKeepInsertionOrder | helper.py:50-51 | on equal points the sort keeps dict insertion order, even with reverse=True |
| Standings.PositionsDistinct | src/helper.py:65-67 | distinct entries get distinct positions |
| Standings.CountsCoverAppearances | src/helper.py:63-67 | a team's counts over positions 1..m add up to the number of simulations in which it appears |
| Standings.PercentagesSumToHundred | src/helper.py:69-73 | a team present in every simulation has position percentages summing to exactly 100 |
| DataManager.AppendToRound | src/data_manager.py:102-111 | appending to one season's round bucket creates the round if needed and adds the match to that bucket only |
| DataManager.AppendToBucket | src/data_manager.py:99-111 | the nested setdefault/append adds the match to exactly its (season, round) bucket, adds a season only when new, and keeps the order of the seasons |
| DataManager.GetFixtures | src/data_manager.py:95-111 | each bucket holds exactly the matches of the rows with its labels, in query order; the seasons are the distinct season labels in first-appearance order, each season's rounds the distinct round labels of its rows in first-appearance order, and no season or round is empty |
| DataManager.GroupedStep | src/data_manager.py:98-111 | handling one more row keeps the buckets equal to the rows seen so far and the seasons and rounds in their order of first appearance |
| DataManager.AppendToRoundInOrder | src/data_manager.py:102-104 | inserting a round label keeps the rounds in first-appearance order of the labels, none of them empty |
| DataManager.AppendToBucketInOrder | src/data_manager.py:99-104 | inserting one more row keeps the seasons and the rounds of every season in first-appearance order |
| DataManager.NewSeasonInOrder | src/data_manager.py:100-101 | a row with a new season label appends that season, with its one round, at the end |
| DataManager.SameSeasonInOrder | src/data_manager.py:100-104 | a row of a season already present leaves the season order alone and only that season's rounds change |
| DataManager.OtherSeasonInOrder | src/data_manager.py:99-104 | a row leaves the rounds, and their labels, of every other season as they were |
| DataManager.NoRoundLabels | src/data_manager.py:99-103 | a season no row names has no round |
| Fixtures.DistinctMembers | src/data_manager.py:100-101 | a dict into which strings are inserted one after another has exactly those strings as keys |
| Fixtures.DistinctUnique | src/data_manager.py:100-101 | such a dict lists no key twice |
| Fixtures.DistinctSnoc | src/data_manager.py:100-101 | inserting one more string appends it to the keys exactly when it is new |
| DataManager.GetFutureMatches | src/data_manager.py:62-78 | there is exactly one season, "2025", present even without rows; each round bucket holds its rows in query order, and the rounds are the distinct round labels in first-appearance order, none of them empty |
| DataManager.FutureGroupedStep | src/data_manager.py:65-78 | handling one more future row keeps the "2025" buckets equal to the rows seen so far and the rounds in first-appearance order |
| DataManager.FutureRows | src/data_manager.py:66-69 | each future row is labelled with season "2025" and its own round |
| DataManager.RowInOwnBucket | src/data_manager.py:99-111 | every row lands in the bucket of its own season and round |
| DataManager.GetGamesBetweenTeams | src/data_manager.py:130-136 | a game is selected exactly when it is between the two teams in either orientation |
| DataManager.GamesBetweenNewestFirst | src/data_manager.py:134 | the selection keeps the newest-first order |
| DataManager.GamesBetweenSymmetric | src/data_manager.py:130-136 | either orientation of the pair selects the same games in the same order |
| DataManager.SignedIsProduct | src/data_manager.py:177 | the linear case split of result · decay equals the product |
| DataManager.DecayedResults | src/data_manager.py:174-177 | one decayed result per game, in order: the match result from the team's side times the game's decay factor |
| DataManager.GetH2hAdjustment | src/data_manager.py:154-182 | the adjustment is the mean decayed result of the selected games times h2h_factor, and 0 when the two teams share no game |
| DataManager.SumDecayedResults | src/data_manager.py:172-177 | the accumulated h2h_score is the sum of the decayed results |
| DataManager.H2hAdjustmentIsMean | src/data_manager.py:179-182 | with games, the adjustment is (sum / count) · h2h_factor |
| DataManager.NoSharedGames | src/data_manager.py:167-170 | without a shared game the selection is empty |
| DataManager.DecayedResultBounded | src/data_manager.py:175-177 | one decayed result lies within ±k / ln 11 |
| DataManager.DecayedResultsBounded | src/data_manager.py:172-177 | n decayed results sum to at most n · k / ln 11 in absolute value |
| DataManager.H2hAdjustmentBounded | src/data_manager.py:172-182 | the adjustment is at most \|h2h_factor\| · k / ln 11 in absolute value |
| DataManager.DecayedResultsNegated | src/data_manager.py:175 | from the other team's side, the decayed results of games between the two sum to the opposite |
| DataManager.H2hAdjustmentNegated | src/data_manager.py:179-182 | from the other team's side, the adjustment over games between the two is the opposite |
| DataManager.H2hAdjustmentAntisymmetric | src/data_manager.py:130-182 | swapping home and away negates the adjustment get_h2h_adjustment computes |
| DataManager.SetDefault | src/data_manager.py:201-204 | setdefault makes the key present and changes no count |
| DataManager.HomeTalliedStep | src/data_manager.py:201-210 | counting one more match keeps the home counters equal to the home games and home wins visited |
| DataManager.AwayTalliedStep | src/data_manager.py:202-212 | counting one more match keeps the away counters equal to the away games and away wins visited |
| DataManager.DrawsCountForNeither | src/data_manager.py:209-212 | a draw adds a game but no win to either side |
| DataManager.CountMatch | src/data_manager.py:198-212 | the loop body keeps all four counters in step with the matches visited |
| DataManager.StrengthsOfTally | src/data_manager.py:214-221 | from a full tally, each strength is wins over games, at least one game, in [0, 1], for exactly the teams that played at home (away) |
| DataManager.SetStrength | src/data_manager.py:184-221 | home (away) strength is home (away) wins over home (away) matches across all fixtures, in [0, 1], for every team that played at home (away) |
| EloSystem.ExpectedScore | src/elo_system.py:264-268 | the logistic expected score lies strictly between 0 and 1 |
| EloSystem.ExpectedScoreComplement | src/elo_system.py:264-268 | expected(a, b, h) + expected(b, a, −h) = 1 |
| EloSystem.UpdateRating | src/elo_system.py:82-84 | for a positive adjusted_k · decay the rating rises exactly when the team beat the expectation and falls exactly when it fell short; equal scores leave it unchanged |
| EloSystem.ActualScores | src/elo_system.py:119-131 | on whole goals the 0.12 margin gives (1, 0) exactly for a home win, (0, 1) exactly for an away win, (0.5, 0.5) exactly for a draw; they add up to 1 |
| EloSystem.HomeAdvantage | src/elo_system.py:107-111 | hfa + (hfa − afa)/2 is 150 per unit of home strength minus 50 per unit of away strength, and 100 when neither team has strengths, since missing strengths count as 1 |
| EloSystem.LeagueWeight | src/elo_system.py:27-30 | the league weight is 0.75 for league 104 and 1.0 for every other league |
| EloSystem.GameUpdate | src/elo_system.py:113-140 | both sides share adjusted_k and the decay and expected_away = 1 − expected_home, so the two gains cancel |
| EloSystem.WinnerGains | src/elo_system.py:119-140 | with a positive k-factor the winner gains rating and the loser loses it |
| EloSystem.ProcessGameRatings | src/elo_system.py:86-144 | after a game the old teams plus the two match teams are rated, and every other entry keeps its rating |
| EloSystem.Seed | src/elo_system.py:98-101 | seeding adds the team, at the initial rating when it was new, and changes nothing else |
| EloSystem.ProcessGameZeroSum | src/elo_system.py:114-144 | between two distinct teams, process_game conserves the sum of the two ratings |
| EloSystem.UnseenTeamsStartAtInitial | src/elo_system.py:98-101 | an unrated team plays exactly as if it had been inserted at initial_rating |
| EloSystem.ProcessGames | src/elo_system.py:151-158 | processing games rates the old teams plus every team of the games |
| EloSystem.ProcessGamesFrame | src/elo_system.py:151-158 | a team without a game keeps its rating |
| EloSystem.ProcessGamesAppend | src/elo_system.py:155-158 | processing a + b is processing a, then b from there, so the nested loops equal one pass over all matches |
| EloSystem.LeagueMap | src/elo_system.py:58-69 | the league map is keyed by exactly the upper-cased names of the 2024 matches, each mapped to a league of those matches |
| EloSystem.UpperNames | src/elo_system.py:65-66 | the map's keys are all upper case |
| EloSystem.BaseRating | src/elo_system.py:72-74 | a team missing from the map gets 1250 (league 105); a listed league gets its rating; an unlisted league gets initial_rating |
| EloSystem.Rebased | src/elo_system.py:72-75 | every team of the set is added at its base rating, and no other entry changes |
| EloSystem.MixedCaseNameGetsDefault | src/elo_system.py:65-73 | because the lookup does not upper-case, a name with a lower-case letter always starts at 1250, whatever league it played in |
| EloSystem.UpperCaseNameGetsLeagueRating | src/elo_system.py:58-75 | when every 2024 match is in one listed league, every upper-case team of that season starts at that league's rating |
| EloSystem.Window | src/elo_system.py:184 | what a deque(maxlen=3) fed with a sequence holds: at most 3 elements, all of them or the last 3 |
| EloSystem.BoundedAppend | src/elo_system.py:214-215 | appending to a window gives the window of the longer sequence, ending with the new gain |
| EloSystem.WindowAppend | src/elo_system.py:249-250 | feeding a window after it dropped old gains is feeding it everything, so it holds the latest three gains |
| EloSystem.AppendGains | src/elo_system.py:249-250 | the two appends keep every window capped at 3 and change only the two match teams' windows |
| EloSystem.FormWeights | src/elo_system.py:217-219 | the normalised ln(i² + 1) weights are positive, strictly increasing and add up to 1 |
| EloSystem.Padded | src/elo_system.py:228-230 | left zero-padding gives exactly 3 gains |
| EloSystem.WeightedForm | src/elo_system.py:228-233 | the form lies within the range of the padded gains, so an empty window has form 0 |
| EloSystem.SteadyForm | src/elo_system.py:232 | a full window of equal gains has exactly that gain as its form |
| EloSystem.FormOf | src/elo_system.py:224-233 | every team with a window gets a form, and 0 for an empty window |
| EloSystem.MatchGains | src/elo_system.py:203-209 | the two trial gains of a match between distinct teams cancel |
| EloSystem.TrialWindows | src/elo_system.py:194-215 | the trial windows keep the rated teams' keys and stay capped at 3 |
| EloSystem.TrialWindowsHoldLatestGains | src/elo_system.py:194-215 | each team's window is the window of everything it was fed: its starting window followed by all its trial gains |
| EloSystem.InitWindows | src/elo_system.py:184-215 | the windows built from empty ones cover exactly the rated teams, each capped at 3 |
| EloSystem.InitFormOf | src/elo_system.py:181-235 | init_form returns form and windows for exactly the rated teams; with a season of fewer than 3 rounds, zero form and empty windows for all of them |
| EloSystem.RestoreRatings | src/elo_system.py:203-212 | putting back the two entries a trial update wrote gives exactly the ratings before it |
| EloSystem.FormTerm | src/elo_system.py:168-169 | on a float form, sum() gives Ok(0.5) exactly for a falsy 0.0 form, KeyError exactly for a missing team, and TypeError otherwise |
| EloSystem.EloRatingSystem.constructor | src/elo_system.py:19-40 | the engine keeps its settings, ratings and strengths; its fixtures are get_fixtures of the match rows (buckets and order), its future matches get_future_matches of the future rows (one season "2025", buckets and order), and its form and windows are init_form's result |
| EloSystem.EloRatingSystem.InitializeTeamRatings | src/elo_system.py:43-79 | every team with strengths or a played or future match is set to its league's base rating; other ratings stay |
| EloSystem.EloRatingSystem.GatherTeams | src/elo_system.py:47-55 | the gathered set is exactly the teams with strengths, played matches or future matches |
| EloSystem.EloRatingSystem.TeamLeagueMap | src/elo_system.py:58-69 | the loop builds the league map of the 2024 season |
| EloSystem.EloRatingSystem.AssignBaseRatings | src/elo_system.py:72-75 | the loop sets every gathered team to its base rating and touches nothing else |
| EloSystem.EloRatingSystem.ProcessGame | src/elo_system.py:86-144 | team_ratings becomes ProcessGameRatings of its old value, and no other field changes |
| EloSystem.EloRatingSystem.ProcessRound | src/elo_system.py:151-153 | team_ratings becomes the old ratings processed over the games in order |
| EloSystem.EloRatingSystem.ProcessSeason | src/elo_system.py:155-158 | team_ratings becomes the old ratings processed over every match of every round of every season |
| EloSystem.EloRatingSystem.ProcessRounds | src/elo_system.py:157-158 | the inner loop processes one season's rounds in order |
| EloSystem.EloRatingSystem.RunEloRatingSystem | src/elo_system.py:160-162 | the starting ratings, then every played game in order |
| EloSystem.EloRatingSystem.CalculateMatchProbabilities | src/elo_system.py:164-179 | succeeds exactly when both form terms do (else their first error); home + away is exactly 1, home lies in [0.1495, 0.8505] and the draw is at least 0.6495 |
| EloSystem.EloRatingSystem.InitForm | src/elo_system.py:181-235 | team_ratings ends as it began, and the result is InitFormOf |
| EloSystem.EloRatingSystem.TrySeasons | src/elo_system.py:186-215 | the loop reports a short season exactly when there is one, restores the ratings, and otherwise builds the windows of every match |
| EloSystem.EloRatingSystem.TrySeason | src/elo_system.py:194-215 | one season's rounds extend the windows by that season's matches, ratings restored |
| EloSystem.EloRatingSystem.TryRound | src/elo_system.py:195-215 | one round's matches extend the windows by those matches, ratings restored |
| EloSystem.EloRatingSystem.TryMatch | src/elo_system.py:196-215 | one match (skipped when a team is unrated) extends the windows, ratings restored |
| EloSystem.EloRatingSystem.TrialGains | src/elo_system.py:203-212 | process_game, read off the two gains, put the two ratings back: team_ratings is unchanged and the gains are MatchGains |
| EloSystem.EloRatingSystem.WindowForms | src/elo_system.py:221-233 | the result is the windows and the weighted form of each |
| EloSystem.EloRatingSystem.UpdateForm | src/elo_system.py:237-262 | KeyError exactly when a team lacks a rating or a window: with a rating missing nothing changes; with a window missing the match is processed, and a missing away window leaves the home gain appended and no form recomputed; otherwise the match is processed, both gains are appended and only the two teams' form is recomputed, the windows staying capped at 3 |
| EloSystem.EloRatingSystem.PlayGame | src/elo_system.py:239-246 | KeyError, with the ratings unchanged, exactly when a team has no rating; otherwise processes the match and returns each team's rating change |
| EloSystem.EloRatingSystem.PushGains | src/elo_system.py:249-262 | KeyError exactly when a team has no window, with the home gain already appended when only the away window is missing and no form recomputed; otherwise appends the two gains and recomputes the two forms, every other window and form staying |
| EloSystem.HomeAppended | src/elo_system.py:249-250 | the windows after the home append alone: only the home window changes, to the window of its gains plus the new one |
| Sim.SimAdvantage | src/sim.py:48-50 | the simulator's advantage is 150 per unit of home strength minus 50 per unit of away strength, with missing strengths counted as 0 |
| Sim.AdvantageAgreesWithEngine | src/sim.py:15-20 | for two teams with strengths the simulator's advantage is the engine's; without strengths it is 100 lower |
| Sim.PickOutcomeMonotone | src/sim.py:56-66 | a larger draw never gives an earlier outcome in Home, Draw, Away order |
| Sim.PickOutcomeIntervals | src/sim.py:56-66 | exactly one branch fires: Home below p_home, Draw in [p_home, p_home + p_draw), Away from there on |
| Sim.OutcomeScores | src/sim.py:72-77 | the actual scores of a simulated result add up to 1 |
| Sim.OutcomeScoresAgreeWithGoals | src/sim.py:72-77 | a simulated result scores what a played game with that result scores |
| Sim.GrownTransitive | src/sim.py:57-66 | "same teams in the same order, no tally lower" is transitive |
| Sim.Tally | src/sim.py:57-66 | the points update succeeds exactly when the teams that score are in the table; otherwise KeyError |
| Sim.TallyGrows | src/sim.py:57-66 | a tallied match keeps the teams and order, lowers no tally, and adds 2 points for a draw and 3 otherwise |
| Sim.TallyAwards | src/sim.py:57-66 | the winner gets 3 points and each side gets 1 on a draw |
| Sim.RatingUpdate | src/sim.py:68-91 | the two gains of a simulated match cancel, and with a positive k-factor the winner gains and the loser drops |
| Sim.Step | src/sim.py:40-104 | one pass of the match loop fails only with KeyError |
| Sim.StepIsPlayed | src/sim.py:40-104 | a pass succeeds exactly when both teams are known and the tally finds its teams, and then it is the played match |
| Sim.PlayedFrame | src/sim.py:90-104 | a played match changes only its two teams' ratings, windows and form |
| Sim.PlayedGains | src/sim.py:85-104 | the two gains cancel, each team's window is fed its gain, and its form is the weighted form of that window |
| Sim.PlayedWinnerGains | src/sim.py:72-91 | with a positive k-factor the winner of a played match gains rating and the loser drops |
| Sim.StepFrame | src/sim.py:40-104 | a pass keeps the sets of rated, windowed and tabled teams and every other team's state |
| Sim.StepPoints | src/sim.py:57-66 | a pass adds 2 points for a draw and 3 otherwise and lowers no tally |
| Sim.StepFnProperties | src/sim.py:37-104 | the simulator's step fails only with KeyError, scores 2 or 3 points, and leaves the other teams alone |
| Sim.RunKeyErrors | src/sim.py:37-104 | a run fails only with KeyError |
| Sim.RunErrorPersists | src/sim.py:37-104 | once a match raises, the run raises that error |
| Sim.RunPoints | src/sim.py:37-104 | a completed run of n matches adds between 2n and 3n points without lowering a tally |
| Sim.RunFrame | src/sim.py:37-104 | through a completed run, a team without a match keeps its rating, window and form |
| Sim.TrialKeyErrors | src/sim.py:37-104 | a trial fails only with KeyError |
| Sim.TrialPoints | src/sim.py:37-106 | a completed trial keeps the table's teams and order and adds 2 to 3 points per match |
| Sim.TrialFrame | src/sim.py:37-104 | a team outside the future fixtures keeps its rating, window and form through a trial |
| Sim.PlayMatch | src/sim.py:40-104 | the loop body, with its KeyError exits, computes one specification step |
| Sim.TallyMatch | src/sim.py:56-66 | the draw picks the partition outcome and the table gets that outcome's points |
| Sim.UpdateTeams | src/sim.py:68-104 | the rating update, window appends and form recomputation give the played state |
| Sim.StepFnSimulates | src/sim.py:37-104 | the step function used by the loops is the simulator's step with the k-th draw |
| Sim.PlayStep | src/sim.py:39-104 | a PlayMatch call is the step the loops are stated with |
| Sim.PlayRound | src/sim.py:39-104 | the match loop of a round extends the run by that round's matches |
| Sim.PlaySeason | src/sim.py:38-104 | the round loop of a season extends the run by that season's matches |
| Sim.PlaySeasons | src/sim.py:37-104 | the season loop is one run over all future matches |
| Sim.Simulator.constructor | src/sim.py:8-20 | the engine holds get_fixtures of the match rows and get_future_matches of the future rows, with init_form's form and windows, and its ratings are then run over every played game; the strength maps are read off its team strengths |
| Sim.Simulator.SimulateSeasonOutcomeNTimes | src/sim.py:22-110 | exactly N tables are recorded, table t being trial t's final table from fresh copies of the engine's state; failure is KeyError; the engine's ratings, form and windows are unchanged |
| Sim.RecordTrials | src/sim.py:29-106 | the trial loop records exactly n tables, table t being trial t's final table; it succeeds exactly when every trial does and fails only with KeyError |
| Sim.RunTrial | src/sim.py:30-106 | trial t from private copies of the true state is the specification trial with the t-th draws |
| Sim.TrialFnRunsTrials | src/sim.py:29-106 | the trial function the loop is stated with is trial t at every t |
| Sim.Simulator.CalculateSpecificGame | src/sim.py:112-124 | ratings (default initial_rating) plus plain form (default 0); the advantage is the simulator's home/away strength advantage, the adjustment 25 times get_h2h_adjustment over the games between the two teams, and the probabilities are the model's at those two |
| Sim.Simulator.SpecificGameAdjustmentBounded | src/sim.py:120 | the reported adjustment is at most 25 · h2h_factor · k / ln 11 in absolute value |
| Sim.Simulator.SpecificGameAdjustmentAntisymmetric | src/sim.py:120 | swapping the two teams negates the head-to-head adjustment |
| Numerics.RoundHalfEven | ELO_system.py:282-284 | round() is within 0.5 of its argument and goes to the even integer on a tie |
| Numerics.Round3 | src/elo_system.py:176-178 | round(x, 3) is within 0.0005 of x |
| Numerics.Round3Complement | src/elo_system.py:176-178 | round(x, 3) + round(1 − x, 3) is exactly 1, so home + away is 1 |
| Numerics.Upper | src/elo_system.py:65-66 | str.upper() on ASCII keeps the length and upper-cases each character |
| Numerics.UpperIdempotent | helper.py:39 | upper-casing twice is upper-casing once |

## Left out

- Input and output are parameters:
  - the JSON files of the older scripts (`file.load_json_data`);
  - the SQLite queries of `src/data_manager.py` (`get_team_elos`, `get_team_strengths`, the queries in `get_fixtures`, `get_future_matches` and `get_games_between_teams`);
  - `get_table` and `percentage_of_draws` in `src/helper.py`.

  The model takes the rows the queries return, in the order they return them. The `UPDATE` statements of `set_strength`, `set_elo`, the API clients, the migrations, the Flask apps, the web front end and the scikit-learn pipeline are not part of this model.
- Console output and logging are not modelled. This covers every `print` and `logging` call, `print_rank_probability_distribution`, the sorted listings in the two `run_elo_rating_system` functions and in `initialize_team_ratings`, and the module-level call `calculate_specific_game('TROMSO', 'HAM-KAM')` at the end of `ELO_system.py`.
- Floating point is not modelled: ratings are exact reals, and rounding is exact half-even rounding. `10**x`, `math.exp` and `math.log` are parameters constrained only by `Lawful`, so no result depends on their actual values.
- `random.random()` and `random.randint(0, 999)` are parameters: the k-th match of trial t receives the draw `draws(t)(k)`. `datetime.now()` is the parameter `today`. Dates are day numbers, so `fromisoformat` is not modelled.
- `iterate_games` (`ELO_system.py:238-255`) is not modelled. It reads the key `'home_form'`, but `calculate_form` only ever writes `'Form'`, so its first future match always raises KeyError. Nothing else calls it.
- LegacyElo.CalculateForm: the form of a team is returned as the number itself, not wrapped in the one-entry dict `{'Form': value}` that `calculate_form` builds.
- LegacyElo.CalculateSpecificGame and Sim.Simulator.CalculateSpecificGame return the probabilities their source prints.
- Sim.Simulator.SimulateSeasonOutcomeNTimes returns the list of tables that `simulate_season_outcome_n_times` only prints.
- The simulator's calls at `src/sim.py:52` and `src/sim.py:80-83` do not match the engine's signatures.
  - As written, `calculate_match_probabilities` gets four arguments instead of two, and `update_rating` gets four instead of five. Each call raises TypeError on the first future match.
  - The model follows the evident intent:
    - Sim.Simulator.SimulateSeasonOutcomeNTimes: the probability model is a parameter taking the two teams, the advantage and the head-to-head adjustment, so nothing is stated about the probabilities the simulator uses beyond what it is handed;
    - Sim.RatingUpdate: the rating update uses the simulator's k-factor and the decay as `adjusted_k` and `decay_factor`.
- Sim.Simulator.CalculateSpecificGame: `calculate_match_probabilities` is the same four-argument call, modelled as the same probability-model parameter.
- `scaling_factor` (`src/elo_system.py:95`) is computed but never used. The first expected-score computation, at `src/elo_system.py:114-115`, is overwritten. The first actual-score test, at `src/elo_system.py:120-125`, is also overwritten. None of these is modelled.
- `prob_away_win` (`ELO_system.py:284`) is computed but never used, and it is not modelled.
- Numerics.Upper upper-cases only the ASCII letters a-z and leaves every other character as it is, so its result always has the length of its input. Python's `str.upper()` follows the full Unicode case tables: 'ø' becomes 'Ø', and 'ß' becomes the two letters 'SS'. Dafny strings carry no Unicode case tables, so the model does not capture them. The same restriction holds wherever names are upper-cased: LegacyHelper.GetTable (the keys of `get_table`) and EloSystem.LeagueMap (the keys of the team-league map, `src/elo_system.py:65-66`). Norwegian club names with 'Ø', 'Æ' or 'Å' written in lower case are therefore left unchanged where Python would upper-case them.
- LegacyHelper.GetTable: the table's keys are upper-cased ASCII-only, as Numerics.Upper does; non-ASCII lower-case letters in a team name are not upper-cased.
- EloSystem.LeagueMap: the map's keys are upper-cased ASCII-only, as Numerics.Upper does; non-ASCII lower-case letters in a team name are not upper-cased.
- EloSystem.ActualScores takes goals as whole numbers. On whole goals the 0.12 margin means any win; fractional goals are not modelled.
- EloSystem.EloRatingSystem.AssignBaseRatings visits the teams as a set, not in `sorted()` order. Each assignment is independent of the others, so the final map is the same.
- `get_table` in `src/helper.py` is a query. The simulator takes the table it returns as its parameter `table`, already keyed by upper-case names; its key normalisation is the one modelled by LegacyHelper.GetTable.
- `percentage_of_draws` in `src/helper.py` is a query and is not modelled. The older `helper.py` version is modelled by LegacyHelper.PercentageOfDraws.
- `DataManager(league_ids)` restricts every query to the engine's leagues. The model's rows are taken to be the rows of those leagues.
