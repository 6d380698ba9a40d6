# lol_predictor — a Dafny model of its bookkeeping core

`lol_predictor` is a League of Legends esports predictor written in Python.
Users pick the winner and score of a scheduled match. The tracker fills the
pick in once the match has a result and counts hits. A collector turns a
tournament's completed events into training records while keeping per-team
counters and recent results. A head-to-head ledger keeps a symmetric win/loss
table for every pair of teams.

This project models the integer and string bookkeeping of those three pieces:

- `wrappers.dfy` (`Wrappers`): `Option`. It stands for a JSON key that may be
  absent (`dict.get`) and for Python's `None`.
- `text.dfy` (`Text`): the Python string behaviour the code relies on:
  - `str(n)` of a count;
  - the `"a-b"` score text;
  - the ordering `sorted` uses on two ids;
  - `.lower()` on ASCII letters;
  - substring `in`.
- `seqs.dfy` (`Seqs`): the list idioms:
  - the append-in-a-loop filter (`FilterMap`) and the positions it keeps (`Kept`);
  - `[:limit]` (`Take`) and `[-n:]` (`TailSlice`);
  - counting and summing.
- `feed.dfy` (`Feed`): the shape of a schedule event as the code reads it.
- `match_predictor.dfy` (`Tracker`): `match_predictor.py`.
  - `UserPrediction`, the upcoming/result extraction, the scoring gate and
    `get_stats` are pure functions with lemmas.
  - `PredictionTracker` is a class. Its methods append to the prediction list
    or update it in place, and they are proved against those functions.
- `predictor.dfy` (`Predictor`): `predictor.py`.
  - `HeadToHead` is a class over the nested records dictionary, with the
    table operations as functions and lemmas;
  - `MatchPredictor.find_team_id` is a search loop.
- `data_collector.dfy` (`Collector`): `data_collector.py`.
  - The counters, the capped history and one iteration of the collection
    loop are functions.
  - `Records`/`StateAfter` fold that iteration over the events.
  - `DataCollector` is a class whose methods update the two dictionaries in
    place and are proved against those folds.

Every call to the esports API is replaced by the data it returns: the events
of the schedule or of the tournament are a parameter. Floating-point rates are
kept as integer pairs:
- a `Collector.Rate` is either `Default` (the 0.5 given to an unknown team) or
  `Ratio(wins, games)`;
- `Ratio(w, 0)` stands for the 0.0 of `TeamStats.win_rate`.

Behaviour the model keeps as written:

- `get_recent_results` names team 2 the winner whenever team 1's outcome is
  not `"win"`. It skips nothing, so it names team 2 even when neither team
  won (`Tracker.ResultOf`).
- A prediction can be score-exact and winner-wrong. Scores are compared as
  positional text, with no normalisation
  (`Tracker.ScoreCorrectWithoutWinnerCorrect`).
- Re-running the update scores nothing new only when every result names a
  winner code. A result whose chosen team has no `code` leaves
  `actual_winner` at `None`, so that prediction is scored and counted again
  on every run (`Tracker.MissingWinnerCodeIsRescored`).
- The collector reads a record's win rates after both teams' counters have
  taken the match, and its recent forms before the histories have
  (`Collector.RecordFor`, `Collector.FirstMatchRates`).

## Model

| member | source | states |
|---|---|---|
| Text.DecimalRoundTrip | lol_predictor/match_predictor.py:125 | reading the digits of `str(n)` back gives `n` |
| Text.ScoreTextInjective | lol_predictor/match_predictor.py:125 | two score texts `"a-b"` and `"c-d"` are equal exactly when `a == c` and `b == d` |
| Text.SortedPair | lol_predictor/predictor.py:76-77 | the key is the two ids themselves, in either order, and the first is not greater than the second in Python's string order |
| Text.StrLeTotal | lol_predictor/predictor.py:76 | any two ids are ordered one way or the other |
| Text.StrLeAntisymmetric | lol_predictor/predictor.py:76 | ids ordered both ways are equal |
| Text.SortedPairSymmetric | lol_predictor/predictor.py:76 | `(a, b)` and `(b, a)` get the same key |
| Text.SortedPairSameKey | lol_predictor/predictor.py:76 | two id pairs get the same key exactly when they are the same unordered pair |
| Text.LowerChar | lol_predictor/predictor.py:228 | an ASCII capital goes to the lower-case letter 32 code points above it; every other character is unchanged |
| Seqs.FilterMapKept | lol_predictor/match_predictor.py:59-85 | an append-if loop outputs, in order, the image of exactly the elements it accepts: output k comes from the k-th accepted position |
| Seqs.Take | lol_predictor/match_predictor.py:128 | `s[:n]` is the first `min(n, len(s))` elements of `s` |
| Seqs.TailSlice | lol_predictor/data_collector.py:210 | `s[-n:]` is the last `min(n, len(s))` elements of `s`, and all of `s` when `n` is 0 |
| Seqs.TailSliceAppend | lol_predictor/data_collector.py:208-210 | cutting to the last n entries after every append leaves the same list as cutting once at the end |
| Tracker.UpcomingOf | lol_predictor/match_predictor.py:60-83 | an event yields an upcoming entry exactly when its state is `unstarted` or `inProgress` and it has at least two teams; `teams[0]` becomes team1 and `teams[1]` team2 |
| Tracker.UpcomingExactly | lol_predictor/match_predictor.py:59-85 | the upcoming list has one entry per qualifying event and none for any other, in input order |
| Tracker.PredictionTracker.GetUpcomingMatches | lol_predictor/match_predictor.py:56-85 | the loop returns exactly that list |
| Tracker.ResultOf | lol_predictor/match_predictor.py:102-126 | an event yields a result exactly when it is `completed` with two teams; the winner code is team1's if team1's outcome is `"win"`, team2's otherwise; the score is team1's then team2's game wins, absent counts as 0 |
| Tracker.ResultWinnerAndScore | lol_predictor/match_predictor.py:111-125 | with distinct codes, the winner is team1's code exactly when team1 won; the score text equals `"a-b"` exactly when `a` and `b` are team1's and team2's game wins |
| Tracker.RecentResultsExactly | lol_predictor/match_predictor.py:102-128 | the recent results are the first `limit` completed events with two teams, in input order, and never more than `limit` |
| Tracker.PredictionTracker.GetRecentResults | lol_predictor/match_predictor.py:99-128 | the loop returns exactly those results |
| Tracker.ResultsMap | lol_predictor/match_predictor.py:152 | every entry of the results map is keyed by its own match id |
| Tracker.ResultsMapKeys | lol_predictor/match_predictor.py:152 | a match id is a key exactly when some result carries it |
| Tracker.ResultsMapLastWins | lol_predictor/match_predictor.py:152 | each match id maps to the last result that carries it |
| Tracker.ScoreOne | lol_predictor/match_predictor.py:156-161 | a prediction outside the gate (already scored, or no result for its match) is unchanged; one inside it gets the result's winner and score, with `winner_correct` true exactly when the winner equals the pick and `score_correct` exactly when the score texts are equal; the pick fields never change |
| Tracker.ScoreAll | lol_predictor/match_predictor.py:155-162 | the list after the loop has the same length and entry i is entry i scored by that step |
| Tracker.ScoreableCount | lol_predictor/match_predictor.py:154-162 | the number the gate admits is at most the number of predictions |
| Tracker.UpdateConservesCount | lol_predictor/match_predictor.py:154-168 | the scored predictions plus those the gate admits are as many after an update as before, so each counted prediction either becomes scored or stays admitted |
| Tracker.RescoredOnlyWithoutWinner | lol_predictor/match_predictor.py:156-158 | a second update with the same results admits exactly the predictions whose result has no winner code |
| Tracker.UpdateIdempotent | lol_predictor/match_predictor.py:156 | when every result has a winner code, a second update admits none and changes nothing |
| Tracker.MissingWinnerCodeIsRescored | lol_predictor/match_predictor.py:114 | a result whose chosen team has no code leaves the prediction admitted, so the second update counts it again |
| Tracker.PredictionTracker.UpdatePredictionResults | lol_predictor/match_predictor.py:149-168 | the list becomes every prediction scored against the map of the first 50 completed results of the feed, in feed order, and the returned count is the number the gate admitted |
| Tracker.GetStats | lol_predictor/match_predictor.py:170-198 | the total is the list length; completed counts the predictions with an actual winner; completed + pending is the total; the winner-correct and score-correct counts are the scored predictions marked correct on that field, hence at most completed |
| Tracker.StatsAfterNewPrediction | lol_predictor/match_predictor.py:145 | appending an unscored prediction adds one to the total and to pending and changes no other figure |
| Tracker.StatsAfterUpdate | lol_predictor/match_predictor.py:149-174 | when every result has a winner code, an update keeps the total and adds to completed exactly the number the gate admitted, which is the count the update returns |
| Tracker.ScoreCorrectWithoutWinnerCorrect | lol_predictor/match_predictor.py:160-161 | a prediction can end score-correct and winner-wrong |
| Tracker.PredictionTracker.MakePrediction | lol_predictor/match_predictor.py:130-147 | the list grows by exactly the new prediction. Its id is `pred_<count+1>_<timestamp>`, its pick fields come from the match and the arguments, and its four actual fields are `None` |
| Tracker.PredictionTracker.constructor | lol_predictor/match_predictor.py:37-42 | the tracker starts with the loaded predictions |
| Predictor.RecordSwap | lol_predictor/predictor.py:88-99 | for two distinct teams, `get_record(b, a)` is `get_record(a, b)` with its components swapped |
| Predictor.TouchedInvisible | lol_predictor/predictor.py:93 | the empty row a defaultdict read inserts changes no record |
| Predictor.AddIncrements | lol_predictor/predictor.py:74-86 | for distinct teams, `add_result(a, b, true)` adds one to `get_record(a, b).0` and leaves `.1`; with `false` it adds one to `.1` and leaves `.0` |
| Predictor.AddSelfPair | lol_predictor/predictor.py:83-84 | a team recorded against itself always gains in the first component, whatever the flag |
| Predictor.AddSwap | lol_predictor/predictor.py:76-86 | `add_result(a, b, won)` and `add_result(b, a, !won)` give the same table |
| Predictor.AddFrame | lol_predictor/predictor.py:74-86 | a result leaves the record of every other unordered pair unchanged |
| Predictor.WithResultKeepsSorted | lol_predictor/predictor.py:76-86 | every stored pair stays in sorted order |
| Predictor.ReplayCounts | lol_predictor/predictor.py:146 | after any sequence of results, the record of two distinct teams is the number of times each beat the other |
| Predictor.NeverMetIsZero | lol_predictor/predictor.py:93-94 | two teams that never met, or a team never recorded against itself, have the record (0, 0) |
| Predictor.HeadToHead.AddResult | lol_predictor/predictor.py:74-86 | the in-place update of the nested dictionary leaves the table one result gives, and keeps stored pairs sorted |
| Predictor.HeadToHead.GetRecord | lol_predictor/predictor.py:88-99 | returns the record of the pair; the only change to the table is the empty row inserted for a first-seen smaller id |
| Predictor.HeadToHead.constructor | lol_predictor/predictor.py:71-72 | the ledger starts empty |
| Predictor.MatchPredictor.constructor | lol_predictor/predictor.py:105-110 | a fresh, empty ledger and an empty name table |
| Predictor.MatchPredictor.FindTeamId | lol_predictor/predictor.py:226-232 | `None` exactly when no team name contains the query, ignoring ASCII case; otherwise the id of the first such name in dictionary order |
| Collector.StatsAfter | lol_predictor/data_collector.py:183-201 | with an empty or absent id nothing changes. Otherwise games grows by one and exactly one of wins/losses by one, and a new entry starts from the team's name and code with every other counter at 0. Identity and side counters of an old entry are kept, and all other teams are untouched |
| Collector.StatsAfterBalanced | lol_predictor/data_collector.py:189-201 | a call keeps every entry keyed by its own id with wins + losses == games |
| Collector.StatsAfterCounts | lol_predictor/data_collector.py:196-201 | seen from any one id, a call adds one game, and one win or one loss, exactly when the call is for that id |
| Collector.WinRate | lol_predictor/data_collector.py:212-216 | the default exactly when the id is absent or has no entry; otherwise that team's wins over its games |
| Collector.WinRateProper | lol_predictor/data_collector.py:29-33 | with balanced counters a team's rate never has more wins than games |
| Collector.WinRateAfterGame | lol_predictor/data_collector.py:183-216 | right after a team's match is counted, its rate is a ratio over one more game than before, with the match's win added, so never the 0.0 of a team without games |
| Collector.HistoryAfter | lol_predictor/data_collector.py:203-210 | only the history under that id changes; it becomes the pushed history, and the id is present afterwards |
| Collector.PushedKeepsLatest | lol_predictor/data_collector.py:208-210 | a pushed history has `min(len + 1, 10)` entries, ends with `"W"` or `"L"` as the match went, and before it holds the latest entries of the old history |
| Collector.HistoryAfterBounded | lol_predictor/data_collector.py:210 | every history stays at most 10 long |
| Collector.RecentFormMeaning | lol_predictor/data_collector.py:218-228 | the default exactly when the history is absent or empty; otherwise the wins among the last `min(n, len)` entries (all entries when `n` is 0) over their number, wins never above games |
| Collector.FixtureOf | lol_predictor/data_collector.py:118-167 | an event yields a record exactly when it has a match, at least two teams and a team 1 or team 2 outcome `"win"`. The winner is team 1 if it won, team 2 otherwise; the scores are the game wins, and the games are their sum |
| Collector.Advance | lol_predictor/data_collector.py:147-178 | an event that yields no record leaves counters and histories alone |
| Collector.RecordFor | lol_predictor/data_collector.py:147-172 | a record exactly for the events `FixtureOf` accepts, equal to it apart from the four statistics; the win rates are read from the counters after both bumps, the forms from the histories before this match |
| Collector.RecordForCollected | lol_predictor/data_collector.py:152-172 | the collected record field by field |
| Collector.RecordsAreFixtures | lol_predictor/data_collector.py:118-174 | with statistics reset, record k is what the k-th qualifying event yields, and there is one record per qualifying event |
| Collector.RecordsPositions | lol_predictor/data_collector.py:118-174 | records come from qualifying events in ascending event order, and every qualifying event yields one |
| Collector.StateAfterStats | lol_predictor/data_collector.py:147-149 | after a collection, a team's games grew by its appearances in qualifying events, its wins by those it won, its losses by the rest |
| Collector.StateAfterInvariants | lol_predictor/data_collector.py:176-178 | a collection keeps every counter balanced and every history at most 10 long |
| Collector.AdvanceHistory | lol_predictor/data_collector.py:176-178 | one event extends the capped history under an id by the marks it gives that id |
| Collector.StateAfterHistory | lol_predictor/data_collector.py:203-210 | after a collection, a team's history is the last 10 entries of its old history followed by its results in the qualifying events, in order |
| Collector.FirstMatchRates | lol_predictor/data_collector.py:168-171 | when team 1 has no counters and no history yet, its record shows the default recent form but a win rate of 1/1 or 0/1 that already counts this match |
| Collector.DataCollector.UpdateTeamStats | lol_predictor/data_collector.py:183-201 | the counters become those `StatsAfter` gives; the histories are untouched |
| Collector.DataCollector.UpdateMatchHistory | lol_predictor/data_collector.py:203-210 | the histories become those `HistoryAfter` gives; the counters are untouched |
| Collector.DataCollector.CollectTournamentMatches | lol_predictor/data_collector.py:110-181 | returns `Records` of the events and leaves the state `StateAfter` gives; the tournament name is the slug or `"unknown"` |
| Collector.DataCollector.constructor | lol_predictor/data_collector.py:76-80 | counters and histories start empty |

## Left out

- `lol_predictor/api_client.py`: an HTTP client over `requests`. Every fetch is replaced by the events it returns.
- League selection by `league_slug` in `get_upcoming_matches` and `get_recent_results`: it searches the fetched league list. The model starts from the schedule's events.
- `collect_league_data`: it looks up leagues and tournaments over the network. Its per-tournament step is `CollectTournamentMatches`.
- JSON persistence: `save_predictions`/`load_predictions`, `save_model`/`load_model`, `save_data`/`load_data`. The tracker's constructor takes the loaded list.
- Floating-point logic is not modelled:
  - `EloRating`, `MatchPredictor.predict`, `_predict_internal` and `get_team_rankings`;
  - `train`'s accuracy figures and its name-table updates. The head-to-head calls `train` makes are `Replay`;
  - the accuracy percentages of `get_stats`.
- Division is left out; the side win rates of `TeamStats` are never updated by this code.
- The clock: the timestamp in a prediction id and `created_at` are parameters of `MakePrediction`.
- `main`, the `display_*` functions, `print` and `time.sleep`.
- JSON values of an unexpected type (for example a non-integer `gameWins`): fields are either absent (`None`) or of the type the code uses.
- Negative `limit` or `num_matches`: both are natural numbers here, so Python's negative slicing is never exercised.
- `Text.LowerChar`: only ASCII letters are folded; Python's `str.lower` also folds other scripts.
- Object identity: a `UserPrediction` or `TeamStats` is a value in a sequence or map. An outside reference to a returned prediction, which Python would share, is not modelled.
- Tracker.UpdateIdempotent: it holds only when every result names a winner code; `MissingWinnerCodeIsRescored` shows why the general claim fails.
- Tracker.StatsAfterUpdate: stated under the same hypothesis, for the same reason.
- Predictor.RecordSwap: stated for two distinct teams. A team paired with itself gets `(w, l)` both ways, which is not the swap unless `w == l`; `AddSelfPair` covers that case.
- Predictor.AddIncrements: stated for two distinct teams, for the same reason; `AddSelfPair` covers a team against itself.
- Predictor.ReplayCounts: stated for two distinct teams, as above.
- Predictor.MatchPredictor.FindTeamId: the id-to-name dictionary is a sequence of pairs in insertion order. Distinct ids are not required, and the search does not depend on them.
