/** The prediction tracker: schedule events become upcoming matches and
    results, users' predictions are appended, scored once their match has a
    result, and counted. The schedule fetch is replaced by the event list it
    returns. */
module Tracker {
  import opened Wrappers
  import opened Text
  import opened Seqs
  import opened Feed

  /** A user's pick for one match; the four `actual*` fields stay `None`
      until the match has a result. */
  datatype UserPrediction = UserPrediction(
    predictionId: string,
    matchId: string,
    matchDate: string,
    team1Code: string,
    team1Name: string,
    team2Code: string,
    team2Name: string,
    predictedWinner: string,
    predictedScore: string,
    createdAt: string,
    actualWinner: Option<string>,
    actualScore: Option<string>,
    winnerCorrect: Option<bool>,
    scoreCorrect: Option<bool>)

  datatype TeamSummary = TeamSummary(code: string, name: string, image: string)

  /** An event that can still be predicted. */
  datatype UpcomingMatch = UpcomingMatch(
    matchId: string,
    eventId: string,
    startTime: string,
    state: string,
    league: string,
    blockName: string,
    team1: TeamSummary,
    team2: TeamSummary,
    strategy: Strategy)

  /** A finished match; `winnerCode` is `None` when the chosen team has no code. */
  datatype ResultRecord = ResultRecord(
    matchId: string,
    startTime: string,
    league: string,
    team1Code: string,
    team1Name: string,
    team2Code: string,
    team2Name: string,
    winnerCode: Option<string>,
    score: string)

  /** The integer part of the statistics (the accuracy ratios are left out). */
  datatype PredictionStats = PredictionStats(
    totalPredictions: nat,
    completed: nat,
    pending: nat,
    winnerCorrect: nat,
    scoreCorrect: nat)

  function Summary(t: Team): TeamSummary {
    TeamSummary(t.code.GetOr(""), t.name.GetOr(""), t.image.GetOr(""))
  }

  // ---------------------------------------------------------------- upcoming

  predicate IsUpcoming(e: Event) {
    (StateOf(e) == "unstarted" || StateOf(e) == "inProgress") && |TeamsOf(e)| >= 2
  }

  function ToUpcoming(e: Event): UpcomingMatch
    requires |TeamsOf(e)| >= 2
  {
    UpcomingMatch(MatchIdOf(e), e.id.GetOr(""), e.startTime.GetOr(""), StateOf(e),
                  e.leagueName.GetOr("Unknown"), e.blockName.GetOr(""),
                  Summary(TeamsOf(e)[0]), Summary(TeamsOf(e)[1]), StrategyOf(e))
  }

  /** The entry one event contributes to the upcoming list, if any. */
  function UpcomingOf(e: Event): (u: Option<UpcomingMatch>)
    ensures u.Some? <==> (StateOf(e) == "unstarted" || StateOf(e) == "inProgress") && |TeamsOf(e)| >= 2
    ensures u.Some? ==> u.value.team1 == Summary(TeamsOf(e)[0]) && u.value.team2 == Summary(TeamsOf(e)[1])
    ensures u.Some? ==> u.value.state == StateOf(e) && u.value.matchId == MatchIdOf(e)
  {
    if IsUpcoming(e) then Some(ToUpcoming(e)) else None
  }

  /** The upcoming list holds one entry per unstarted or in-progress event
      with at least two teams, and no other, in input order, with `teams[0]`
      as team1 and `teams[1]` as team2. */
  lemma UpcomingExactly(events: seq<Event>)
    ensures var r, ks := FilterMap(events, UpcomingOf), Kept(events, UpcomingOf);
      && |r| == |ks|
      && (forall k, l :: 0 <= k < l < |ks| ==> ks[k] < ks[l])
      && (forall i :: 0 <= i < |events| ==> (IsUpcoming(events[i]) <==> i in ks))
      && (forall k :: 0 <= k < |ks| ==>
            && ks[k] < |events| && IsUpcoming(events[ks[k]])
            && r[k].team1 == Summary(TeamsOf(events[ks[k]])[0])
            && r[k].team2 == Summary(TeamsOf(events[ks[k]])[1])
            && r[k].matchId == MatchIdOf(events[ks[k]]))
  {
    FilterMapKept(events, UpcomingOf);
  }

  // ----------------------------------------------------------------- results

  predicate IsFinished(e: Event) {
    StateOf(e) == "completed" && |TeamsOf(e)| >= 2
  }

  function ToResult(e: Event): ResultRecord
    requires |TeamsOf(e)| >= 2
  {
    var t1, t2 := TeamsOf(e)[0], TeamsOf(e)[1];
    ResultRecord(MatchIdOf(e), e.startTime.GetOr(""), e.leagueName.GetOr("Unknown"),
                 t1.code.GetOr(""), t1.name.GetOr(""), t2.code.GetOr(""), t2.name.GetOr(""),
                 if Won(t1) then t1.code else t2.code,
                 ScoreText(GameWins(t1), GameWins(t2)))
  }

  /** The result one event contributes, if any: team2 is named winner
      whenever team1's outcome is not "win", whatever team2's outcome is. */
  function ResultOf(e: Event): (r: Option<ResultRecord>)
    ensures r.Some? <==> StateOf(e) == "completed" && |TeamsOf(e)| >= 2
    ensures r.Some? && Won(TeamsOf(e)[0]) ==> r.value.winnerCode == TeamsOf(e)[0].code
    ensures r.Some? && !Won(TeamsOf(e)[0]) ==> r.value.winnerCode == TeamsOf(e)[1].code
    ensures r.Some? ==> r.value.score == ScoreText(GameWins(TeamsOf(e)[0]), GameWins(TeamsOf(e)[1]))
    ensures r.Some? ==> r.value.matchId == MatchIdOf(e)
  {
    if IsFinished(e) then Some(ToResult(e)) else None
  }

  /** When the two teams' codes differ, the winner code is team1's exactly
      when team1's outcome is "win"; and the score text names team1's game
      wins first and team2's second, absent counts being 0. */
  lemma ResultWinnerAndScore(e: Event, a: nat, b: nat)
    requires IsFinished(e)
    ensures var r, t1, t2 := ResultOf(e).value, TeamsOf(e)[0], TeamsOf(e)[1];
      && (t1.code != t2.code ==> (r.winnerCode == t1.code <==> Won(t1)))
      && (r.score == ScoreText(a, b) <==> a == GameWins(t1) && b == GameWins(t2))
  {
    ScoreTextInjective(GameWins(TeamsOf(e)[0]), GameWins(TeamsOf(e)[1]), a, b);
  }

  /** `get_recent_results(limit)` over the fetched events. */
  function RecentResults(events: seq<Event>, limit: nat): seq<ResultRecord> {
    Take(FilterMap(events, ResultOf), limit)
  }

  /** The recent results are the first `limit` completed events with at
      least two teams, in input order, and never more than `limit`. */
  lemma RecentResultsExactly(events: seq<Event>, limit: nat)
    ensures var r, ks := RecentResults(events, limit), Kept(events, ResultOf);
      && |r| == (if limit < |ks| then limit else |ks|)
      && (forall k, l :: 0 <= k < l < |ks| ==> ks[k] < ks[l])
      && (forall i :: 0 <= i < |events| ==> (IsFinished(events[i]) <==> i in ks))
      && (forall k :: 0 <= k < |r| ==>
            && ks[k] < |events| && IsFinished(events[ks[k]])
            && r[k] == ToResult(events[ks[k]]))
  {
    FilterMapKept(events, ResultOf);
  }

  /** `{r["match_id"]: r for r in results}`: a later result replaces an
      earlier one for the same match. */
  function ResultsMap(results: seq<ResultRecord>): (m: map<string, ResultRecord>)
    ensures forall id :: id in m ==> m[id].matchId == id
  {
    if |results| == 0 then map[]
    else ResultsMap(results[..|results| - 1])[results[|results| - 1].matchId := results[|results| - 1]]
  }

  /** A match id is a key of the results map exactly when some result has it. */
  lemma {:induction false} ResultsMapKeys(results: seq<ResultRecord>, id: string)
    ensures id in ResultsMap(results) <==> exists j :: 0 <= j < |results| && results[j].matchId == id
  {
    if |results| > 0 {
      var n := |results| - 1;
      ResultsMapKeys(results[..n], id);
      if exists j :: 0 <= j < n && results[..n][j].matchId == id {
        var j :| 0 <= j < n && results[..n][j].matchId == id;
        assert results[j].matchId == id;
      }
      if exists j :: 0 <= j < |results| && results[j].matchId == id {
        var j :| 0 <= j < |results| && results[j].matchId == id;
        if j < n { assert results[..n][j].matchId == id; }
      }
    }
  }

  /** The map holds, for each match id, the last result that carries it. */
  lemma {:induction false} ResultsMapLastWins(results: seq<ResultRecord>, j: nat)
    requires j < |results|
    requires forall k :: j < k < |results| ==> results[k].matchId != results[j].matchId
    ensures results[j].matchId in ResultsMap(results)
    ensures ResultsMap(results)[results[j].matchId] == results[j]
  {
    var n := |results| - 1;
    if j < n {
      ResultsMapLastWins(results[..n], j);
    }
  }

  // ----------------------------------------------------------------- scoring

  /** The update gate: not yet scored, and the match has a result. */
  predicate Scoreable(p: UserPrediction, results: map<string, ResultRecord>) {
    p.actualWinner.None? && p.matchId in results
  }

  /** Everything in a prediction except its four result fields. */
  predicate SamePick(p: UserPrediction, q: UserPrediction) {
    && p.predictionId == q.predictionId && p.matchId == q.matchId && p.matchDate == q.matchDate
    && p.team1Code == q.team1Code && p.team1Name == q.team1Name
    && p.team2Code == q.team2Code && p.team2Name == q.team2Name
    && p.predictedWinner == q.predictedWinner && p.predictedScore == q.predictedScore
    && p.createdAt == q.createdAt
  }

  /** One iteration of the update loop. */
  function ScoreOne(p: UserPrediction, results: map<string, ResultRecord>): (q: UserPrediction)
    ensures SamePick(p, q)
    ensures !Scoreable(p, results) ==> q == p
    ensures Scoreable(p, results) ==>
      && q.actualWinner == results[p.matchId].winnerCode
      && q.actualScore == Some(results[p.matchId].score)
      && q.winnerCorrect == Some(q.actualWinner == Some(q.predictedWinner))
      && q.scoreCorrect == Some(q.actualScore == Some(q.predictedScore))
  {
    if Scoreable(p, results) then
      var result := results[p.matchId];
      p.(actualWinner := result.winnerCode,
         actualScore := Some(result.score),
         winnerCorrect := Some(result.winnerCode == Some(p.predictedWinner)),
         scoreCorrect := Some(p.predictedScore == result.score))
    else p
  }

  /** The prediction list after the update loop has visited every entry. */
  function ScoreAll(ps: seq<UserPrediction>, results: map<string, ResultRecord>): (r: seq<UserPrediction>)
    ensures |r| == |ps|
    ensures forall i :: 0 <= i < |ps| ==> r[i] == ScoreOne(ps[i], results)
  {
    if |ps| == 0 then [] else ScoreAll(ps[..|ps| - 1], results) + [ScoreOne(ps[|ps| - 1], results)]
  }

  /** The number of predictions the update gate lets through. */
  function ScoreableCount(ps: seq<UserPrediction>, results: map<string, ResultRecord>): (n: nat)
    ensures n <= |ps|
  {
    if |ps| == 0 then 0
    else ScoreableCount(ps[..|ps| - 1], results) + (if Scoreable(ps[|ps| - 1], results) then 1 else 0)
  }

  predicate IsScored(p: UserPrediction) {
    p.actualWinner.Some?
  }

  /** Every prediction the update counts either becomes scored or, when its
      result has no winner code, stays open to the gate: the number of
      scored predictions plus the number the gate admits is unchanged. */
  lemma {:induction false} UpdateConservesCount(ps: seq<UserPrediction>, results: map<string, ResultRecord>)
    ensures Count(ScoreAll(ps, results), IsScored) + ScoreableCount(ScoreAll(ps, results), results)
         == Count(ps, IsScored) + ScoreableCount(ps, results)
  {
    if |ps| > 0 {
      var n := |ps| - 1;
      UpdateConservesCount(ps[..n], results);
      assert ScoreAll(ps, results)[..n] == ScoreAll(ps[..n], results);
    }
  }

  /** A second update with the same results admits exactly the predictions
      whose result carries no winner code. */
  lemma {:induction false} RescoredOnlyWithoutWinner(ps: seq<UserPrediction>, results: map<string, ResultRecord>)
    ensures ScoreableCount(ScoreAll(ps, results), results) == Count(ps, p => Scoreable(p, results) && results[p.matchId].winnerCode.None?)
  {
    if |ps| > 0 {
      var n := |ps| - 1;
      RescoredOnlyWithoutWinner(ps[..n], results);
      assert ScoreAll(ps, results)[..n] == ScoreAll(ps[..n], results);
    }
  }

  /** Idempotence: when every result names a winner code, updating again
      with the same results scores nothing and changes nothing. */
  lemma UpdateIdempotent(ps: seq<UserPrediction>, results: map<string, ResultRecord>)
    requires forall id :: id in results ==> results[id].winnerCode.Some?
    ensures ScoreableCount(ScoreAll(ps, results), results) == 0
    ensures ScoreAll(ScoreAll(ps, results), results) == ScoreAll(ps, results)
  {
    RescoredOnlyWithoutWinner(ps, results);
    CountNoneSatisfy(ps, p => Scoreable(p, results) && results[p.matchId].winnerCode.None?);
  }

  /** A result whose chosen team has no code leaves `actual_winner` at
      `None`, so the same prediction is scored, and counted, again. */
  lemma MissingWinnerCodeIsRescored()
    ensures var p := UserPrediction("pred_1_x", "m1", "", "T1", "", "T2", "", "T1", "2-0", "",
                                    None, None, None, None);
            var results := map["m1" := ResultRecord("m1", "", "", "T1", "", "T2", "", None, "2-0")];
            && ScoreableCount([p], results) == 1
            && ScoreableCount(ScoreAll([p], results), results) == 1
  {
  }

  // ------------------------------------------------------------------- stats

  predicate WinnerMarkedCorrect(p: UserPrediction) {
    p.winnerCorrect == Some(true)
  }

  predicate ScoreMarkedCorrect(p: UserPrediction) {
    p.scoreCorrect == Some(true)
  }

  /** A scored prediction whose winner was marked correct. */
  predicate WinnerHit(p: UserPrediction) {
    IsScored(p) && WinnerMarkedCorrect(p)
  }

  /** A scored prediction whose score was marked correct. */
  predicate ScoreHit(p: UserPrediction) {
    IsScored(p) && ScoreMarkedCorrect(p)
  }

  /** `get_stats` without the accuracy percentages. */
  function GetStats(predictions: seq<UserPrediction>): (s: PredictionStats)
    ensures s.totalPredictions == |predictions|
    ensures s.completed == Count(predictions, IsScored)
    ensures s.completed + s.pending == s.totalPredictions
    ensures s.winnerCorrect <= s.completed && s.scoreCorrect <= s.completed
    ensures s.winnerCorrect == Count(predictions, WinnerHit)
    ensures s.scoreCorrect == Count(predictions, ScoreHit)
  {
    CountFilter(predictions, IsScored, WinnerMarkedCorrect, WinnerHit);
    CountFilter(predictions, IsScored, ScoreMarkedCorrect, ScoreHit);
    var completed := Filter(predictions, IsScored);
    if |completed| == 0 then PredictionStats(|predictions|, 0, |predictions|, 0, 0)
    else PredictionStats(|predictions|, |completed|, |predictions| - |completed|,
                         Count(completed, WinnerMarkedCorrect), Count(completed, ScoreMarkedCorrect))
  }

  /** Appending an unscored prediction adds one to the total and to the
      pending count and leaves every other figure as it was. */
  lemma StatsAfterNewPrediction(ps: seq<UserPrediction>, p: UserPrediction)
    requires p.actualWinner.None?
    ensures GetStats(ps + [p]) == GetStats(ps).(totalPredictions := |ps| + 1, pending := GetStats(ps).pending + 1)
  {
    CountAppendOne(ps, p, IsScored);
    assert (ps + [p])[..|ps|] == ps;
    assert Filter(ps + [p], IsScored) == Filter(ps, IsScored);
  }

  /** When every result names a winner code, an update moves exactly the
      number it returns from pending to completed. */
  lemma StatsAfterUpdate(ps: seq<UserPrediction>, results: map<string, ResultRecord>)
    requires forall id :: id in results ==> results[id].winnerCode.Some?
    ensures GetStats(ScoreAll(ps, results)).totalPredictions == GetStats(ps).totalPredictions
    ensures GetStats(ScoreAll(ps, results)).completed == GetStats(ps).completed + ScoreableCount(ps, results)
  {
    UpdateConservesCount(ps, results);
    UpdateIdempotent(ps, results);
  }

  /** A prediction can be marked score-correct and winner-wrong at once: the
      score is compared as text, positionally, independently of the winner. */
  lemma ScoreCorrectWithoutWinnerCorrect()
    ensures var p := UserPrediction("pred_1_x", "m1", "", "T1", "", "T2", "", "T2", "2-1", "",
                                    None, None, None, None);
            var results := map["m1" := ResultRecord("m1", "", "", "T1", "", "T2", "", Some("T1"), "2-1")];
            var q := ScoreOne(p, results);
            q.scoreCorrect == Some(true) && q.winnerCorrect == Some(false)
  {
  }

  // ----------------------------------------------------------------- tracker

  class PredictionTracker {
    var predictions: seq<UserPrediction>

    /** `loaded` is what `load_predictions` read, or `[]` without a file. */
    constructor (loaded: seq<UserPrediction>)
      ensures predictions == loaded
    {
      predictions := loaded;
    }

    method GetUpcomingMatches(events: seq<Event>) returns (upcoming: seq<UpcomingMatch>)
      ensures upcoming == FilterMap(events, UpcomingOf)
    {
      upcoming := [];
      for i := 0 to |events|
        invariant upcoming == FilterMap(events[..i], UpcomingOf)
      {
        assert events[..i + 1][..i] == events[..i];
        var event := events[i];
        var state := StateOf(event);
        if state == "unstarted" || state == "inProgress" {
          var teams := TeamsOf(event);
          if |teams| >= 2 {
            upcoming := upcoming + [ToUpcoming(event)];
          }
        }
      }
      assert events[..|events|] == events;
    }

    method GetRecentResults(events: seq<Event>, limit: nat) returns (results: seq<ResultRecord>)
      ensures results == RecentResults(events, limit)
    {
      var completed := [];
      for i := 0 to |events|
        invariant completed == FilterMap(events[..i], ResultOf)
      {
        assert events[..i + 1][..i] == events[..i];
        var event := events[i];
        if StateOf(event) == "completed" {
          var teams := TeamsOf(event);
          if |teams| >= 2 {
            var t1, t2 := teams[0], teams[1];
            var winnerCode := if Won(t1) then t1.code else t2.code;
            completed := completed + [ResultRecord(MatchIdOf(event), event.startTime.GetOr(""),
              event.leagueName.GetOr("Unknown"), t1.code.GetOr(""), t1.name.GetOr(""),
              t2.code.GetOr(""), t2.name.GetOr(""), winnerCode,
              ScoreText(GameWins(t1), GameWins(t2)))];
          }
        }
      }
      assert events[..|events|] == events;
      results := Take(completed, limit);
    }

    /** `timestamp` stands for the clock reading in the id, `createdAt` for
        the creation time. */
    method MakePrediction(m: UpcomingMatch, winnerCode: string, score: string,
                          timestamp: string, createdAt: string)
      returns (prediction: UserPrediction)
      modifies this
      ensures predictions == old(predictions) + [prediction]
      ensures prediction.predictionId == "pred_" + Decimal(|old(predictions)| + 1) + "_" + timestamp
      ensures prediction.matchId == m.matchId && prediction.matchDate == m.startTime
      ensures prediction.team1Code == m.team1.code && prediction.team1Name == m.team1.name
      ensures prediction.team2Code == m.team2.code && prediction.team2Name == m.team2.name
      ensures prediction.predictedWinner == winnerCode && prediction.predictedScore == score
      ensures prediction.createdAt == createdAt
      ensures prediction.actualWinner.None? && prediction.actualScore.None?
      ensures prediction.winnerCorrect.None? && prediction.scoreCorrect.None?
    {
      prediction := UserPrediction("pred_" + Decimal(|predictions| + 1) + "_" + timestamp,
        m.matchId, m.startTime, m.team1.code, m.team1.name, m.team2.code, m.team2.name,
        winnerCode, score, createdAt, None, None, None, None);
      predictions := predictions + [prediction];
    }

    /** Scores every prediction the gate admits against the first 50
        completed results of `events`, in feed order, and returns how many it scored. */
    method UpdatePredictionResults(events: seq<Event>) returns (updated: nat)
      modifies this
      ensures predictions == ScoreAll(old(predictions), ResultsMap(RecentResults(events, 50)))
      ensures updated == ScoreableCount(old(predictions), ResultsMap(RecentResults(events, 50)))
    {
      var recentResults := GetRecentResults(events, 50);
      var resultsMap := ResultsMap(recentResults);
      ghost var before := predictions;
      updated := 0;
      for i := 0 to |predictions|
        invariant |predictions| == |before|
        invariant forall j :: 0 <= j < i ==> predictions[j] == ScoreOne(before[j], resultsMap)
        invariant forall j :: i <= j < |before| ==> predictions[j] == before[j]
        invariant updated == ScoreableCount(before[..i], resultsMap)
      {
        assert before[..i + 1][..i] == before[..i];
        var pred := predictions[i];
        if pred.actualWinner.None? && pred.matchId in resultsMap {
          var result := resultsMap[pred.matchId];
          predictions := predictions[i := pred.(
            actualWinner := result.winnerCode,
            actualScore := Some(result.score),
            winnerCorrect := Some(result.winnerCode == Some(pred.predictedWinner)),
            scoreCorrect := Some(pred.predictedScore == result.score))];
          updated := updated + 1;
        }
      }
      assert before[..|before|] == before;
    }
  }
}
