/** The training-data collector: completed events become match records,
    while per-team counters and a capped recent-results history are kept.
    The event fetch is replaced by the event list it returns; win rates and
    recent form are kept as integer ratios. */
module Collector {
  import opened Wrappers
  import opened Seqs
  import opened Feed

  datatype TeamStats = TeamStats(
    teamId: string,
    teamName: string,
    teamCode: string,
    wins: nat,
    losses: nat,
    gamesPlayed: nat,
    blueSideWins: nat,
    blueSideGames: nat,
    redSideWins: nat,
    redSideGames: nat)

  /** An entry of a team's history: "W" or "L". */
  datatype Mark = W | L

  /** A rate without the division: `Default` is the 0.5 given to a team with
      nothing recorded, `Ratio(w, n)` stands for w / n, read as 0.0 when n is 0. */
  datatype Rate = Default | Ratio(wins: nat, games: nat)

  datatype MatchRecord = MatchRecord(
    matchId: string,
    tournamentId: string,
    tournamentName: string,
    date: string,
    team1Id: string,
    team1Name: string,
    team1Code: string,
    team2Id: string,
    team2Name: string,
    team2Code: string,
    winnerId: string,
    winnerCode: string,
    team1Score: nat,
    team2Score: nat,
    numGames: nat,
    team1WinRate: Rate,
    team2WinRate: Rate,
    team1RecentForm: Rate,
    team2RecentForm: Rate)

  /** `team_stats`, keyed by team id. */
  type StatsTable = map<string, TeamStats>

  /** `match_history`, keyed by `team.get("id")`, which is `None` for a team
      without an id. */
  type History = map<Option<string>, seq<Mark>>

  datatype CollectorState = CollectorState(teamStats: StatsTable, matchHistory: History)

  /** The number of history entries kept per team. */
  const HistoryCap: nat := 10

  /** The default window of `_get_recent_form`. */
  const FormWindow: nat := 5

  function MarkOf(won: bool): Mark {
    if won then W else L
  }

  predicate IsWin(m: Mark) {
    m == W
  }

  // ------------------------------------------------------------ team stats

  /** `team.get("id", "")`, the key under which a team's counters live. */
  function StatsKey(team: Team): string {
    team.id.GetOr("")
  }

  function Games(stats: StatsTable, key: string): nat {
    if key in stats then stats[key].gamesPlayed else 0
  }

  function Wins(stats: StatsTable, key: string): nat {
    if key in stats then stats[key].wins else 0
  }

  function Losses(stats: StatsTable, key: string): nat {
    if key in stats then stats[key].losses else 0
  }

  /** Every entry is keyed by its own id and has as many wins and losses
      as games. */
  ghost predicate Balanced(stats: StatsTable) {
    forall k :: k in stats ==> stats[k].teamId == k && stats[k].wins + stats[k].losses == stats[k].gamesPlayed
  }

  /** The counters after `_update_team_stats(team, won)`. */
  function StatsAfter(stats: StatsTable, team: Team, won: bool): (r: StatsTable)
    ensures StatsKey(team) == "" ==> r == stats
    ensures StatsKey(team) != "" ==> StatsKey(team) in r
    ensures forall k :: k != StatsKey(team) ==> (k in r <==> k in stats)
    ensures forall k :: k in stats && k != StatsKey(team) ==> r[k] == stats[k]
    ensures StatsKey(team) != "" ==>
      && Games(r, StatsKey(team)) == Games(stats, StatsKey(team)) + 1
      && Wins(r, StatsKey(team)) == Wins(stats, StatsKey(team)) + (if won then 1 else 0)
      && Losses(r, StatsKey(team)) == Losses(stats, StatsKey(team)) + (if won then 0 else 1)
    ensures StatsKey(team) != "" && StatsKey(team) in stats ==>
      var s, s' := stats[StatsKey(team)], r[StatsKey(team)];
      s' == s.(wins := s'.wins, losses := s'.losses, gamesPlayed := s'.gamesPlayed)
    ensures StatsKey(team) != "" && StatsKey(team) !in stats ==>
      r[StatsKey(team)] == TeamStats(StatsKey(team), team.name.GetOr(""), team.code.GetOr(""),
                                     if won then 1 else 0, if won then 0 else 1, 1, 0, 0, 0, 0)
  {
    var key := StatsKey(team);
    if key == "" then stats
    else
      var s := if key in stats then stats[key]
               else TeamStats(key, team.name.GetOr(""), team.code.GetOr(""), 0, 0, 0, 0, 0, 0, 0);
      var s' := s.(gamesPlayed := s.gamesPlayed + 1);
      stats[key := if won then s'.(wins := s'.wins + 1) else s'.(losses := s'.losses + 1)]
  }

  lemma StatsAfterBalanced(stats: StatsTable, team: Team, won: bool)
    requires Balanced(stats)
    ensures Balanced(StatsAfter(stats, team, won))
  {
  }

  /** `_get_team_win_rate(team_id)`: the default for an unknown team, its
      wins over its games otherwise. */
  function WinRate(stats: StatsTable, id: Option<string>): (f: Rate)
    ensures f == Default <==> id.None? || id.value !in stats
    ensures f.Ratio? ==> f.wins == stats[id.value].wins && f.games == stats[id.value].gamesPlayed
  {
    if id.None? || id.value !in stats then Default
    else Ratio(stats[id.value].wins, stats[id.value].gamesPlayed)
  }

  /** Under balanced counters a win rate never has more wins than games. */
  lemma WinRateProper(stats: StatsTable, id: Option<string>)
    requires Balanced(stats)
    ensures var f := WinRate(stats, id); f.Ratio? ==> f.wins <= f.games
  {
  }

  /** Once a team's match is counted, its win rate is a ratio over one more
      game than before, so the 0.0 of a team without games never shows for
      a team whose match was collected. */
  lemma WinRateAfterGame(stats: StatsTable, team: Team, won: bool)
    requires StatsKey(team) != ""
    ensures var f := WinRate(StatsAfter(stats, team, won), team.id);
      && f.Ratio? && f.games == Games(stats, StatsKey(team)) + 1 && f.games >= 1
      && f.wins == Wins(stats, StatsKey(team)) + (if won then 1 else 0)
  {
  }

  // --------------------------------------------------------------- history

  function HistoryOf(h: History, id: Option<string>): seq<Mark> {
    if id in h then h[id] else []
  }

  ghost predicate Bounded(h: History) {
    forall k :: k in h ==> |h[k]| <= HistoryCap
  }

  /** A history with `m` appended and then cut to its last ten entries. */
  function Pushed(history: seq<Mark>, m: Mark): seq<Mark> {
    TailSlice(history + [m], HistoryCap)
  }

  /** Pushing keeps the newest entry and the ones just before it, up to ten. */
  lemma PushedKeepsLatest(history: seq<Mark>, m: Mark)
    ensures var r := Pushed(history, m);
      && |r| == (if |history| < HistoryCap then |history| + 1 else HistoryCap)
      && r[|r| - 1] == m
      && r[..|r| - 1] == history[|history| + 1 - |r|..]
  {
    var r := Pushed(history, m);
    assert r == (history + [m])[|history| + 1 - |r|..];
  }

  /** The history after `_update_match_history(team_id, won)`: only the
      entry under `team_id` changes, and it gains `won`'s mark. */
  function HistoryAfter(h: History, id: Option<string>, won: bool): (r: History)
    ensures id in r
    ensures forall k :: k != id ==> (k in r <==> k in h)
    ensures forall k :: k in h && k != id ==> r[k] == h[k]
    ensures r[id] == Pushed(HistoryOf(h, id), MarkOf(won))
  {
    h[id := Pushed(HistoryOf(h, id), MarkOf(won))]
  }

  lemma HistoryAfterBounded(h: History, id: Option<string>, won: bool)
    requires Bounded(h)
    ensures Bounded(HistoryAfter(h, id, won))
  {
    PushedKeepsLatest(HistoryOf(h, id), MarkOf(won));
  }

  /** `_get_recent_form(team_id, num_matches)`. */
  function RecentForm(h: History, id: Option<string>, numMatches: nat): Rate {
    if id !in h then Default
    else
      var window := TailSlice(h[id], numMatches);
      if |window| == 0 then Default else Ratio(Count(window, IsWin), |window|)
  }

  /** The default when the team has no history; otherwise the wins among its
      last `numMatches` entries over their number (all entries when there are
      fewer, and, since `h[-0:]` is all of `h`, when `numMatches` is 0). */
  lemma RecentFormMeaning(h: History, id: Option<string>, numMatches: nat)
    ensures var f := RecentForm(h, id, numMatches);
      && (f == Default <==> |HistoryOf(h, id)| == 0)
      && (f.Ratio? ==>
            && f.games == (if numMatches == 0 || |h[id]| < numMatches then |h[id]| else numMatches)
            && f.wins <= f.games
            && f.wins == Count(h[id][|h[id]| - f.games..], IsWin))
  {
  }

  // ------------------------------------------------------------ collection

  /** The skip rules: the event has a match, the match has two teams, and
      one of the first two has outcome "win". */
  predicate Collectable(e: Event) {
    e.fixture.Some? && |TeamsOf(e)| >= 2 && (Won(TeamsOf(e)[0]) || Won(TeamsOf(e)[1]))
  }

  /** The record an event yields, with the four statistics fields at
      `Default`: every field that does not depend on the collector's state. */
  function FixtureOf(tournamentId: string, tournamentName: string, e: Event): (r: Option<MatchRecord>)
    ensures r.Some? <==> e.fixture.Some? && |TeamsOf(e)| >= 2 && (Won(TeamsOf(e)[0]) || Won(TeamsOf(e)[1]))
    ensures r.Some? && Won(TeamsOf(e)[0]) ==>
      r.value.winnerId == r.value.team1Id == TeamsOf(e)[0].id.GetOr("") && r.value.winnerCode == r.value.team1Code
    ensures r.Some? && !Won(TeamsOf(e)[0]) ==>
      r.value.winnerId == r.value.team2Id == TeamsOf(e)[1].id.GetOr("") && r.value.winnerCode == r.value.team2Code
    ensures r.Some? ==> r.value.team1Score == GameWins(TeamsOf(e)[0]) && r.value.team2Score == GameWins(TeamsOf(e)[1])
    ensures r.Some? ==> r.value.numGames == r.value.team1Score + r.value.team2Score
    ensures r.Some? ==> r.value.tournamentId == tournamentId && r.value.tournamentName == tournamentName
  {
    if !Collectable(e) then None
    else
      var t1, t2 := TeamsOf(e)[0], TeamsOf(e)[1];
      var winner := if Won(t1) then t1 else t2;
      Some(MatchRecord(MatchIdOf(e), tournamentId, tournamentName, e.startTime.GetOr(""),
                       t1.id.GetOr(""), t1.name.GetOr(""), t1.code.GetOr(""),
                       t2.id.GetOr(""), t2.name.GetOr(""), t2.code.GetOr(""),
                       winner.id.GetOr(""), winner.code.GetOr(""),
                       GameWins(t1), GameWins(t2), GameWins(t1) + GameWins(t2),
                       Default, Default, Default, Default))
  }

  function Fixtures(tournamentId: string, tournamentName: string): Event -> Option<MatchRecord> {
    e => FixtureOf(tournamentId, tournamentName, e)
  }

  /** A record with its four statistics fields reset. */
  function Blank(r: MatchRecord): MatchRecord {
    r.(team1WinRate := Default, team2WinRate := Default, team1RecentForm := Default, team2RecentForm := Default)
  }

  /** The collector's state after one iteration of the collection loop:
      for a collected event, both teams' counters and both histories have
      taken the result; any other event leaves the state alone. */
  function Advance(st: CollectorState, e: Event): (next: CollectorState)
    ensures !Collectable(e) ==> next == st
  {
    if !Collectable(e) then st
    else
      var t1, t2 := TeamsOf(e)[0], TeamsOf(e)[1];
      CollectorState(StatsAfter(StatsAfter(st.teamStats, t1, Won(t1)), t2, Won(t2)),
                     HistoryAfter(HistoryAfter(st.matchHistory, t1.id, Won(t1)), t2.id, Won(t2)))
  }

  /** The record one iteration appends, if any. Both teams' counters are
      bumped before the record is built, so its win rates count this match;
      the histories are extended after, so its recent forms do not. */
  function RecordFor(st: CollectorState, tournamentId: string, tournamentName: string, e: Event)
    : (r: Option<MatchRecord>)
    ensures r.Some? <==> Collectable(e)
    ensures r.Some? ==> Blank(r.value) == FixtureOf(tournamentId, tournamentName, e).value
    ensures r.Some? ==>
      && r.value.team1WinRate == WinRate(Advance(st, e).teamStats, TeamsOf(e)[0].id)
      && r.value.team2WinRate == WinRate(Advance(st, e).teamStats, TeamsOf(e)[1].id)
      && r.value.team1RecentForm == RecentForm(st.matchHistory, TeamsOf(e)[0].id, FormWindow)
      && r.value.team2RecentForm == RecentForm(st.matchHistory, TeamsOf(e)[1].id, FormWindow)
  {
    match FixtureOf(tournamentId, tournamentName, e)
    case None => None
    case Some(base) =>
      var t1, t2 := TeamsOf(e)[0], TeamsOf(e)[1];
      var stats := Advance(st, e).teamStats;
      Some(base.(team1WinRate := WinRate(stats, t1.id),
                 team2WinRate := WinRate(stats, t2.id),
                 team1RecentForm := RecentForm(st.matchHistory, t1.id, FormWindow),
                 team2RecentForm := RecentForm(st.matchHistory, t2.id, FormWindow)))
  }

  /** The collector's state after the collection loop has seen `events`. */
  function StateAfter(st: CollectorState, events: seq<Event>): CollectorState {
    if |events| == 0 then st else Advance(StateAfter(st, events[..|events| - 1]), events[|events| - 1])
  }

  /** The records `_collect_tournament_matches` returns for `events`. */
  function Records(st: CollectorState, tournamentId: string, tournamentName: string, events: seq<Event>)
    : seq<MatchRecord>
  {
    if |events| == 0 then []
    else
      var n := |events| - 1;
      Records(st, tournamentId, tournamentName, events[..n])
        + Opt(RecordFor(StateAfter(st, events[..n]), tournamentId, tournamentName, events[n]))
  }

  /** With its statistics fields reset, record k of a collection is what the
      k-th collectable event yields: records come one per collectable event,
      in event order, and no other event yields one. */
  lemma {:induction false} RecordsAreFixtures(st: CollectorState, tournamentId: string, tournamentName: string,
                                              events: seq<Event>)
    ensures var rs, fs := Records(st, tournamentId, tournamentName, events), FilterMap(events, Fixtures(tournamentId, tournamentName));
      |rs| == |fs| && forall k :: 0 <= k < |rs| ==> Blank(rs[k]) == fs[k]
  {
    if |events| > 0 {
      var n := |events| - 1;
      var f := Fixtures(tournamentId, tournamentName);
      RecordsAreFixtures(st, tournamentId, tournamentName, events[..n]);
      var prior := Records(st, tournamentId, tournamentName, events[..n]);
      var next := RecordFor(StateAfter(st, events[..n]), tournamentId, tournamentName, events[n]);
      var rs, fs := prior + Opt(next), FilterMap(events[..n], f) + Opt(f(events[n]));
      assert Records(st, tournamentId, tournamentName, events) == rs;
      assert FilterMap(events, f) == fs;
      assert f(events[n]) == FixtureOf(tournamentId, tournamentName, events[n]);
      forall k | 0 <= k < |rs|
        ensures Blank(rs[k]) == fs[k]
      {
        if k == |prior| {
          assert rs[k] == next.value;
        }
      }
    }
  }

  /** Record k is the one built from the k-th collectable event, and the
      collectable events are exactly those that yield a record. */
  lemma RecordsPositions(st: CollectorState, tournamentId: string, tournamentName: string, events: seq<Event>)
    ensures var rs, ks := Records(st, tournamentId, tournamentName, events), Kept(events, Fixtures(tournamentId, tournamentName));
      && |rs| == |ks|
      && (forall k :: 0 <= k < |ks| ==>
            && 0 <= ks[k] < |events| && Collectable(events[ks[k]])
            && Blank(rs[k]) == FixtureOf(tournamentId, tournamentName, events[ks[k]]).value)
      && (forall k, l :: 0 <= k < l < |ks| ==> ks[k] < ks[l])
      && (forall i :: 0 <= i < |events| && Collectable(events[i]) ==> i in ks)
  {
    var f := Fixtures(tournamentId, tournamentName);
    RecordsAreFixtures(st, tournamentId, tournamentName, events);
    FilterMapKept(events, f);
  }

  // ---------------------------------------------------- one loop iteration

  lemma AdvanceCollected(st: CollectorState, e: Event)
    requires Collectable(e)
    ensures Advance(st, e).teamStats
         == StatsAfter(StatsAfter(st.teamStats, TeamsOf(e)[0], Won(TeamsOf(e)[0])), TeamsOf(e)[1], Won(TeamsOf(e)[1]))
    ensures Advance(st, e).matchHistory
         == HistoryAfter(HistoryAfter(st.matchHistory, TeamsOf(e)[0].id, Won(TeamsOf(e)[0])), TeamsOf(e)[1].id, Won(TeamsOf(e)[1]))
  {
  }

  /** The record a collected event yields, field by field. */
  lemma RecordForCollected(st: CollectorState, tournamentId: string, tournamentName: string, e: Event)
    requires Collectable(e)
    ensures var r, t1, t2 := RecordFor(st, tournamentId, tournamentName, e).value, TeamsOf(e)[0], TeamsOf(e)[1];
      var winner := if Won(t1) then t1 else t2;
      var stats := Advance(st, e).teamStats;
      && r.matchId == MatchIdOf(e) && r.tournamentId == tournamentId && r.tournamentName == tournamentName
      && r.date == e.startTime.GetOr("")
      && r.team1Id == t1.id.GetOr("") && r.team1Name == t1.name.GetOr("") && r.team1Code == t1.code.GetOr("")
      && r.team2Id == t2.id.GetOr("") && r.team2Name == t2.name.GetOr("") && r.team2Code == t2.code.GetOr("")
      && r.winnerId == winner.id.GetOr("") && r.winnerCode == winner.code.GetOr("")
      && r.team1Score == GameWins(t1) && r.team2Score == GameWins(t2) && r.numGames == GameWins(t1) + GameWins(t2)
      && r.team1WinRate == WinRate(stats, t1.id) && r.team2WinRate == WinRate(stats, t2.id)
      && r.team1RecentForm == RecentForm(st.matchHistory, t1.id, FormWindow)
      && r.team2RecentForm == RecentForm(st.matchHistory, t2.id, FormWindow)
  {
  }

  /** Two records with the same fields are the same record: a fact of
      datatype equality, stated as a lemma so that the loop proof can use it
      without comparing all nineteen fields at once. */
  lemma SameRecord(a: MatchRecord, b: MatchRecord)
    requires a.matchId == b.matchId && a.tournamentId == b.tournamentId && a.tournamentName == b.tournamentName
    requires a.date == b.date
    requires a.team1Id == b.team1Id && a.team1Name == b.team1Name && a.team1Code == b.team1Code
    requires a.team2Id == b.team2Id && a.team2Name == b.team2Name && a.team2Code == b.team2Code
    requires a.winnerId == b.winnerId && a.winnerCode == b.winnerCode
    requires a.team1Score == b.team1Score && a.team2Score == b.team2Score && a.numGames == b.numGames
    requires a.team1WinRate == b.team1WinRate && a.team2WinRate == b.team2WinRate
    requires a.team1RecentForm == b.team1RecentForm && a.team2RecentForm == b.team2RecentForm
    ensures a == b
  {
  }

  /** The last iteration of the loop, seen from the two folds. */
  lemma RecordsSnoc(st: CollectorState, tournamentId: string, tournamentName: string, events: seq<Event>, i: nat)
    requires i < |events|
    ensures StateAfter(st, events[..i + 1]) == Advance(StateAfter(st, events[..i]), events[i])
    ensures Records(st, tournamentId, tournamentName, events[..i + 1])
         == Records(st, tournamentId, tournamentName, events[..i])
          + Opt(RecordFor(StateAfter(st, events[..i]), tournamentId, tournamentName, events[i]))
  {
    assert events[..i + 1][..i] == events[..i];
  }

  // ------------------------------------------------- what collection does

  /** The contribution of one event to a team's game count: one for each of
      its first two teams whose stats key is `key`, if the event is collected. */
  function SlotsIn(e: Event, key: string): nat {
    if !Collectable(e) then 0
    else
      (if StatsKey(TeamsOf(e)[0]) == key then 1 else 0) + (if StatsKey(TeamsOf(e)[1]) == key then 1 else 0)
  }

  /** The same, counting only slots whose outcome is "win". */
  function WinSlotsIn(e: Event, key: string): nat {
    if !Collectable(e) then 0
    else
      (if StatsKey(TeamsOf(e)[0]) == key && Won(TeamsOf(e)[0]) then 1 else 0)
      + (if StatsKey(TeamsOf(e)[1]) == key && Won(TeamsOf(e)[1]) then 1 else 0)
  }

  function Appearances(events: seq<Event>, key: string): nat {
    Sum(events, e => SlotsIn(e, key))
  }

  function WinningAppearances(events: seq<Event>, key: string): nat {
    Sum(events, e => WinSlotsIn(e, key))
  }

  /** Every collected event bumps each of its two teams' counters once: a
      team's games grow by its appearances in collected events, its wins by
      the appearances with outcome "win", and its losses by the rest. */
  lemma {:induction false} StateAfterStats(st: CollectorState, events: seq<Event>, key: string)
    requires key != ""
    ensures var after := StateAfter(st, events).teamStats;
      && Games(after, key) == Games(st.teamStats, key) + Appearances(events, key)
      && Wins(after, key) == Wins(st.teamStats, key) + WinningAppearances(events, key)
      && Losses(after, key) + WinningAppearances(events, key) == Losses(st.teamStats, key) + Appearances(events, key)
  {
    if |events| > 0 {
      var n := |events| - 1;
      var e := events[n];
      StateAfterStats(st, events[..n], key);
      var prior := StateAfter(st, events[..n]);
      assert Appearances(events, key) == Appearances(events[..n], key) + SlotsIn(e, key);
      assert WinningAppearances(events, key) == WinningAppearances(events[..n], key) + WinSlotsIn(e, key);
      if Collectable(e) {
        var t1, t2 := TeamsOf(e)[0], TeamsOf(e)[1];
        var s1 := StatsAfter(prior.teamStats, t1, Won(t1));
        assert StateAfter(st, events).teamStats == StatsAfter(s1, t2, Won(t2));
        StatsAfterCounts(prior.teamStats, t1, Won(t1), key);
        StatsAfterCounts(s1, t2, Won(t2), key);
      }
    }
  }

  /** One call of `_update_team_stats` seen from the counters under `key`. */
  lemma StatsAfterCounts(stats: StatsTable, team: Team, won: bool, key: string)
    requires key != ""
    ensures var r, hit := StatsAfter(stats, team, won), StatsKey(team) == key;
      && Games(r, key) == Games(stats, key) + (if hit then 1 else 0)
      && Wins(r, key) == Wins(stats, key) + (if hit && won then 1 else 0)
      && Losses(r, key) == Losses(stats, key) + (if hit && !won then 1 else 0)
  {
  }

  lemma AdvanceInvariants(st: CollectorState, e: Event)
    requires Balanced(st.teamStats) && Bounded(st.matchHistory)
    ensures Balanced(Advance(st, e).teamStats) && Bounded(Advance(st, e).matchHistory)
  {
    if Collectable(e) {
      var t1, t2 := TeamsOf(e)[0], TeamsOf(e)[1];
      StatsAfterBalanced(st.teamStats, t1, Won(t1));
      StatsAfterBalanced(StatsAfter(st.teamStats, t1, Won(t1)), t2, Won(t2));
      HistoryAfterBounded(st.matchHistory, t1.id, Won(t1));
      HistoryAfterBounded(HistoryAfter(st.matchHistory, t1.id, Won(t1)), t2.id, Won(t2));
    }
  }

  /** Collection keeps the counters balanced and the histories capped. */
  lemma {:induction false} StateAfterInvariants(st: CollectorState, events: seq<Event>)
    requires Balanced(st.teamStats) && Bounded(st.matchHistory)
    ensures Balanced(StateAfter(st, events).teamStats) && Bounded(StateAfter(st, events).matchHistory)
  {
    if |events| > 0 {
      var n := |events| - 1;
      StateAfterInvariants(st, events[..n]);
      AdvanceInvariants(StateAfter(st, events[..n]), events[n]);
    }
  }

  /** Sequence concatenation is associative: a built-in fact, stated as a
      lemma so that the history proofs can use it at one chosen point. */
  lemma AppendAssociative(a: seq<Mark>, b: seq<Mark>, c: seq<Mark>)
    ensures a + (b + c) == a + b + c
  {
  }

  function MarkIf(hit: bool, won: bool): seq<Mark> {
    if hit then [MarkOf(won)] else []
  }

  /** The entries one event appends to the history under `id`. */
  function MarksIn(e: Event, id: Option<string>): seq<Mark> {
    if !Collectable(e) then []
    else MarkIf(TeamsOf(e)[0].id == id, Won(TeamsOf(e)[0])) + MarkIf(TeamsOf(e)[1].id == id, Won(TeamsOf(e)[1]))
  }

  function MarksFor(events: seq<Event>, id: Option<string>): seq<Mark> {
    Flatten(events, e => MarksIn(e, id))
  }

  /** One `_update_match_history` call seen from the history under `id`,
      when that history is the capped tail of `base`. */
  lemma PushOnce(h: History, pushed: Option<string>, won: bool, id: Option<string>, base: seq<Mark>)
    requires HistoryOf(h, id) == TailSlice(base, HistoryCap)
    ensures HistoryOf(HistoryAfter(h, pushed, won), id) == TailSlice(base + MarkIf(pushed == id, won), HistoryCap)
  {
    if pushed == id {
      TailSliceAppend(base, [MarkOf(won)], HistoryCap);
    } else {
      assert base + [] == base;
    }
  }

  /** One event extends a capped history by the marks it gives. */
  lemma AdvanceHistory(st: CollectorState, e: Event, id: Option<string>, base: seq<Mark>)
    requires HistoryOf(st.matchHistory, id) == TailSlice(base, HistoryCap)
    ensures HistoryOf(Advance(st, e).matchHistory, id) == TailSlice(base + MarksIn(e, id), HistoryCap)
  {
    if Collectable(e) {
      CollectedHistory(st, e, id, base);
    } else {
      assert MarksIn(e, id) == [];
      assert base + [] == base;
    }
  }

  lemma CollectedHistory(st: CollectorState, e: Event, id: Option<string>, base: seq<Mark>)
    requires Collectable(e)
    requires HistoryOf(st.matchHistory, id) == TailSlice(base, HistoryCap)
    ensures HistoryOf(Advance(st, e).matchHistory, id) == TailSlice(base + MarksIn(e, id), HistoryCap)
  {
    var t1, t2 := TeamsOf(e)[0], TeamsOf(e)[1];
    var x, y := MarkIf(t1.id == id, Won(t1)), MarkIf(t2.id == id, Won(t2));
    AdvanceCollected(st, e);
    var h2 := HistoryAfter(HistoryAfter(st.matchHistory, t1.id, Won(t1)), t2.id, Won(t2));
    assert Advance(st, e).matchHistory == h2;
    PushTwice(st.matchHistory, t1.id, Won(t1), t2.id, Won(t2), id, base);
    assert HistoryOf(h2, id) == TailSlice(base + x + y, HistoryCap);
    assert MarksIn(e, id) == x + y;
    AppendAssociative(base, x, y);
    assert base + MarksIn(e, id) == base + x + y;
  }

  lemma PushTwice(h: History, p1: Option<string>, w1: bool, p2: Option<string>, w2: bool,
                  id: Option<string>, base: seq<Mark>)
    requires HistoryOf(h, id) == TailSlice(base, HistoryCap)
    ensures HistoryOf(HistoryAfter(HistoryAfter(h, p1, w1), p2, w2), id)
         == TailSlice(base + MarkIf(p1 == id, w1) + MarkIf(p2 == id, w2), HistoryCap)
  {
    PushOnce(h, p1, w1, id, base);
    PushOnce(HistoryAfter(h, p1, w1), p2, w2, id, base + MarkIf(p1 == id, w1));
  }

  /** After a collection, a team's history is the last ten entries of its
      old history followed by its results in the collected events, in order. */
  lemma {:induction false} StateAfterHistory(st: CollectorState, events: seq<Event>, id: Option<string>)
    requires |HistoryOf(st.matchHistory, id)| <= HistoryCap
    ensures HistoryOf(StateAfter(st, events).matchHistory, id)
         == TailSlice(HistoryOf(st.matchHistory, id) + MarksFor(events, id), HistoryCap)
  {
    var h0 := HistoryOf(st.matchHistory, id);
    if |events| == 0 {
      assert h0 + [] == h0;
    } else {
      var n := |events| - 1;
      var m := MarksFor(events[..n], id);
      StateAfterHistory(st, events[..n], id);
      AdvanceHistory(StateAfter(st, events[..n]), events[n], id, h0 + m);
      assert MarksFor(events, id) == m + MarksIn(events[n], id);
      AppendAssociative(h0, m, MarksIn(events[n], id));
    }
  }

  /** The ordering in one case: a team's first collected match gives it the
      default recent form, yet a win rate of 1/1 or 0/1 that already counts
      that match. */
  lemma FirstMatchRates(st: CollectorState, tournamentId: string, tournamentName: string, e: Event)
    requires Collectable(e)
    requires StatsKey(TeamsOf(e)[0]) != "" && StatsKey(TeamsOf(e)[0]) !in st.teamStats
    requires StatsKey(TeamsOf(e)[1]) != StatsKey(TeamsOf(e)[0])
    requires TeamsOf(e)[0].id !in st.matchHistory
    ensures var r := RecordFor(st, tournamentId, tournamentName, e).value;
      && r.team1RecentForm == Default
      && r.team1WinRate == Ratio(if Won(TeamsOf(e)[0]) then 1 else 0, 1)
  {
    var t1, t2 := TeamsOf(e)[0], TeamsOf(e)[1];
    var s1 := StatsAfter(st.teamStats, t1, Won(t1));
    assert Advance(st, e).teamStats == StatsAfter(s1, t2, Won(t2));
  }

  class DataCollector {
    var teamStats: StatsTable
    var matchHistory: History

    ghost predicate Valid()
      reads this
    {
      Balanced(teamStats) && Bounded(matchHistory)
    }

    constructor ()
      ensures Valid() && teamStats == map[] && matchHistory == map[]
    {
      teamStats := map[];
      matchHistory := map[];
    }

    method UpdateTeamStats(team: Team, won: bool)
      requires Valid()
      modifies this
      ensures Valid()
      ensures teamStats == StatsAfter(old(teamStats), team, won)
      ensures matchHistory == old(matchHistory)
    {
      StatsAfterBalanced(teamStats, team, won);
      var teamId := team.id.GetOr("");
      if teamId == "" {
        return;
      }
      if teamId !in teamStats {
        teamStats := teamStats[teamId := TeamStats(teamId, team.name.GetOr(""), team.code.GetOr(""), 0, 0, 0, 0, 0, 0, 0)];
      }
      var stats := teamStats[teamId];
      stats := stats.(gamesPlayed := stats.gamesPlayed + 1);
      if won {
        stats := stats.(wins := stats.wins + 1);
      } else {
        stats := stats.(losses := stats.losses + 1);
      }
      teamStats := teamStats[teamId := stats];
    }

    method UpdateMatchHistory(teamId: Option<string>, won: bool)
      requires Valid()
      modifies this
      ensures Valid()
      ensures matchHistory == HistoryAfter(old(matchHistory), teamId, won)
      ensures teamStats == old(teamStats)
    {
      HistoryAfterBounded(matchHistory, teamId, won);
      var history := if teamId in matchHistory then matchHistory[teamId] else [];
      history := history + [MarkOf(won)];
      history := TailSlice(history, HistoryCap);
      matchHistory := matchHistory[teamId := history];
    }

    /** `tournamentSlug` is `tournament.get("slug")`; `events` is what the
        completed-events fetch returned for `tournamentId`. */
    method CollectTournamentMatches(tournamentId: string, tournamentSlug: Option<string>, events: seq<Event>)
      returns (matches: seq<MatchRecord>)
      requires Valid()
      modifies this
      ensures Valid()
      ensures matches == Records(old(CollectorState(teamStats, matchHistory)), tournamentId, tournamentSlug.GetOr("unknown"), events)
      ensures CollectorState(teamStats, matchHistory) == StateAfter(old(CollectorState(teamStats, matchHistory)), events)
    {
      var tournamentName := tournamentSlug.GetOr("unknown");
      ghost var start := CollectorState(teamStats, matchHistory);
      matches := [];
      for i := 0 to |events|
        invariant Valid()
        invariant matches == Records(start, tournamentId, tournamentName, events[..i])
        invariant CollectorState(teamStats, matchHistory) == StateAfter(start, events[..i])
      {
        RecordsSnoc(start, tournamentId, tournamentName, events, i);
        ghost var prior := CollectorState(teamStats, matchHistory);
        var event := events[i];
        if event.fixture.None? {
          continue;
        }
        var teams := TeamsOf(event);
        if |teams| < 2 {
          continue;
        }
        var team1, team2 := teams[0], teams[1];
        var t1Outcome, t2Outcome := OutcomeOf(team1), OutcomeOf(team2);
        var winnerId, winnerCode;
        if t1Outcome == Some("win") {
          winnerId, winnerCode := team1.id.GetOr(""), team1.code.GetOr("");
        } else if t2Outcome == Some("win") {
          winnerId, winnerCode := team2.id.GetOr(""), team2.code.GetOr("");
        } else {
          continue;
        }
        AdvanceCollected(prior, event);
        var t1Score, t2Score := GameWins(team1), GameWins(team2);
        UpdateTeamStats(team1, t1Outcome == Some("win"));
        UpdateTeamStats(team2, t2Outcome == Some("win"));
        var record := MatchRecord(MatchIdOf(event), tournamentId, tournamentName, event.startTime.GetOr(""),
          team1.id.GetOr(""), team1.name.GetOr(""), team1.code.GetOr(""),
          team2.id.GetOr(""), team2.name.GetOr(""), team2.code.GetOr(""),
          winnerId, winnerCode, t1Score, t2Score, t1Score + t2Score,
          WinRate(teamStats, team1.id), WinRate(teamStats, team2.id),
          RecentForm(matchHistory, team1.id, FormWindow), RecentForm(matchHistory, team2.id, FormWindow));
        assert Collectable(event);
        ghost var winner := if Won(team1) then team1 else team2;
        assert winnerId == winner.id.GetOr("") && winnerCode == winner.code.GetOr("");
        assert teamStats == Advance(prior, event).teamStats && matchHistory == prior.matchHistory;
        RecordForCollected(prior, tournamentId, tournamentName, event);
        SameRecord(record, RecordFor(prior, tournamentId, tournamentName, event).value);
        matches := matches + [record];
        UpdateMatchHistory(team1.id, t1Outcome == Some("win"));
        UpdateMatchHistory(team2.id, t2Outcome == Some("win"));
      }
      assert events[..|events|] == events;
    }
  }
}
