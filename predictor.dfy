/** The head-to-head ledger and the team search of the match predictor.
    The Elo ratings and the weighted prediction are floating point and are
    not part of this model. */
module Predictor {
  import opened Wrappers
  import opened Text
  import opened Seqs

  /** The nested `records` dictionary: `records[t1][t2] == (w, l)` holds, for
      the sorted pair `(t1, t2)`, the wins of `t1` and the wins of `t2`. */
  type Table = map<string, map<string, (nat, nat)>>

  /** Every stored pair is in sorted order. */
  ghost predicate SortedKeys(t: Table) {
    forall x, y :: x in t && y in t[x] ==> StrLe(x, y)
  }

  /** The value `get_record(team1Id, team2Id)` returns: (team1's wins, team2's wins). */
  function RecordOf(t: Table, team1Id: string, team2Id: string): (nat, nat) {
    var (x, y) := SortedPair(team1Id, team2Id);
    if x in t && y in t[x] then
      var (w, l) := t[x][y];
      if team1Id == x then (w, l) else (l, w)
    else (0, 0)
  }

  /** The table after `add_result(team1Id, team2Id, team1Won)`. */
  function WithResult(t: Table, team1Id: string, team2Id: string, team1Won: bool): Table {
    var (x, y) := SortedPair(team1Id, team2Id);
    var row := if x in t then t[x] else map[];
    var (w, l) := if y in row then row[y] else (0, 0);
    t[x := row[y := if (team1Id == x && team1Won) || (team1Id == y && !team1Won) then (w + 1, l) else (w, l + 1)]]
  }

  /** The table after reading `records[t1]` from the defaultdict, which
      inserts an empty row for a first-seen `t1`. */
  function Touched(t: Table, x: string): Table {
    if x in t then t else t[x := map[]]
  }

  lemma WithResultKeepsSorted(t: Table, team1Id: string, team2Id: string, team1Won: bool)
    requires SortedKeys(t)
    ensures SortedKeys(WithResult(t, team1Id, team2Id, team1Won))
  {
  }

  lemma TouchedKeepsSorted(t: Table, x: string)
    requires SortedKeys(t)
    ensures SortedKeys(Touched(t, x))
  {
  }

  /** An inserted empty row changes no record. */
  lemma TouchedInvisible(t: Table, x: string, a: string, b: string)
    ensures RecordOf(Touched(t, x), a, b) == RecordOf(t, a, b)
  {
  }

  /** Symmetry: the record of (b, a) is the record of (a, b) swapped. */
  lemma RecordSwap(t: Table, a: string, b: string)
    requires a != b
    ensures RecordOf(t, b, a) == (RecordOf(t, a, b).1, RecordOf(t, a, b).0)
  {
    SortedPairSymmetric(a, b);
  }

  /** One result adds exactly one win, to its winner's side. */
  lemma AddIncrements(t: Table, a: string, b: string, aWon: bool)
    requires a != b
    ensures var before, after := RecordOf(t, a, b), RecordOf(WithResult(t, a, b, aWon), a, b);
      after == if aWon then (before.0 + 1, before.1) else (before.0, before.1 + 1)
  {
  }

  /** A team recorded against itself: both tests of the win condition hold,
      so the first component grows whichever way the flag is set. */
  lemma AddSelfPair(t: Table, a: string, aWon: bool)
    ensures var before := RecordOf(t, a, a);
      RecordOf(WithResult(t, a, a, aWon), a, a) == (before.0 + 1, before.1)
  {
  }

  /** Recording "a beat b" from either side gives the same table. */
  lemma AddSwap(t: Table, a: string, b: string, aWon: bool)
    ensures WithResult(t, a, b, aWon) == WithResult(t, b, a, !aWon)
  {
    SortedPairSymmetric(a, b);
    if StrLe(a, b) && StrLe(b, a) {
      StrLeAntisymmetric(a, b);
    }
  }

  /** A result changes the record of no other unordered pair. */
  lemma AddFrame(t: Table, a: string, b: string, aWon: bool, c: string, d: string)
    requires !((c == a && d == b) || (c == b && d == a))
    ensures RecordOf(WithResult(t, a, b, aWon), c, d) == RecordOf(t, c, d)
  {
    SortedPairSameKey(a, b, c, d);
  }

  /** One match result as `train` feeds it to the ledger. */
  datatype H2HResult = H2HResult(team1Id: string, team2Id: string, team1Won: bool)

  predicate Beat(r: H2HResult, a: string, b: string) {
    (r.team1Id == a && r.team2Id == b && r.team1Won) || (r.team1Id == b && r.team2Id == a && !r.team1Won)
  }

  /** The number of results in which `a` beat `b`. */
  function WinsOver(rs: seq<H2HResult>, a: string, b: string): nat {
    Count(rs, r => Beat(r, a, b))
  }

  /** The ledger after recording `rs` in order into an empty one. */
  function Replay(rs: seq<H2HResult>): Table {
    if |rs| == 0 then map[]
    else
      var r := rs[|rs| - 1];
      WithResult(Replay(rs[..|rs| - 1]), r.team1Id, r.team2Id, r.team1Won)
  }

  /** The ledger counts: after any sequence of results, the record of two
      distinct teams is the number of times each beat the other. */
  lemma {:induction false} ReplayCounts(rs: seq<H2HResult>, a: string, b: string)
    requires a != b
    ensures RecordOf(Replay(rs), a, b) == (WinsOver(rs, a, b), WinsOver(rs, b, a))
  {
    if |rs| > 0 {
      var n := |rs| - 1;
      var r, t := rs[n], Replay(rs[..n]);
      ReplayCounts(rs[..n], a, b);
      if r.team1Id == a && r.team2Id == b {
        AddIncrements(t, a, b, r.team1Won);
      } else if r.team1Id == b && r.team2Id == a {
        AddSwap(t, b, a, r.team1Won);
        AddIncrements(t, a, b, !r.team1Won);
      } else {
        AddFrame(t, r.team1Id, r.team2Id, r.team1Won, a, b);
      }
    }
  }

  /** Two teams that never met have the record (0, 0); so does a team that
      was never recorded against itself. */
  lemma {:induction false} NeverMetIsZero(rs: seq<H2HResult>, a: string, b: string)
    requires forall i :: 0 <= i < |rs| ==> !Beat(rs[i], a, b) && !Beat(rs[i], b, a)
    ensures RecordOf(Replay(rs), a, b) == (0, 0)
  {
    if |rs| > 0 {
      var n := |rs| - 1;
      var r := rs[n];
      assert !Beat(r, a, b) && !Beat(r, b, a);
      assert forall i :: 0 <= i < n ==> rs[..n][i] == rs[i];
      NeverMetIsZero(rs[..n], a, b);
      AddFrame(Replay(rs[..n]), r.team1Id, r.team2Id, r.team1Won, a, b);
    }
  }


  class HeadToHead {
    var records: Table

    ghost predicate Valid()
      reads this
    {
      SortedKeys(records)
    }

    constructor ()
      ensures Valid() && records == map[]
    {
      records := map[];
    }

    method AddResult(team1Id: string, team2Id: string, team1Won: bool)
      requires Valid()
      modifies this
      ensures Valid()
      ensures records == WithResult(old(records), team1Id, team2Id, team1Won)
    {
      WithResultKeepsSorted(records, team1Id, team2Id, team1Won);
      var key := SortedPair(team1Id, team2Id);
      var t1, t2 := key.0, key.1;
      // `self.records[t1]`: the row, created empty by the defaultdict; the
      // updates below go through to `records`, which holds the same dict
      var row := if t1 in records then records[t1] else map[];
      ghost var fetched := row;
      if t2 !in row {
        row := row[t2 := (0, 0)];
      }
      var (w, l) := row[t2];
      assert (w, l) == if t2 in fetched then fetched[t2] else (0, 0);
      if (team1Id == t1 && team1Won) || (team1Id == t2 && !team1Won) {
        row := row[t2 := (w + 1, l)];
      } else {
        row := row[t2 := (w, l + 1)];
      }
      assert row == fetched[t2 := row[t2]];
      records := records[t1 := row];
    }

    method GetRecord(team1Id: string, team2Id: string) returns (record: (nat, nat))
      requires Valid()
      modifies this
      ensures Valid()
      ensures record == RecordOf(old(records), team1Id, team2Id)
      ensures records == Touched(old(records), SortedPair(team1Id, team2Id).0)
    {
      TouchedKeepsSorted(records, SortedPair(team1Id, team2Id).0);
      var key := SortedPair(team1Id, team2Id);
      var t1, t2 := key.0, key.1;
      if t1 !in records {
        records := records[t1 := map[]];
      }
      if t2 !in records[t1] {
        return (0, 0);
      }
      var (w, l) := records[t1][t2];
      if team1Id == t1 {
        return (w, l);
      }
      return (l, w);
    }
  }

  /** `name_or_code.lower() in team_name.lower()`, for ASCII letters. */
  predicate NameMatches(teamName: string, nameOrCode: string) {
    Contains(Lower(teamName), Lower(nameOrCode))
  }

  class MatchPredictor {
    var h2h: HeadToHead
    /** The id -> name dictionary, in insertion order. */
    var teamNames: seq<(string, string)>

    constructor ()
      ensures fresh(h2h) && h2h.Valid() && h2h.records == map[] && teamNames == []
    {
      h2h := new HeadToHead();
      teamNames := [];
    }

    /** The first id, in dictionary order, whose name contains the query
        regardless of ASCII case; `None` exactly when no name does. */
    method FindTeamId(nameOrCode: string) returns (teamId: Option<string>)
      ensures teamId.None? <==> forall k :: 0 <= k < |teamNames| ==> !NameMatches(teamNames[k].1, nameOrCode)
      ensures teamId.Some? ==>
        exists k :: && 0 <= k < |teamNames| && teamNames[k].0 == teamId.value
                    && NameMatches(teamNames[k].1, nameOrCode)
                    && (forall j :: 0 <= j < k ==> !NameMatches(teamNames[j].1, nameOrCode))
    {
      var nameLower := Lower(nameOrCode);
      for k := 0 to |teamNames|
        invariant forall j :: 0 <= j < k ==> !NameMatches(teamNames[j].1, nameOrCode)
      {
        var (id, name) := teamNames[k];
        if Contains(Lower(name), nameLower) {
          return Some(id);
        }
      }
      return None;
    }
  }
}
