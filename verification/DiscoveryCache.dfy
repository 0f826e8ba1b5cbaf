/**
  The caches of resolved and prewarmed destinations: rows with the time of their
  last refresh, of which only those of the last 24 hours are ever returned. The
  resolver cache keys its rows by selector, the prewarm cache by set name.
 */
module DiscoveryCache {
  import opened Netfilter
  import opened Text

  const RETENTION := 24 * 60 * 60

  datatype Key = SelectorKey(kind: string, key: string) | SetKey(name: string)

  datatype Row = Row(key: Key, family: Family, cidr: string)

  type Table = map<Row, int>

  /** One statement of a committed transaction, with the clock it read. */
  datatype Statement = Put(row: Row, at: int) | Purge(at: int) | Clear(at: int)

  function Unexpired(rows: Table, now: int): Table {
    map r | r in rows && rows[r] >= now - RETENTION :: rows[r]
  }

  function Ran(rows: Table, s: Statement): Table {
    match s
    case Put(row, at) => rows[row := at]
    case Purge(at) => Unexpired(rows, at)
    case Clear(_) => map[]
  }

  function TableAfter(run: seq<Statement>): Table {
    if run == [] then map[] else Ran(TableAfter(run[..|run| - 1]), run[|run| - 1])
  }

  ghost predicate InOrder(run: seq<Statement>, now: int) {
    && (forall i, j :: 0 <= i < j < |run| ==> run[i].at <= run[j].at)
    && (forall i :: 0 <= i < |run| ==> run[i].at <= now)
  }

  // ---- The simple log -------------------------------------------------------

  /** When the row was last put since the last clear. Purges play no part. */
  function LastPut(run: seq<Statement>, row: Row): Option<int> {
    if run == [] then None
    else
      var s := run[|run| - 1];
      if s.Clear? then None
      else if s.Put? && s.row == row then Some(s.at)
      else LastPut(run[..|run| - 1], row)
  }

  ghost predicate Fresh(run: seq<Statement>, row: Row, now: int) {
    LastPut(run, row).Some? && LastPut(run, row).value >= now - RETENTION
  }

  lemma OrderPrefix(run: seq<Statement>, now: int)
    requires run != [] && InOrder(run, now)
    ensures InOrder(run[..|run| - 1], run[|run| - 1].at)
  {
  }

  /** The table agrees with the log on every row that a load may still return. */
  lemma {:induction false} TableIsLog(run: seq<Statement>, now: int, row: Row)
    requires InOrder(run, now)
    ensures row in TableAfter(run) ==> LastPut(run, row) == Some(TableAfter(run)[row])
    ensures LastPut(run, row).Some? && LastPut(run, row).value >= now - RETENTION ==> row in TableAfter(run)
  {
    if run != [] {
      OrderPrefix(run, now);
      TableIsLog(run[..|run| - 1], run[|run| - 1].at, row);
    }
  }

  /** A load returns exactly the rows that were last put within 24 hours and not cleared since. */
  lemma {:induction false} LoadIsLog(run: seq<Statement>, now: int, row: Row)
    requires InOrder(run, now)
    ensures row in Unexpired(TableAfter(run), now) <==> Fresh(run, row, now)
  {
    TableIsLog(run, now, row);
  }

  function WithoutPurges(run: seq<Statement>): seq<Statement> {
    if run == [] then []
    else
      var before, s := WithoutPurges(run[..|run| - 1]), run[|run| - 1];
      if s.Purge? then before else before + [s]
  }

  lemma {:induction false} WithoutPurgesInOrder(run: seq<Statement>, now: int)
    requires InOrder(run, now)
    ensures InOrder(WithoutPurges(run), now)
  {
    if run != [] {
      var n := |run| - 1;
      OrderPrefix(run, now);
      WithoutPurgesInOrder(run[..n], run[n].at);
    }
  }

  lemma {:induction false} PurgesPutNothing(run: seq<Statement>, row: Row)
    ensures LastPut(WithoutPurges(run), row) == LastPut(run, row)
  {
    if run != [] {
      var n := |run| - 1;
      PurgesPutNothing(run[..n], row);
      var before := WithoutPurges(run[..n]);
      assert (before + [run[n]])[..|before|] == before;
    }
  }

  /** Purging cannot be observed. */
  lemma PurgingIsUnobservable(run: seq<Statement>, now: int)
    requires InOrder(run, now)
    ensures Unexpired(TableAfter(run), now) == Unexpired(TableAfter(WithoutPurges(run)), now)
  {
    WithoutPurgesInOrder(run, now);
    var a, b := Unexpired(TableAfter(run), now), Unexpired(TableAfter(WithoutPurges(run)), now);
    forall row: Row
      ensures row in a <==> row in b
      ensures row in a ==> a[row] == b[row]
    {
      TableIsLog(run, now, row);
      TableIsLog(WithoutPurges(run), now, row);
      PurgesPutNothing(run, row);
    }
  }

  // ---- The store ------------------------------------------------------------

  datatype Values = Values(v4: set<string>, v6: set<string>)

  type Snapshot = map<Key, Values>

  function RowsOf(key: Key, family: Family, cidrs: set<string>): set<Row> {
    set c | c in cidrs :: Row(key, family, c)
  }

  function RowsOfKey(s: Snapshot, key: Key): set<Row>
    requires key in s
  {
    RowsOf(key, V4, s[key].v4) + RowsOf(key, V6, s[key].v6)
  }

  function SnapshotRows(s: Snapshot, keys: set<Key>): set<Row>
    requires keys <= s.Keys
  {
    set k, r | k in keys && r in RowsOfKey(s, k) :: r
  }

  /** The rows put by the statements from the `n`-th on. */
  ghost function PutsFrom(run: seq<Statement>, n: nat): set<Row> {
    set i | n <= i < |run| && run[i].Put? :: run[i].row
  }

  /** Since the `n`-th statement nothing but puts. */
  ghost predicate OnlyPuts(run: seq<Statement>, n: nat) {
    forall i :: n <= i < |run| ==> run[i].Put?
  }

  lemma OrderSnoc(run: seq<Statement>, s: Statement, now: int)
    requires InOrder(run, now) && now <= s.at
    ensures InOrder(run + [s], s.at)
  {
  }

  lemma TableSnoc(run: seq<Statement>, s: Statement)
    ensures TableAfter(run + [s]) == Ran(TableAfter(run), s)
  {
    assert (run + [s])[..|run|] == run;
  }

  lemma PutsSnoc(run: seq<Statement>, n: nat, row: Row, at: int)
    requires n <= |run|
    ensures PutsFrom(run + [Put(row, at)], n) == PutsFrom(run, n) + {row}
  {
    var run' := run + [Put(row, at)];
    assert forall i :: 0 <= i < |run| ==> run'[i] == run[i];
    assert run'[|run|].row == row;
    forall r | r in PutsFrom(run, n)
      ensures r in PutsFrom(run', n)
    {
      var i :| n <= i < |run| && run[i].Put? && run[i].row == r;
      assert run'[i].row == r;
    }
  }

  lemma PutOne(run: seq<Statement>, n: nat, row: Row, at: int, now: int)
    requires n <= |run| && InOrder(run, now) && now <= at && OnlyPuts(run, n)
    ensures
      var run' := run + [Put(row, at)];
      && PutsFrom(run', n) == PutsFrom(run, n) + {row} && OnlyPuts(run', n) && InOrder(run', at)
      && TableAfter(run') == TableAfter(run)[row := at]
  {
    hide PutsFrom, InOrder, TableAfter;
    PutsSnoc(run, n, row, at);
    OrderSnoc(run, Put(row, at), now);
    TableSnoc(run, Put(row, at));
  }

  lemma OrderLater(run: seq<Statement>, now: int, later: int)
    requires InOrder(run, now) && now <= later
    ensures InOrder(run, later)
  {
  }

  class Store {
    var rows: Table
    var clock: int
    var steps: nat
    const ticks: nat -> nat
    const fails: nat -> bool
    ghost var run: seq<Statement>

    constructor (ticks: nat -> nat, fails: nat -> bool)
      ensures Valid() && run == []
    {
      rows, clock, steps, run := map[], 0, 0, [];
      this.ticks, this.fails := ticks, fails;
    }

    ghost predicate Valid() reads this {
      rows == TableAfter(run) && InOrder(run, clock)
    }

    ghost predicate Flawless() {
      forall n :: !fails(n)
    }

    /** The clock never goes back. */
    method Now() returns (t: int)
      modifies this`clock, this`steps
      ensures t == clock >= old(clock)
    {
      clock := clock + ticks(steps);
      steps := steps + 1;
      return clock;
    }

    method Fault() returns (fault: bool)
      modifies this`steps
      ensures Flawless() ==> !fault
    {
      fault := fails(steps);
      steps := steps + 1;
    }

    /** Puts one list of addresses of one key within a transaction that has run `before` so far. */
    method PutAll(key: Key, family: Family, cidrs: set<string>, pending: Table, ghost before: seq<Statement>, ghost n: nat)
      returns (ok: bool, result: Table, ghost done: seq<Statement>)
      requires pending == TableAfter(before) && InOrder(before, clock) && n <= |before| && OnlyPuts(before, n)
      modifies this`clock, this`steps
      ensures clock >= old(clock)
      ensures ok ==> before <= done && result == TableAfter(done) && InOrder(done, clock) && OnlyPuts(done, n)
      ensures ok ==> PutsFrom(done, n) == PutsFrom(before, n) + RowsOf(key, family, cidrs)
      ensures Flawless() ==> ok
    {
      hide InOrder, TableAfter, PutsFrom, OnlyPuts;
      result, done, ok := pending, before, true;
      var left := cidrs;
      while left != {}
        invariant ok && left <= cidrs && clock >= old(clock)
        invariant before <= done && result == TableAfter(done) && InOrder(done, clock) && OnlyPuts(done, n)
        invariant PutsFrom(done, n) == PutsFrom(before, n) + RowsOf(key, family, cidrs - left)
        decreases left
      {
        var c :| c in left;
        var fault := Fault();
        if fault {
          return false, result, done;
        }
        ghost var t0 := clock;
        var t := Now();
        PutOne(done, n, Row(key, family, c), t, t0);
        result := result[Row(key, family, c) := t];
        done := done + [Put(Row(key, family, c), t)];
        assert RowsOf(key, family, cidrs - (left - {c})) == RowsOf(key, family, cidrs - left) + {Row(key, family, c)};
        left := left - {c};
      }
      assert cidrs - left == cidrs;
    }

    /** All rows of a snapshot, in a transaction that has run `before` so far. */
    method PutSnapshot(s: Snapshot, pending: Table, ghost before: seq<Statement>)
      returns (ok: bool, result: Table, ghost done: seq<Statement>)
      requires pending == TableAfter(before) && InOrder(before, clock)
      modifies this`clock, this`steps
      ensures clock >= old(clock)
      ensures ok ==> before <= done && result == TableAfter(done) && InOrder(done, clock) && OnlyPuts(done, |before|)
      ensures ok ==> PutsFrom(done, |before|) == SnapshotRows(s, s.Keys)
      ensures Flawless() ==> ok
    {
      hide InOrder, TableAfter, RowsOf;
      result, done, ok := pending, before, true;
      var left := s.Keys;
      ghost var n := |before|;
      while left != {}
        invariant ok && left <= s.Keys && clock >= old(clock)
        invariant before <= done && result == TableAfter(done) && InOrder(done, clock) && OnlyPuts(done, n)
        invariant PutsFrom(done, n) == SnapshotRows(s, s.Keys - left)
        decreases left
      {
        hide PutsFrom, OnlyPuts;
        var k :| k in left;
        ok, result, done := PutAll(k, V4, s[k].v4, result, done, n);
        if !ok {
          return;
        }
        ok, result, done := PutAll(k, V6, s[k].v6, result, done, n);
        if !ok {
          return;
        }
        MoreRows(s, s.Keys - left, k);
        assert s.Keys - (left - {k}) == s.Keys - left + {k};
        left := left - {k};
      }
      assert s.Keys - left == s.Keys;
    }

    /** Purges what is too old, in a transaction that has run `before` so far. */
    method PurgeRows(pending: Table, ghost before: seq<Statement>) returns (ok: bool, result: Table, ghost done: seq<Statement>)
      requires pending == TableAfter(before) && InOrder(before, clock)
      modifies this`clock, this`steps
      ensures clock >= old(clock)
      ensures ok ==> done == before + [Purge(clock)] && result == TableAfter(done) && InOrder(done, clock)
      ensures Flawless() ==> ok
    {
      hide InOrder, Unexpired;
      ghost var t0 := clock;
      var fault := Fault();
      if fault {
        return false, pending, before;
      }
      var t := Now();
      done := before + [Purge(t)];
      PurgeOne(before, t, t0);
      return true, Unexpired(pending, t), done;
    }

    /** Refreshes the rows of a snapshot and purges, or changes nothing. */
    method UpsertSnapshot(s: Snapshot) returns (ok: bool)
      requires Valid()
      modifies this
      ensures Valid() && clock >= old(clock)
      ensures !ok ==> run == old(run) && rows == old(rows)
      ensures ok ==> Refreshes(old(run), run, s)
      ensures Flawless() ==> ok
    {
      hide InOrder, TableAfter, PutsFrom, OnlyPuts, SnapshotRows;
      ghost var before, t0 := run, clock;
      var pending; ghost var done;
      ok, pending, done := PutSnapshot(s, rows, run);
      if ok {
        ghost var puts := done;
        ok, pending, done := PurgeRows(pending, done);
        if ok {
          var fault := Fault();
          ok := !fault;
          if ok {
            rows, run := pending, done;
            assert run[..|run| - 1] == puts;
            return;
          }
        }
      }
      OrderLater(run, t0, clock);
    }

    /** The snapshot takes the place of all rows, or nothing changes. */
    method ReplaceSnapshot(s: Snapshot) returns (ok: bool)
      requires Valid()
      modifies this
      ensures Valid() && clock >= old(clock)
      ensures !ok ==> run == old(run) && rows == old(rows)
      ensures ok ==> exists t :: Refreshes(old(run) + [Clear(t)], run, s)
      ensures Flawless() ==> ok
    {
      hide InOrder, TableAfter, PutsFrom, OnlyPuts, SnapshotRows;
      ghost var t0 := clock;
      var fault := Fault();
      if fault {
        return false;
      }
      var t := Now();
      ghost var cleared := run + [Clear(t)];
      OrderSnoc(run, Clear(t), t0);
      TableSnoc(run, Clear(t));
      var pending; ghost var done;
      ok, pending, done := PutSnapshot(s, map[], cleared);
      if ok {
        ghost var puts := done;
        ok, pending, done := PurgeRows(pending, done);
        if ok {
          fault := Fault();
          ok := !fault;
          if ok {
            rows, run := pending, done;
            assert run[..|run| - 1] == puts;
            assert Refreshes(cleared, run, s);
            return;
          }
        }
      }
      OrderLater(run, t0, clock);
    }

    method ClearCache() returns (ok: bool)
      requires Valid()
      modifies this
      ensures Valid() && clock >= old(clock)
      ensures run == if ok then old(run) + [Clear(clock)] else old(run)
      ensures Flawless() ==> ok
    {
      hide InOrder, TableAfter;
      ghost var t0 := clock;
      var fault := Fault();
      if fault {
        return false;
      }
      var t := Now();
      OrderSnoc(run, Clear(t), t0);
      TableSnoc(run, Clear(t));
      rows, run := map[], run + [Clear(t)];
      return true;
    }

    method PurgeExpired() returns (ok: bool)
      requires Valid()
      modifies this
      ensures Valid() && clock >= old(clock)
      ensures run == if ok then old(run) + [Purge(clock)] else old(run)
      ensures Flawless() ==> ok
    {
      hide InOrder, TableAfter;
      ghost var t0 := clock;
      var pending; ghost var done;
      ok, pending, done := PurgeRows(rows, run);
      if ok {
        rows, run := pending, done;
      } else {
        OrderLater(run, t0, clock);
      }
    }

    /** Returns exactly the rows last refreshed within 24 hours and not cleared since, by key and family. */
    method LoadSnapshot() returns (r: Snapshot)
      requires Valid()
      modifies this`clock, this`steps
      ensures Valid() && clock >= old(clock)
      ensures forall row: Row :: Listed(r, row) <==> Fresh(run, row, clock)
      ensures forall k :: k in r ==> exists row: Row :: row.key == k && Fresh(run, row, clock)
    {
      hide InOrder, TableAfter, Fresh, Listed;
      ghost var t0 := clock;
      var t := Now();
      OrderLater(run, t0, t);
      r := GroupRows(Unexpired(rows, t));
      forall row: Row
        ensures row in Unexpired(rows, t) <==> Fresh(run, row, t)
      {
        LoadIsLog(run, t, row);
      }
    }
  }

  /** Collects the rows by key and family. */
  method GroupRows(rows: Table) returns (r: Snapshot)
    ensures forall row: Row :: Listed(r, row) <==> row in rows
    ensures forall k :: k in r ==> exists row: Row :: row.key == k && row in rows
  {
    hide Listed;
    ListedNone();
    var left := rows.Keys;
    r := map[];
    while left != {}
      invariant left <= rows.Keys
      invariant forall row: Row :: Listed(r, row) <==> row in rows && row !in left
      invariant forall k :: k in r ==> exists row: Row :: row.key == k && row in rows
      decreases left
    {
      var row :| row in left;
      var entry := if row.key in r then r[row.key] else Values({}, {});
      entry := if row.family.V6? then entry.(v6 := entry.v6 + {row.cidr}) else entry.(v4 := entry.v4 + {row.cidr});
      ListedMore(r, row, entry);
      r := r[row.key := entry];
      left := left - {row};
    }
  }

  predicate Listed(s: Snapshot, row: Row) {
    row.key in s && row.cidr in (if row.family.V4? then s[row.key].v4 else s[row.key].v6)
  }

  lemma ListedNone()
    ensures forall x: Row :: !Listed(map[], x)
  {
  }

  lemma ListedMore(s: Snapshot, row: Row, entry: Values)
    requires
      var was := if row.key in s then s[row.key] else Values({}, {});
      entry == if row.family.V6? then was.(v6 := was.v6 + {row.cidr}) else was.(v4 := was.v4 + {row.cidr})
    ensures forall x: Row :: Listed(s[row.key := entry], x) <==> Listed(s, x) || x == row
  {
    forall x: Row
      ensures Listed(s[row.key := entry], x) <==> Listed(s, x) || x == row
    {
      if x.key == row.key && x.family == row.family && x.cidr == row.cidr {
        assert x == row;
      }
    }
  }

  /** `after` is `before`, then a put of every row of the snapshot and of no other, then a purge. */
  ghost predicate Refreshes(before: seq<Statement>, after: seq<Statement>, s: Snapshot) {
    && before < after && after[|after| - 1].Purge?
    && OnlyPuts(after[..|after| - 1], |before|)
    && PutsFrom(after[..|after| - 1], |before|) == SnapshotRows(s, s.Keys)
  }

  lemma PurgeOne(run: seq<Statement>, at: int, now: int)
    requires InOrder(run, now) && now <= at
    ensures InOrder(run + [Purge(at)], at) && TableAfter(run + [Purge(at)]) == Unexpired(TableAfter(run), at)
  {
    OrderSnoc(run, Purge(at), now);
    TableSnoc(run, Purge(at));
  }

  lemma MoreRows(s: Snapshot, keys: set<Key>, k: Key)
    requires keys <= s.Keys && k in s
    ensures SnapshotRows(s, keys + {k}) == SnapshotRows(s, keys) + RowsOfKey(s, k)
  {
    hide RowsOfKey;
  }

  // ---- What a snapshot leaves -----------------------------------------------

  lemma SnapshotRowsAreListed(s: Snapshot, row: Row)
    ensures row in SnapshotRows(s, s.Keys) <==> Listed(s, row)
  {
    if Listed(s, row) {
      assert row == Row(row.key, row.family, row.cidr);
      assert row in RowsOfKey(s, row.key);
    }
  }

  /** After puts alone a row is fresh iff one of them put it or it was fresh before. */
  lemma {:induction false} PutsRefresh(run: seq<Statement>, n: nat, now: int, row: Row)
    requires n <= |run| && OnlyPuts(run, n) && forall i :: n <= i < |run| ==> run[i].at >= now - RETENTION
    ensures Fresh(run, row, now) <==> row in PutsFrom(run, n) || Fresh(run[..n], row, now)
    decreases |run|
  {
    if n == |run| {
      assert run[..n] == run;
    } else {
      var m := |run| - 1;
      assert forall i :: n <= i < m ==> run[..m][i] == run[i];
      PutsRefresh(run[..m], n, now, row);
      assert run[..m][..n] == run[..n];
      assert run == run[..m] + [Put(run[m].row, run[m].at)];
      PutsSnoc(run[..m], n, run[m].row, run[m].at);
    }
  }

  /**
    Within 24 hours of storing a snapshot a load returns exactly the snapshot and what
    was fresh before it.
   */
  lemma StoredIsLoaded(before: seq<Statement>, after: seq<Statement>, s: Snapshot, now: int, row: Row)
    requires Refreshes(before, after, s) && forall i :: |before| <= i < |after| ==> after[i].at >= now - RETENTION
    ensures Fresh(after, row, now) <==> Listed(s, row) || Fresh(before, row, now)
  {
    hide Listed, PutsFrom, SnapshotRows;
    var puts := after[..|after| - 1];
    assert forall i :: |before| <= i < |puts| ==> puts[i] == after[i];
    PutsRefresh(puts, |before|, now, row);
    assert puts[..|before|] == before;
    SnapshotRowsAreListed(s, row);
    assert Fresh(after, row, now) <==> Fresh(puts, row, now);
  }

  /** After a replacement it returns exactly the snapshot. */
  lemma ReplacedIsLoaded(before: seq<Statement>, t: int, after: seq<Statement>, s: Snapshot, now: int, row: Row)
    requires Refreshes(before + [Clear(t)], after, s) && forall i :: |before| < i < |after| ==> after[i].at >= now - RETENTION
    ensures Fresh(after, row, now) <==> Listed(s, row)
  {
    StoredIsLoaded(before + [Clear(t)], after, s, now, row);
  }
}
