/** Allocation of route tables and fwmarks. */
module Allocation {
  import opened Text

  const MIN_VALUE := 200
  const MAX_TABLE := 65535
  const MAX_MARK := 0x7fff_ffff

  /** The values in use, and among them those that only the system may give up. */
  datatype Pool = Pool(used: set<int>, sticky: set<int>)

  /** Table and mark numbers that route tables, ip rules and routes mention right now. */
  datatype Live = Live(tables: set<int>, marks: set<int>)

  function Usable(values: set<int>): set<int> {
    set v | v in values && v >= MIN_VALUE
  }

  function Refreshed(p: Pool, live: set<int>): Pool {
    Pool(p.used + Usable(live), p.sticky + Usable(live))
  }

  function Take(p: Pool, v: int): Pool {
    if v > 0 then p.(used := p.used + {v}) else p
  }

  function Drop(p: Pool, v: int): Pool {
    if v > 0 && v !in p.sticky then p.(used := p.used - {v}) else p
  }

  /** The smallest value from `low` to `high` that is not in use. */
  ghost predicate IsFirstFree(used: set<int>, low: int, high: int, r: Option<int>) {
    match r
    case Some(v) => low <= v <= high && v !in used && forall u :: low <= u < v ==> u in used
    case None => forall u :: low <= u <= high ==> u in used
  }

  function FirstFree(used: set<int>, low: int, high: int): (r: Option<int>)
    ensures IsFirstFree(used, low, high, r)
    decreases high - low
  {
    if low > high then None
    else if low !in used then Some(low)
    else FirstFree(used, low + 1, high)
  }

  function Got(r: Option<int>): int {
    if r.Some? then r.value else 0
  }

  predicate Reservable(p: Pool, v: int) {
    v <= 0 || (v >= MIN_VALUE && v !in p.used)
  }

  class Allocator {
    var usedTables: set<int>
    var usedMarks: set<int>
    var stickyTables: set<int>
    var stickyMarks: set<int>

    /** `persisted` is what the profiles on disk record, `external` what other installations record. */
    constructor (live: Live, persisted: Live, external: Live)
      ensures Tables() == Pool(Usable(live.tables + persisted.tables + external.tables), Usable(live.tables + external.tables))
      ensures Marks() == Pool(Usable(live.marks + persisted.marks + external.marks), Usable(live.marks + external.marks))
    {
      usedTables := Usable(live.tables) + Usable(persisted.tables) + Usable(external.tables);
      usedMarks := Usable(live.marks) + Usable(persisted.marks) + Usable(external.marks);
      stickyTables := Usable(live.tables) + Usable(external.tables);
      stickyMarks := Usable(live.marks) + Usable(external.marks);
    }

    function Tables(): Pool reads this { Pool(usedTables, stickyTables) }

    function Marks(): Pool reads this { Pool(usedMarks, stickyMarks) }

    method Refresh(live: Live)
      modifies this
      ensures Tables() == Refreshed(old(Tables()), live.tables)
      ensures Marks() == Refreshed(old(Marks()), live.marks)
    {
      usedTables, stickyTables := usedTables + Usable(live.tables), stickyTables + Usable(live.tables);
      usedMarks, stickyMarks := usedMarks + Usable(live.marks), stickyMarks + Usable(live.marks);
    }

    method AllocateTable(live: Live) returns (r: Option<int>)
      modifies this
      ensures r == FirstFree(Refreshed(old(Tables()), live.tables).used, MIN_VALUE, MAX_TABLE)
      ensures Tables() == Take(Refreshed(old(Tables()), live.tables), Got(r))
      ensures Marks() == Refreshed(old(Marks()), live.marks)
    {
      Refresh(live);
      var candidate := MIN_VALUE;
      while candidate <= MAX_TABLE
        invariant MIN_VALUE <= candidate <= MAX_TABLE + 1
        invariant FirstFree(usedTables, candidate, MAX_TABLE) == FirstFree(usedTables, MIN_VALUE, MAX_TABLE)
      {
        if candidate !in usedTables {
          usedTables := usedTables + {candidate};
          return Some(candidate);
        }
        candidate := candidate + 1;
      }
      return None;
    }

    method AllocateMark(live: Live) returns (r: Option<int>)
      modifies this
      ensures r == FirstFree(Refreshed(old(Marks()), live.marks).used, MIN_VALUE, MAX_MARK)
      ensures Marks() == Take(Refreshed(old(Marks()), live.marks), Got(r))
      ensures Tables() == Refreshed(old(Tables()), live.tables)
    {
      Refresh(live);
      var candidate := MIN_VALUE;
      while candidate <= MAX_MARK
        invariant MIN_VALUE <= candidate <= MAX_MARK + 1
        invariant FirstFree(usedMarks, candidate, MAX_MARK) == FirstFree(usedMarks, MIN_VALUE, MAX_MARK)
      {
        if candidate !in usedMarks {
          usedMarks := usedMarks + {candidate};
          return Some(candidate);
        }
        candidate := candidate + 1;
      }
      return None;
    }

    /** Both values or neither: a refused mark gives the table back. */
    method Reserve(live: Live, table: int, mark: int) returns (ok: bool)
      modifies this
      ensures ok == (Reservable(Refreshed(old(Tables()), live.tables), table)
                     && Reservable(Refreshed(old(Marks()), live.marks), mark))
      ensures Tables() == Take(Refreshed(old(Tables()), live.tables), if ok then table else 0)
      ensures Marks() == Take(Refreshed(old(Marks()), live.marks), if ok then mark else 0)
    {
      Refresh(live);
      ghost var before := usedTables;
      if table > 0 {
        if table < MIN_VALUE || table in usedTables {
          return false;
        }
        usedTables := usedTables + {table};
      }
      if mark > 0 {
        if mark < MIN_VALUE || mark in usedMarks {
          if table > 0 {
            usedTables := usedTables - {table};
          }
          assert usedTables == before;
          return false;
        }
        usedMarks := usedMarks + {mark};
      }
      return true;
    }

    method Release(table: int, mark: int)
      modifies this
      ensures Tables() == Drop(old(Tables()), table)
      ensures Marks() == Drop(old(Marks()), mark)
    {
      if table > 0 && table !in stickyTables {
        usedTables := usedTables - {table};
      }
      if mark > 0 && mark !in stickyMarks {
        usedMarks := usedMarks - {mark};
      }
    }
  }

  // ---- Accounting -----------------------------------------------------------

  /**
    The values in use are the sticky ones, those the holders record and those of
    an operation in progress; no value has two holders.
   */
  ghost predicate Accounts(p: Pool, held: map<string, int>, pending: set<int>) {
    && p.used == p.sticky + held.Values + pending
    && (forall m, n :: m in held && n in held && held[m] == held[n] ==> m == n)
    && (forall n :: n in held ==> held[n] >= MIN_VALUE && held[n] !in pending)
  }

  lemma RefreshAccounts(p: Pool, held: map<string, int>, pending: set<int>, live: set<int>)
    requires Accounts(p, held, pending)
    ensures Accounts(Refreshed(p, live), held, pending)
  {
  }

  lemma TakeAccounts(p: Pool, held: map<string, int>, pending: set<int>, v: int)
    requires Accounts(p, held, pending) && (v <= 0 || v !in p.used)
    ensures Accounts(Take(p, v), held, if v > 0 then pending + {v} else pending)
  {
  }

  /** An operation that gives up returns what it took. */
  lemma DropPendingAccounts(p: Pool, held: map<string, int>, v: int)
    requires Accounts(p, held, if v > 0 then {v} else {})
    ensures Accounts(Drop(p, v), held, {})
  {
  }

  /** What was pending is recorded by `name` in place of its previous value. */
  lemma CommitAccounts(p: Pool, held: map<string, int>, name: string, v: int)
    requires v >= MIN_VALUE && Accounts(p, held, {v})
    ensures Accounts(p, held[name := v], if name in held then {held[name]} else {})
  {
    var held' := held[name := v];
    var rest := if name in held then {held[name]} else {};
    assert held'.Values <= held.Values + {v};
    forall x | x in held.Values + {v}
      ensures x in held'.Values + rest
    {
      if x == v {
        assert held'[name] == v;
      } else {
        var n :| n in held && held[n] == x;
        if n != name { assert held'[n] == x; }
      }
    }
  }

  /** A holder leaves. */
  lemma LeaveAccounts(p: Pool, held: map<string, int>, name: string)
    requires Accounts(p, held, {}) && name in held
    ensures Accounts(Drop(p, held[name]), held - {name}, {})
  {
    var held' := held - {name};
    forall x | x in held.Values && x != held[name]
      ensures x in held'.Values
    {
      var n :| n in held && held[n] == x;
      assert held'[n] == x;
    }
    assert held'.Values <= held.Values;
  }
}
