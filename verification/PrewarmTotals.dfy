/** The totals of a prewarm run: how one task's result is added, and why the order of tasks is irrelevant. */
module PrewarmTotals {
  import opened Text
  import opened Folds

  datatype VpnProgress = VpnProgress(totalDomains: nat, domainsProcessed: nat, ipsInserted: nat, errors: nat)

  datatype TaskResult = TaskResult(
    inserted: nat, perVpnDomains: map<string, nat>, perVpnIps: map<string, nat>, perVpnErrors: map<string, nat>,
    v4: seq<string>, v6: seq<string>)

  datatype Task = Task(domain: string, setV4: string, setV6: string)

  datatype Totals = Totals(
    processed: nat, totalIps: nat, perVpn: map<string, VpnProgress>,
    cacheV4: map<string, set<string>>, cacheV6: map<string, set<string>>)

  datatype CachedSetValues = CachedSetValues(v4: set<string>, v6: set<string>)

  const NO_PROGRESS := VpnProgress(0, 0, 0, 0)

  datatype Column = Domains | Ips | Errors

  function Bump(p: VpnProgress, column: Column, count: nat): VpnProgress {
    match column
    case Domains => p.(domainsProcessed := p.domainsProcessed + count)
    case Ips => p.(ipsInserted := p.ipsInserted + count)
    case Errors => p.(errors := p.errors + count)
  }

  function Entry(perVpn: map<string, VpnProgress>, iface: string): VpnProgress {
    if iface in perVpn then perVpn[iface] else NO_PROGRESS
  }

  /** Every count is added to the entry of its interface; a missing entry starts from zero. */
  function Counted(perVpn: map<string, VpnProgress>, column: Column, counts: map<string, nat>): map<string, VpnProgress> {
    map i | i in perVpn.Keys + counts.Keys ::
      if i in counts then Bump(Entry(perVpn, i), column, counts[i]) else perVpn[i]
  }

  method AddCounts(perVpn: map<string, VpnProgress>, column: Column, counts: map<string, nat>) returns (r: map<string, VpnProgress>)
    ensures r == Counted(perVpn, column, counts)
  {
    hide Bump;
    r := perVpn;
    var left := counts.Keys;
    while left != {}
      invariant left <= counts.Keys
      invariant r.Keys == perVpn.Keys + (counts.Keys - left)
      invariant forall i :: i in r ==>
        r[i] == if i in counts && i !in left then Bump(Entry(perVpn, i), column, counts[i]) else Entry(perVpn, i)
      decreases left
    {
      var i :| i in left;
      r := r[i := Bump(Entry(r, i), column, counts[i])];
      left := left - {i};
    }
  }

  function Trimmed(ips: seq<string>): set<string> {
    set i | 0 <= i < |ips| && TrimSpace(ips[i]) != "" :: TrimSpace(ips[i])
  }

  function Cached(cache: map<string, set<string>>, name: string): set<string> {
    if name in cache then cache[name] else {}
  }

  function Appended(cache: map<string, set<string>>, name: string, ips: seq<string>): map<string, set<string>> {
    if ips == [] || TrimSpace(name) == "" then cache else cache[name := Cached(cache, name) + Trimmed(ips)]
  }

  method AppendSetIps(cache: map<string, set<string>>, name: string, ips: seq<string>) returns (r: map<string, set<string>>)
    ensures r == Appended(cache, name, ips)
  {
    hide TrimSpace;
    if |ips| == 0 || TrimSpace(name) == "" {
      return cache;
    }
    var existing := Cached(cache, name);
    for i := 0 to |ips|
      invariant existing == Cached(cache, name) + Trimmed(ips[..i])
    {
      TrimmedSnoc(ips, i);
      if TrimSpace(ips[i]) != "" {
        existing := existing + {TrimSpace(ips[i])};
      }
    }
    assert ips[..|ips|] == ips;
    r := cache[name := existing];
  }

  lemma TrimmedSnoc(ips: seq<string>, n: nat)
    requires n < |ips|
    ensures Trimmed(ips[..n + 1]) == Trimmed(ips[..n]) + (if TrimSpace(ips[n]) != "" then {TrimSpace(ips[n])} else {})
  {
    hide TrimSpace;
    var a, b := ips[..n + 1], ips[..n];
    forall x | x in Trimmed(b) + (if TrimSpace(ips[n]) != "" then {TrimSpace(ips[n])} else {})
      ensures x in Trimmed(a)
    {
      if x in Trimmed(b) {
        var i :| 0 <= i < |b| && TrimSpace(b[i]) != "" && x == TrimSpace(b[i]);
        assert a[i] == b[i];
      } else {
        assert a[n] == ips[n];
      }
    }
    forall x | x in Trimmed(a)
      ensures x in Trimmed(b) + (if TrimSpace(ips[n]) != "" then {TrimSpace(ips[n])} else {})
    {
      var i :| 0 <= i < |a| && TrimSpace(a[i]) != "" && x == TrimSpace(a[i]);
      if i < n { assert b[i] == a[i]; }
    }
  }

  /** What the worker adds under the lock when a task is done. */
  function Merged(t: Totals, task: Task, r: TaskResult): Totals {
    Totals(
      t.processed + 1, t.totalIps + r.inserted,
      Counted(Counted(Counted(t.perVpn, Domains, r.perVpnDomains), Ips, r.perVpnIps), Errors, r.perVpnErrors),
      Appended(t.cacheV4, task.setV4, r.v4), Appended(t.cacheV6, task.setV6, r.v6))
  }

  method MergeTask(t: Totals, task: Task, r: TaskResult) returns (t': Totals)
    ensures t' == Merged(t, task, r)
  {
    hide Counted, Appended;
    var perVpn := AddCounts(t.perVpn, Domains, r.perVpnDomains);
    perVpn := AddCounts(perVpn, Ips, r.perVpnIps);
    perVpn := AddCounts(perVpn, Errors, r.perVpnErrors);
    var v4 := AppendSetIps(t.cacheV4, task.setV4, r.v4);
    var v6 := AppendSetIps(t.cacheV6, task.setV6, r.v6);
    return Totals(t.processed + 1, t.totalIps + r.inserted, perVpn, v4, v6);
  }

  /** A set is in the snapshot iff one of the caches has it. */
  function Snapshot(v4: map<string, set<string>>, v6: map<string, set<string>>): map<string, CachedSetValues> {
    map n | n in v4.Keys + v6.Keys :: CachedSetValues(Cached(v4, n), Cached(v6, n))
  }

  method MaterializeCacheSnapshot(v4: map<string, set<string>>, v6: map<string, set<string>>)
    returns (snapshot: map<string, CachedSetValues>)
    ensures snapshot == Snapshot(v4, v6)
    ensures forall n :: n in snapshot ==> (n in v4 ==> snapshot[n].v4 == v4[n]) && (n in v6 ==> snapshot[n].v6 == v6[n])
  {
    snapshot := map[];
    var left := v4.Keys;
    while left != {}
      invariant left <= v4.Keys
      invariant snapshot == map n | n in v4 && n !in left :: CachedSetValues(v4[n], {})
      decreases left
    {
      var n :| n in left;
      snapshot, left := snapshot[n := CachedSetValues(v4[n], {})], left - {n};
    }
    left := v6.Keys;
    while left != {}
      invariant left <= v6.Keys
      invariant snapshot.Keys == v4.Keys + (v6.Keys - left)
      invariant forall n :: n in snapshot ==> snapshot[n] == CachedSetValues(Cached(v4, n), if n in left then {} else Cached(v6, n))
      decreases left
    {
      var n :| n in left;
      var entry := if n in snapshot then snapshot[n] else CachedSetValues({}, {});
      snapshot, left := snapshot[n := entry.(v6 := v6[n])], left - {n};
    }
  }

  // ---- Order does not matter ------------------------------------------------

  function CountOf(counts: map<string, nat>, iface: string): nat {
    if iface in counts then counts[iface] else 0
  }

  lemma CountedAt(p: map<string, VpnProgress>, c: Column, a: map<string, nat>, i: string)
    ensures Counted(p, c, a).Keys == p.Keys + a.Keys
    ensures Entry(Counted(p, c, a), i) == Bump(Entry(p, i), c, CountOf(a, i))
  {
  }

  lemma BumpCommute(p: VpnProgress, c: Column, a: nat, d: Column, b: nat)
    ensures Bump(Bump(p, c, a), d, b) == Bump(Bump(p, d, b), c, a)
  {
  }

  lemma CountedCommute(p: map<string, VpnProgress>, c: Column, a: map<string, nat>, d: Column, b: map<string, nat>)
    ensures Counted(Counted(p, c, a), d, b) == Counted(Counted(p, d, b), c, a)
  {
    hide Counted, Bump;
    var l, r := Counted(Counted(p, c, a), d, b), Counted(Counted(p, d, b), c, a);
    CountedAt(p, c, a, "");
    CountedAt(p, d, b, "");
    CountedAt(Counted(p, c, a), d, b, "");
    CountedAt(Counted(p, d, b), c, a, "");
    assert l.Keys == r.Keys;
    forall i | i in l
      ensures Entry(l, i) == Entry(r, i)
    {
      CountedAt(p, c, a, i);
      CountedAt(p, d, b, i);
      CountedAt(Counted(p, c, a), d, b, i);
      CountedAt(Counted(p, d, b), c, a, i);
      BumpCommute(Entry(p, i), c, CountOf(a, i), d, CountOf(b, i));
    }
    assert forall i :: i in l ==> l[i] == Entry(l, i) && r[i] == Entry(r, i);
  }

  lemma AppendedCommute(c: map<string, set<string>>, m: string, a: seq<string>, n: string, b: seq<string>)
    ensures Appended(Appended(c, m, a), n, b) == Appended(Appended(c, n, b), m, a)
  {
    hide TrimSpace, Trimmed;
    if m == n {
      assert (Cached(c, m) + Trimmed(a)) + Trimmed(b) == (Cached(c, m) + Trimmed(b)) + Trimmed(a);
      assert c[m := Cached(c, m) + Trimmed(a)][m := Cached(c, m) + Trimmed(a) + Trimmed(b)] == c[m := Cached(c, m) + Trimmed(a) + Trimmed(b)];
      assert c[m := Cached(c, m) + Trimmed(b)][m := Cached(c, m) + Trimmed(a) + Trimmed(b)] == c[m := Cached(c, m) + Trimmed(a) + Trimmed(b)];
    } else {
      var x, y := Cached(c, m) + Trimmed(a), Cached(c, n) + Trimmed(b);
      assert c[m := x][n := y] == c[n := y][m := x];
    }
  }

  lemma ThreeCounts(p: map<string, VpnProgress>, r: TaskResult, d: Column, b: map<string, nat>)
    ensures
      Counted(Counted(Counted(Counted(p, Domains, r.perVpnDomains), Ips, r.perVpnIps), Errors, r.perVpnErrors), d, b)
      == Counted(Counted(Counted(Counted(p, d, b), Domains, r.perVpnDomains), Ips, r.perVpnIps), Errors, r.perVpnErrors)
  {
    hide Counted;
    var q := Counted(p, Domains, r.perVpnDomains);
    CountedCommute(Counted(q, Ips, r.perVpnIps), Errors, r.perVpnErrors, d, b);
    CountedCommute(q, Ips, r.perVpnIps, d, b);
    CountedCommute(p, Domains, r.perVpnDomains, d, b);
  }

  /** Two tasks may finish in either order. */
  lemma MergedCommute(t: Totals, a: Task, r: TaskResult, b: Task, s: TaskResult)
    ensures Merged(Merged(t, a, r), b, s) == Merged(Merged(t, b, s), a, r)
  {
    hide Counted, Appended;
    ThreeCounts(t.perVpn, r, Domains, s.perVpnDomains);
    var p := Counted(t.perVpn, Domains, s.perVpnDomains);
    ThreeCounts(p, r, Ips, s.perVpnIps);
    ThreeCounts(Counted(p, Ips, s.perVpnIps), r, Errors, s.perVpnErrors);
    AppendedCommute(t.cacheV4, a.setV4, r.v4, b.setV4, s.v4);
    AppendedCommute(t.cacheV6, a.setV6, r.v6, b.setV6, s.v6);
  }

  /** The tasks of a run and what each of them yields. */
  datatype Job = Job(task: Task, result: TaskResult)

  function MergeJob(t: Totals, job: Job): Totals {
    Merged(t, job.task, job.result)
  }

  function MergedAll(start: Totals, jobs: seq<Job>): Totals {
    Fold(MergeJob, start, jobs)
  }

  /** Merging the same jobs in another order gives the same totals and the same caches. */
  lemma MergeOrderIrrelevant(start: Totals, a: seq<Job>, b: seq<Job>)
    requires multiset(a) == multiset(b)
    ensures MergedAll(start, a) == MergedAll(start, b)
  {
    hide Merged;
    forall t, x, y ensures MergeJob(MergeJob(t, x), y) == MergeJob(MergeJob(t, y), x) {
      MergedCommute(t, x.task, x.result, y.task, y.result);
    }
    OrderIrrelevant(MergeJob, start, a, b);
  }

  // ---- What the totals mean -------------------------------------------------

  /** What the jobs inserted in all. */
  function SumInserted(jobs: seq<Job>): nat {
    if jobs == [] then 0 else SumInserted(jobs[..|jobs| - 1]) + jobs[|jobs| - 1].result.inserted
  }

  function CountsFor(r: TaskResult, column: Column): map<string, nat> {
    match column
    case Domains => r.perVpnDomains
    case Ips => r.perVpnIps
    case Errors => r.perVpnErrors
  }

  /** What the jobs counted in one column for an interface. */
  function SumCounts(jobs: seq<Job>, column: Column, iface: string): nat {
    if jobs == [] then 0
    else SumCounts(jobs[..|jobs| - 1], column, iface) + CountOf(CountsFor(jobs[|jobs| - 1].result, column), iface)
  }

  /** The address is one of those found, without white space around it. */
  ghost predicate Found(ips: seq<string>, a: string) {
    a != "" && exists i :: 0 <= i < |ips| && TrimSpace(ips[i]) == a
  }

  /** Some job with IPv4 set `n` found the address. */
  ghost predicate FoundV4(jobs: seq<Job>, n: string, a: string) {
    exists j :: 0 <= j < |jobs| && jobs[j].task.setV4 == n && Found(jobs[j].result.v4, a)
  }

  ghost predicate FoundV6(jobs: seq<Job>, n: string, a: string) {
    exists j :: 0 <= j < |jobs| && jobs[j].task.setV6 == n && Found(jobs[j].result.v6, a)
  }

  lemma AppendedHas(cache: map<string, set<string>>, name: string, ips: seq<string>, n: string, a: string)
    ensures a in Cached(Appended(cache, name, ips), n) <==> a in Cached(cache, n) || (n == name && TrimSpace(n) != "" && Found(ips, a))
  {
    hide TrimSpace;
  }

  /** After the jobs the caches hold what they held and what the jobs of each set found. */
  ghost predicate CachesAre(start: Totals, jobs: seq<Job>, t: Totals) {
    && (forall n, a :: a in Cached(t.cacheV4, n) <==> a in Cached(start.cacheV4, n) || (TrimSpace(n) != "" && FoundV4(jobs, n, a)))
    && (forall n, a :: a in Cached(t.cacheV6, n) <==> a in Cached(start.cacheV6, n) || (TrimSpace(n) != "" && FoundV6(jobs, n, a)))
  }

  /** After the jobs every interface has its former counts and those of the jobs. */
  ghost predicate CountsAre(start: Totals, jobs: seq<Job>, t: Totals) {
    forall i ::
      && Entry(t.perVpn, i).totalDomains == Entry(start.perVpn, i).totalDomains
      && Entry(t.perVpn, i).domainsProcessed == Entry(start.perVpn, i).domainsProcessed + SumCounts(jobs, Domains, i)
      && Entry(t.perVpn, i).ipsInserted == Entry(start.perVpn, i).ipsInserted + SumCounts(jobs, Ips, i)
      && Entry(t.perVpn, i).errors == Entry(start.perVpn, i).errors + SumCounts(jobs, Errors, i)
  }

  lemma FoundSplit(jobs: seq<Job>, n: string, a: string)
    requires jobs != []
    ensures var m := |jobs| - 1;
      && (FoundV4(jobs, n, a) <==> FoundV4(jobs[..m], n, a) || (jobs[m].task.setV4 == n && Found(jobs[m].result.v4, a)))
      && (FoundV6(jobs, n, a) <==> FoundV6(jobs[..m], n, a) || (jobs[m].task.setV6 == n && Found(jobs[m].result.v6, a)))
  {
    hide Found;
    var m := |jobs| - 1;
    assert forall j :: 0 <= j < m ==> jobs[..m][j] == jobs[j];
  }

  lemma MergedCaches(start: Totals, jobs: seq<Job>, t: Totals)
    requires jobs != [] && CachesAre(start, jobs[..|jobs| - 1], t)
    ensures CachesAre(start, jobs, MergeJob(t, jobs[|jobs| - 1]))
  {
    hide TrimSpace, Appended, Cached, FoundV4, FoundV6, Found, Counted;
    var job := jobs[|jobs| - 1];
    var t' := MergeJob(t, job);
    forall n, a
      ensures a in Cached(t'.cacheV4, n) <==> a in Cached(start.cacheV4, n) || (TrimSpace(n) != "" && FoundV4(jobs, n, a))
      ensures a in Cached(t'.cacheV6, n) <==> a in Cached(start.cacheV6, n) || (TrimSpace(n) != "" && FoundV6(jobs, n, a))
    {
      AppendedHas(t.cacheV4, job.task.setV4, job.result.v4, n, a);
      AppendedHas(t.cacheV6, job.task.setV6, job.result.v6, n, a);
      FoundSplit(jobs, n, a);
    }
  }

  lemma MergedCounts(start: Totals, jobs: seq<Job>, t: Totals)
    requires jobs != [] && CountsAre(start, jobs[..|jobs| - 1], t)
    ensures CountsAre(start, jobs, MergeJob(t, jobs[|jobs| - 1]))
  {
    hide Counted, Appended;
    var r := jobs[|jobs| - 1].result;
    var p1 := Counted(t.perVpn, Domains, r.perVpnDomains);
    var p2 := Counted(p1, Ips, r.perVpnIps);
    forall i: string ensures Entry(Counted(p2, Errors, r.perVpnErrors), i) ==
        Bump(Bump(Bump(Entry(t.perVpn, i), Domains, CountOf(r.perVpnDomains, i)), Ips, CountOf(r.perVpnIps, i)), Errors, CountOf(r.perVpnErrors, i))
    {
      CountedAt(t.perVpn, Domains, r.perVpnDomains, i);
      CountedAt(p1, Ips, r.perVpnIps, i);
      CountedAt(p2, Errors, r.perVpnErrors, i);
    }
  }

  /**
    The totals after any jobs: the number of tasks and of inserted addresses, the counts
    of every interface, and in each cache exactly the addresses that were there or that
    a task with that set found for that family.
   */
  lemma {:induction false} MergedAllMeans(start: Totals, jobs: seq<Job>)
    ensures var t := MergedAll(start, jobs);
      && t.processed == start.processed + |jobs| && t.totalIps == start.totalIps + SumInserted(jobs)
      && CountsAre(start, jobs, t) && CachesAre(start, jobs, t)
  {
    hide Counted, Appended, CountsAre, CachesAre, Merged;
    if jobs == [] {
      NoJobs(start);
    } else {
      var n := |jobs| - 1;
      MergedAllMeans(start, jobs[..n]);
      var t := MergedAll(start, jobs[..n]);
      MergedCounts(start, jobs, t);
      MergedCaches(start, jobs, t);
      MergedSums(t, jobs[n]);
    }
  }

  lemma NoJobs(start: Totals)
    ensures CountsAre(start, [], start) && CachesAre(start, [], start)
  {
  }

  lemma MergedSums(t: Totals, job: Job)
    ensures MergeJob(t, job).processed == t.processed + 1 && MergeJob(t, job).totalIps == t.totalIps + job.result.inserted
  {
  }
}
