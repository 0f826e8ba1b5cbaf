/**
  What one prewarm task makes of its query results. Its query goroutines write to
  shared maps under a lock, in any order; every locked section is one finding.
 */
module PrewarmTask {
  import opened Ordering
  import opened Folds
  import opened PrewarmTotals

  datatype Finding =
    | QueryFailed(iface: string)
    | NamesFound(names: set<string>)
    | V4Found(iface: string, ips: set<string>)
    | V6Found(iface: string, ips: set<string>)

  datatype Findings = Findings(
    targets: set<string>, v4: set<string>, v6: set<string>,
    perV4: map<string, set<string>>, perV6: map<string, set<string>>, errors: map<string, nat>)

  function Start(domain: string, ifaces: set<string>): Findings {
    Findings({domain}, {}, {}, map i | i in ifaces :: {}, map i | i in ifaces :: {}, map[])
  }

  function Noted(a: Findings, f: Finding): Findings {
    match f
    case QueryFailed(i) => a.(errors := a.errors[i := CountOf(a.errors, i) + 1])
    case NamesFound(names) => a.(targets := a.targets + (names - {""}))
    case V4Found(i, ips) => a.(v4 := a.v4 + ips, perV4 := a.perV4[i := Cached(a.perV4, i) + ips])
    case V6Found(i, ips) => a.(v6 := a.v6 + ips, perV6 := a.perV6[i := Cached(a.perV6, i) + ips])
  }

  function NotedAll(a: Findings, fs: seq<Finding>): Findings {
    Fold(Noted, a, fs)
  }

  lemma AddedCommute(m: map<string, set<string>>, i: string, x: set<string>, j: string, y: set<string>)
    ensures
      var mi, mj := m[i := Cached(m, i) + x], m[j := Cached(m, j) + y];
      mi[j := Cached(mi, j) + y] == mj[i := Cached(mj, i) + x]
  {
    var mi, mj := m[i := Cached(m, i) + x], m[j := Cached(m, j) + y];
    assert i == j ==> Cached(m, i) + x + y == Cached(m, i) + y + x;
    assert mi[j := Cached(mi, j) + y].Keys == mj[i := Cached(mj, i) + x].Keys;
  }

  lemma CountedTwice(m: map<string, nat>, i: string, j: string)
    ensures
      var mi, mj := m[i := CountOf(m, i) + 1], m[j := CountOf(m, j) + 1];
      mi[j := CountOf(mi, j) + 1] == mj[i := CountOf(mj, i) + 1]
  {
  }

  /** Two locked sections may come in either order. */
  lemma NotedCommute(a: Findings, f: Finding, g: Finding)
    ensures Noted(Noted(a, f), g) == Noted(Noted(a, g), f)
  {
    if f.QueryFailed? && g.QueryFailed? {
      CountedTwice(a.errors, f.iface, g.iface);
    } else if f.V4Found? && g.V4Found? {
      AddedCommute(a.perV4, f.iface, f.ips, g.iface, g.ips);
      assert a.v4 + f.ips + g.ips == a.v4 + g.ips + f.ips;
    } else if f.V6Found? && g.V6Found? {
      AddedCommute(a.perV6, f.iface, f.ips, g.iface, g.ips);
      assert a.v6 + f.ips + g.ips == a.v6 + g.ips + f.ips;
    } else if f.NamesFound? && g.NamesFound? {
      assert a.targets + (f.names - {""}) + (g.names - {""}) == a.targets + (g.names - {""}) + (f.names - {""});
    }
  }

  function Inserted(a: Findings, ifaces: set<string>): TaskResult {
    TaskResult(
      |Sorted(a.v4)| + |Sorted(a.v6)|,
      map i | i in ifaces :: 1,
      map i | i in ifaces :: |Cached(a.perV4, i)| + |Cached(a.perV6, i)|,
      a.errors, Sorted(a.v4), Sorted(a.v6))
  }

  /** The result of a task whose discovery and alias queries found `names` and whose address queries found `addresses`. */
  function TaskOutcome(domain: string, ifaces: set<string>, names: seq<Finding>, addresses: seq<Finding>): TaskResult {
    Inserted(NotedAll(NotedAll(Start(domain, ifaces), names), addresses), ifaces)
  }

  /** However the queries of each phase interleave, the targets of the second phase and the result are the same. */
  lemma TaskIsDeterministic(domain: string, ifaces: set<string>, names: seq<Finding>, names': seq<Finding>,
                            addresses: seq<Finding>, addresses': seq<Finding>)
    requires multiset(names) == multiset(names') && multiset(addresses) == multiset(addresses')
    ensures NotedAll(Start(domain, ifaces), names).targets == NotedAll(Start(domain, ifaces), names').targets
    ensures TaskOutcome(domain, ifaces, names, addresses) == TaskOutcome(domain, ifaces, names', addresses')
  {
    hide Noted, Inserted;
    forall a, f, g ensures Noted(Noted(a, f), g) == Noted(Noted(a, g), f) {
      NotedCommute(a, f, g);
    }
    OrderIrrelevant(Noted, Start(domain, ifaces), names, names');
    OrderIrrelevant(Noted, NotedAll(Start(domain, ifaces), names), addresses, addresses');
  }

  // ---- What the result counts -----------------------------------------------

  /** Every address was found through some interface, and every interface's addresses are among all. */
  ghost predicate Consistent(a: Findings) {
    && (forall ip :: ip in a.v4 <==> exists i :: i in a.perV4 && ip in a.perV4[i])
    && (forall ip :: ip in a.v6 <==> exists i :: i in a.perV6 && ip in a.perV6[i])
  }

  lemma GrownUnion(m: map<string, set<string>>, all: set<string>, i: string, x: set<string>)
    requires forall ip :: ip in all <==> exists k :: k in m && ip in m[k]
    ensures var m' := m[i := Cached(m, i) + x];
      forall ip :: ip in all + x <==> exists k :: k in m' && ip in m'[k]
  {
    var m' := m[i := Cached(m, i) + x];
    forall ip
      ensures ip in all + x <==> exists k :: k in m' && ip in m'[k]
    {
      if ip in all {
        var k :| k in m && ip in m[k];
        assert k in m' && ip in m'[k];
      } else if ip in x {
        assert i in m' && ip in m'[i];
      }
    }
  }

  lemma {:induction false} FindingsConsistent(a: Findings, fs: seq<Finding>)
    requires Consistent(a)
    ensures Consistent(NotedAll(a, fs))
  {
    if fs != [] {
      var init, f := fs[..|fs| - 1], fs[|fs| - 1];
      FindingsConsistent(a, init);
      var b := NotedAll(a, init);
      if f.V4Found? {
        GrownUnion(b.perV4, b.v4, f.iface, f.ips);
      } else if f.V6Found? {
        GrownUnion(b.perV6, b.v6, f.iface, f.ips);
      }
    }
  }

  lemma SubsetSize(a: set<string>, b: set<string>)
    requires a <= b
    ensures |a| <= |b|
  {
    if a != {} {
      var x :| x in a;
      SubsetSize(a - {x}, b - {x});
    }
  }

  function Failures(fs: seq<Finding>, iface: string): nat {
    if fs == [] then 0
    else Failures(fs[..|fs| - 1], iface) + if fs[|fs| - 1] == QueryFailed(iface) then 1 else 0
  }

  lemma {:induction false} ErrorsCountFailures(a: Findings, fs: seq<Finding>, iface: string)
    ensures CountOf(NotedAll(a, fs).errors, iface) == CountOf(a.errors, iface) + Failures(fs, iface)
  {
    if fs != [] {
      ErrorsCountFailures(a, fs[..|fs| - 1], iface);
    }
  }

  lemma ConsistentSizes(a: Findings, i: string)
    requires Consistent(a)
    ensures |Cached(a.perV4, i)| <= |a.v4| && |Cached(a.perV6, i)| <= |a.v6|
  {
    assert forall ip :: ip in Cached(a.perV4, i) ==> ip in a.v4;
    assert forall ip :: ip in Cached(a.perV6, i) ==> ip in a.v6;
    SubsetSize(Cached(a.perV4, i), a.v4);
    SubsetSize(Cached(a.perV6, i), a.v6);
  }

  /** No interface inserts more addresses than its task does, and its errors are its failed queries. */
  lemma OutcomeCounts(domain: string, ifaces: set<string>, names: seq<Finding>, addresses: seq<Finding>, iface: string)
    requires iface in ifaces
    ensures var r := TaskOutcome(domain, ifaces, names, addresses);
      && r.perVpnDomains[iface] == 1
      && r.perVpnIps[iface] <= r.inserted
      && CountOf(r.perVpnErrors, iface) == Failures(names, iface) + Failures(addresses, iface)
  {
    hide NotedAll, Failures, Consistent, Sorted;
    var a, b := Start(domain, ifaces), NotedAll(Start(domain, ifaces), names);
    StartConsistent(domain, ifaces);
    FindingsConsistent(a, names);
    FindingsConsistent(b, addresses);
    ErrorsCountFailures(a, names, iface);
    ErrorsCountFailures(b, addresses, iface);
    var c := NotedAll(b, addresses);
    ConsistentSizes(c, iface);
    SortedSize(c.v4);
    SortedSize(c.v6);
  }

  lemma StartConsistent(domain: string, ifaces: set<string>)
    ensures Consistent(Start(domain, ifaces))
  {
  }

  // ---- What the result holds ------------------------------------------------

  /** The IPv4 addresses found through the interfaces that `through` admits. */
  function V4In(fs: seq<Finding>, through: string -> bool): set<string> {
    if fs == [] then {}
    else V4In(fs[..|fs| - 1], through) + NewV4(fs[|fs| - 1], through)
  }

  function V6In(fs: seq<Finding>, through: string -> bool): set<string> {
    if fs == [] then {}
    else V6In(fs[..|fs| - 1], through) + NewV6(fs[|fs| - 1], through)
  }

  function NamesIn(fs: seq<Finding>): set<string> {
    if fs == [] then {}
    else NamesIn(fs[..|fs| - 1]) + NewNames(fs[|fs| - 1])
  }

  const ANY: string -> bool := (i: string) => true

  function NewV4(f: Finding, through: string -> bool): set<string> {
    if f.V4Found? && through(f.iface) then f.ips else {}
  }

  function NewV6(f: Finding, through: string -> bool): set<string> {
    if f.V6Found? && through(f.iface) then f.ips else {}
  }

  function NewNames(f: Finding): set<string> {
    if f.NamesFound? then f.names - {""} else {}
  }

  lemma Assoc(a: set<string>, x: set<string>, y: set<string>)
    ensures a + x + y == a + (x + y) && a + {} == a
  {
  }

  lemma NotedOne(b: Findings, f: Finding, iface: string, only: string -> bool)
    requires forall i :: only(i) <==> i == iface
    ensures var c := Noted(b, f);
      && c.v4 == b.v4 + NewV4(f, ANY) && c.v6 == b.v6 + NewV6(f, ANY) && c.targets == b.targets + NewNames(f)
      && Cached(c.perV4, iface) == Cached(b.perV4, iface) + NewV4(f, only)
      && Cached(c.perV6, iface) == Cached(b.perV6, iface) + NewV6(f, only)
  {
    Assoc(b.v4, {}, {});
    Assoc(b.v6, {}, {});
    Assoc(b.targets, {}, {});
    Assoc(Cached(b.perV4, iface), {}, {});
    Assoc(Cached(b.perV6, iface), {}, {});
    assert only(iface);
  }

  lemma {:induction false} NotedHolds(a: Findings, fs: seq<Finding>, iface: string, only: string -> bool)
    requires forall i :: only(i) <==> i == iface
    ensures var b := NotedAll(a, fs);
      && b.v4 == a.v4 + V4In(fs, ANY) && b.v6 == a.v6 + V6In(fs, ANY)
      && Cached(b.perV4, iface) == Cached(a.perV4, iface) + V4In(fs, only)
      && Cached(b.perV6, iface) == Cached(a.perV6, iface) + V6In(fs, only)
      && b.targets == a.targets + NamesIn(fs)
  {
    hide Noted, Cached, NewV4, NewV6, NewNames;
    if fs != [] {
      var n := |fs| - 1;
      NotedHolds(a, fs[..n], iface, only);
      NotedOne(NotedAll(a, fs[..n]), fs[n], iface, only);
      Assoc(a.v4, V4In(fs[..n], ANY), NewV4(fs[n], ANY));
      Assoc(a.v6, V6In(fs[..n], ANY), NewV6(fs[n], ANY));
      Assoc(a.targets, NamesIn(fs[..n]), NewNames(fs[n]));
      Assoc(Cached(a.perV4, iface), V4In(fs[..n], only), NewV4(fs[n], only));
      Assoc(Cached(a.perV6, iface), V6In(fs[..n], only), NewV6(fs[n], only));
    }
  }

  /**
    A task yields exactly the addresses that its queries found, each family in its own
    list, counts each once, and counts for every interface what was found through it;
    its second phase asks for the domain and the names found in the first.
   */
  lemma OutcomeHolds(domain: string, ifaces: set<string>, names: seq<Finding>, addresses: seq<Finding>, iface: string, only: string -> bool)
    requires iface in ifaces && forall i :: only(i) <==> i == iface
    ensures var r := TaskOutcome(domain, ifaces, names, addresses);
      var v4, v6 := V4In(names, ANY) + V4In(addresses, ANY), V6In(names, ANY) + V6In(addresses, ANY);
      && (forall ip :: ip in r.v4 <==> ip in v4) && (forall ip :: ip in r.v6 <==> ip in v6)
      && |r.v4| == |v4| && |r.v6| == |v6| && r.inserted == |v4| + |v6|
      && r.perVpnIps[iface] == |V4In(names, only) + V4In(addresses, only)| + |V6In(names, only) + V6In(addresses, only)|
      && NotedAll(Start(domain, ifaces), names).targets == {domain} + NamesIn(names)
  {
    hide NotedAll, Sorted, V4In, V6In, NamesIn, Cached;
    var a := Start(domain, ifaces);
    var b := NotedAll(a, names);
    NotedHolds(a, names, iface, only);
    NotedHolds(b, addresses, iface, only);
    var c := NotedAll(b, addresses);
    StartsEmpty(domain, ifaces, iface);
    NothingMore(V4In(names, ANY));
    NothingMore(V6In(names, ANY));
    NothingMore(V4In(names, only));
    NothingMore(V6In(names, only));
    SortedSize(c.v4);
    SortedSize(c.v6);
    SortedHas(c.v4);
    SortedHas(c.v6);
  }

  lemma StartsEmpty(domain: string, ifaces: set<string>, iface: string)
    ensures var a := Start(domain, ifaces); Cached(a.perV4, iface) == {} && Cached(a.perV6, iface) == {}
  {
  }

  lemma NothingMore(x: set<string>)
    ensures {} + x == x
  {
  }

  lemma SortedHas(s: set<string>)
    ensures forall x :: x in Sorted(s) <==> x in s
  {
  }
}
