/** What the byte totals of a flow session mean over any run of polls. */
module FlowConservation {
  import opened Text
  import opened FlowSessions

  // ---- Sums over rows -------------------------------------------------------

  ghost function Sum(flows: map<string, Flow>, d: Direction): nat {
    if flows == map[] then 0
    else
      var k :| k in flows;
      FlowTotal(flows[k], d) + Sum(flows - {k}, d)
  }

  lemma {:induction false} SumRemove(flows: map<string, Flow>, d: Direction, k: string)
    requires k in flows
    ensures Sum(flows, d) == FlowTotal(flows[k], d) + Sum(flows - {k}, d)
    decreases |flows|
  {
    var j :| j in flows && Sum(flows, d) == FlowTotal(flows[j], d) + Sum(flows - {j}, d);
    if j != k {
      SumRemove(flows - {j}, d, k);
      SumRemove(flows - {k}, d, j);
      assert flows - {j} - {k} == flows - {k} - {j};
    }
  }

  lemma SumUpdate(flows: map<string, Flow>, d: Direction, k: string, f: Flow)
    ensures Sum(flows[k := f], d) == FlowTotal(f, d) + Sum(flows - {k}, d)
  {
    SumRemove(flows[k := f], d, k);
    assert flows[k := f] - {k} == flows - {k};
  }

  lemma SumAbsent(flows: map<string, Flow>, d: Direction, k: string)
    ensures Sum(flows, d) == Sum(flows - {k}, d) + if k in flows then FlowTotal(flows[k], d) else 0
  {
    if k in flows {
      SumRemove(flows, d, k);
    } else {
      assert flows - {k} == flows;
    }
  }

  ghost predicate Divides(flows: map<string, Flow>, keep: map<string, Flow>, gone: map<string, Flow>) {
    forall k ::
      && (k in flows <==> k in keep || k in gone) && !(k in keep && k in gone)
      && (k in keep ==> keep[k] == flows[k]) && (k in gone ==> gone[k] == flows[k])
  }

  lemma DividesWithout(flows: map<string, Flow>, keep: map<string, Flow>, gone: map<string, Flow>, k: string)
    requires Divides(flows, keep, gone)
    ensures Divides(flows - {k}, keep - {k}, gone - {k})
  {
  }

  lemma SumEmpty(d: Direction)
    ensures Sum(map[], d) == 0
  {
  }

  /** Rows that go and rows that stay add up. */
  lemma {:induction false} SumSplit(flows: map<string, Flow>, d: Direction, keep: map<string, Flow>, gone: map<string, Flow>)
    requires Divides(flows, keep, gone)
    ensures Sum(flows, d) == Sum(keep, d) + Sum(gone, d)
    decreases |flows|
  {
    hide Sum;
    if k :| k in flows {
      SumRemove(flows, d, k);
      SumAbsent(keep, d, k);
      SumAbsent(gone, d, k);
      DividesWithout(flows, keep, gone, k);
      SumSplit(flows - {k}, d, keep - {k}, gone - {k});
    } else {
      assert flows == map[] && keep == map[] && gone == map[];
      SumEmpty(d);
    }
  }

  // ---- What should be counted -----------------------------------------------

  /** The bytes that a sample adds to a known flow. */
  function Growth(s: Session, x: Sample, d: Direction): nat {
    var key := TrimSpace(x.key);
    if key == "" || key !in s.flows then 0 else MonotonicDelta(Counter(x, d), LastCounter(s.flows[key], d))
  }

  function GrowthAll(s: Session, now: int, xs: seq<Sample>, d: Direction): nat {
    if xs == [] then 0
    else
      var init := xs[..|xs| - 1];
      GrowthAll(s, now, init, d) + Growth(ObservedAll(s, now, init), xs[|xs| - 1], d)
  }

  /** All bytes seen to flow over a run of polls. */
  function TrueTotal(polls: seq<Poll>, d: Direction): nat {
    if polls == [] then 0
    else
      var init, p := polls[..|polls| - 1], polls[|polls| - 1];
      TrueTotal(init, d) + GrowthAll(After(init), p.now, p.samples, d)
  }

  function Gone(s: Session, now: int, seen: set<string>): map<string, Flow> {
    map k | k in s.flows && !Stays(s.flows[k], k, now, seen) :: s.flows[k]
  }

  /** The totals of the rows dropped so far. */
  ghost function Evicted(polls: seq<Poll>, d: Direction): nat {
    if polls == [] then 0
    else
      var init, p := polls[..|polls| - 1], polls[|polls| - 1];
      Evicted(init, d) + Dropped(After(init), p, d)
  }

  // ---- Conservation ---------------------------------------------------------

  ghost predicate Balanced(s: Session, d: Direction, evicted: nat, counted: nat) {
    SessionTotal(s, d) == counted && Sum(s.flows, d) + evicted == counted
  }

  lemma ObservedBalance(s: Session, now: int, x: Sample, d: Direction, evicted: nat, counted: nat)
    requires Balanced(s, d, evicted, counted) && counted + Growth(s, x, d) < TWO64
    ensures Balanced(Observed(s, now, x), d, evicted, counted + Growth(s, x, d))
  {
    hide TrimSpace, Sum;
    var key, s' := TrimSpace(x.key), Observed(s, now, x);
    if key != "" {
      SumAbsent(s.flows, d, key);
      SumUpdate(s.flows, d, key, s'.flows[key]);
    }
  }

  lemma {:induction false} ObservedAllBalance(s: Session, now: int, xs: seq<Sample>, d: Direction, evicted: nat, counted: nat)
    requires Balanced(s, d, evicted, counted) && counted + GrowthAll(s, now, xs, d) < TWO64
    ensures Balanced(ObservedAll(s, now, xs), d, evicted, counted + GrowthAll(s, now, xs, d))
  {
    hide Balanced, Observed, Growth;
    if xs != [] {
      var init := xs[..|xs| - 1];
      ObservedAllBalance(s, now, init, d, evicted, counted);
      ObservedBalance(ObservedAll(s, now, init), now, xs[|xs| - 1], d, evicted, counted + GrowthAll(s, now, init, d));
    }
  }

  lemma SweptBalance(s: Session, now: int, seen: set<string>, d: Direction, evicted: nat, counted: nat)
    requires Balanced(s, d, evicted, counted)
    ensures Balanced(Swept(s, now, seen), d, evicted + Sum(Gone(s, now, seen), d), counted)
  {
    hide Sum, Stays;
    SumSplit(s.flows, d, Swept(s, now, seen).flows, Gone(s, now, seen));
  }

  /** The totals of the rows that one poll drops. */
  ghost function Dropped(s: Session, p: Poll, d: Direction): nat {
    Sum(Gone(ObservedAll(s, p.now, p.samples), p.now, SeenKeys(p.samples)), d)
  }

  lemma PollBalance(s: Session, p: Poll, d: Direction, evicted: nat, counted: nat)
    requires Balanced(s, d, evicted, counted) && counted + GrowthAll(s, p.now, p.samples, d) < TWO64
    ensures Balanced(Polled(s, p), d, evicted + Dropped(s, p, d), counted + GrowthAll(s, p.now, p.samples, d))
  {
    hide ObservedAll, Swept, GrowthAll, SeenKeys, Gone, Sum, Balanced;
    ObservedAllBalance(s, p.now, p.samples, d, evicted, counted);
    SweptBalance(ObservedAll(s, p.now, p.samples), p.now, SeenKeys(p.samples), d, evicted, counted + GrowthAll(s, p.now, p.samples, d));
  }

  lemma {:induction false} BalancedAlways(polls: seq<Poll>, d: Direction)
    requires TrueTotal(polls, d) < TWO64
    ensures Balanced(After(polls), d, Evicted(polls, d), TrueTotal(polls, d))
  {
    hide Polled, GrowthAll, Dropped, Balanced;
    if polls == [] {
      StartBalanced(d);
    } else {
      var init := polls[..|polls| - 1];
      BalancedAlways(init, d);
      PollBalance(After(init), polls[|polls| - 1], d, Evicted(init, d), TrueTotal(init, d));
    }
  }

  lemma StartBalanced(d: Direction)
    ensures Balanced(EMPTY_SESSION, d, 0, 0)
  {
  }

  /** The session total is the sum of the live rows and of the rows dropped, as long as 64 bits can hold it. */
  lemma Conservation(polls: seq<Poll>, d: Direction)
    requires TrueTotal(polls, d) < TWO64
    ensures SessionTotal(After(polls), d) == TrueTotal(polls, d) == Sum(After(polls).flows, d) + Evicted(polls, d)
  {
    hide After, Evicted, TrueTotal, Sum;
    BalancedAlways(polls, d);
  }

  lemma {:induction false} TrueTotalGrows(polls: seq<Poll>, n: nat, d: Direction)
    requires n <= |polls|
    ensures TrueTotal(polls[..n], d) <= TrueTotal(polls, d)
  {
    hide GrowthAll, After;
    if n == |polls| {
      assert polls[..n] == polls;
    } else {
      var init := polls[..|polls| - 1];
      TrueTotalGrows(init, n, d);
      assert init[..n] == polls[..n];
    }
  }

  /** Totals never go down. */
  lemma TotalsNeverDecrease(polls: seq<Poll>, n: nat, d: Direction)
    requires n <= |polls| && TrueTotal(polls, d) < TWO64
    ensures SessionTotal(After(polls[..n]), d) <= SessionTotal(After(polls), d)
  {
    TrueTotalGrows(polls, n, d);
    Conservation(polls, d);
    Conservation(polls[..n], d);
  }

  // ---- Rows -----------------------------------------------------------------

  /** The samples of every row since it appeared. */
  type Log = map<string, seq<Sample>>

  function Logged(log: Log, x: Sample): Log {
    var key := TrimSpace(x.key);
    if key == "" then log else log[key := (if key in log then log[key] else []) + [x]]
  }

  function LoggedAll(log: Log, xs: seq<Sample>): Log {
    if xs == [] then log else Logged(LoggedAll(log, xs[..|xs| - 1]), xs[|xs| - 1])
  }

  function RowLogs(polls: seq<Poll>): Log {
    if polls == [] then map[]
    else
      var all := LoggedAll(RowLogs(polls[..|polls| - 1]), polls[|polls| - 1].samples);
      map k | k in all && k in After(polls).flows :: all[k]
  }

  /** The increases between neighbouring samples. */
  function Increases(xs: seq<Sample>, d: Direction): nat {
    if |xs| <= 1 then 0
    else Increases(xs[..|xs| - 1], d) + MonotonicDelta(Counter(xs[|xs| - 1], d), Counter(xs[|xs| - 2], d))
  }

  predicate RowOk(f: Flow, xs: seq<Sample>, d: Direction) {
    xs != [] && LastCounter(f, d) == Counter(xs[|xs| - 1], d) && FlowTotal(f, d) == Increases(xs, d) % TWO64
  }

  ghost predicate RowsOk(flows: map<string, Flow>, log: Log, d: Direction) {
    flows.Keys == log.Keys && forall k :: k in flows ==> RowOk(flows[k], log[k], d)
  }

  lemma WrapAdd(a: nat, b: nat)
    ensures Add64(a % TWO64, b) == (a + b) % TWO64
  {
  }

  lemma RowGrows(f: Flow, xs: seq<Sample>, x: Sample, f': Flow, d: Direction)
    requires RowOk(f, xs, d) && LastCounter(f', d) == Counter(x, d)
    requires FlowTotal(f', d) == Add64(FlowTotal(f, d), MonotonicDelta(Counter(x, d), LastCounter(f, d)))
    ensures RowOk(f', xs + [x], d)
  {
    assert (xs + [x])[..|xs|] == xs;
    WrapAdd(Increases(xs, d), MonotonicDelta(Counter(x, d), LastCounter(f, d)));
  }

  lemma ObservedRows(s: Session, log: Log, now: int, x: Sample, d: Direction)
    requires RowsOk(s.flows, log, d)
    ensures RowsOk(Observed(s, now, x).flows, Logged(log, x), d)
  {
    var key, s' := TrimSpace(x.key), Observed(s, now, x);
    hide TrimSpace, Increases, RowOk;
    if key != "" {
      if key in s.flows {
        RowGrows(s.flows[key], log[key], x, s'.flows[key], d);
      } else {
        NewRow(x, now, d);
        var none: seq<Sample> := [];
        assert none + [x] == [x];
      }
    }
  }

  lemma NewRow(x: Sample, now: int, d: Direction)
    ensures RowOk(Flow(now, x.upload, x.download, 0, 0), [x], d)
  {
  }

  lemma {:induction false} ObservedAllRows(s: Session, log: Log, now: int, xs: seq<Sample>, d: Direction)
    requires RowsOk(s.flows, log, d)
    ensures RowsOk(ObservedAll(s, now, xs).flows, LoggedAll(log, xs), d)
  {
    hide RowsOk, Observed, Logged;
    if xs != [] {
      var init := xs[..|xs| - 1];
      ObservedAllRows(s, log, now, init, d);
      ObservedRows(ObservedAll(s, now, init), LoggedAll(log, init), now, xs[|xs| - 1], d);
    }
  }

  lemma {:induction false} RowsCounted(polls: seq<Poll>, d: Direction)
    ensures RowsOk(After(polls).flows, RowLogs(polls), d)
  {
    hide ObservedAll, LoggedAll, RowOk, SeenKeys, Stays;
    if polls != [] {
      var init, p := polls[..|polls| - 1], polls[|polls| - 1];
      RowsCounted(init, d);
      ObservedAllRows(After(init), RowLogs(init), p.now, p.samples, d);
    }
  }

  predicate NonDecreasing(xs: seq<Sample>, d: Direction) {
    forall i :: 0 < i < |xs| ==> Counter(xs[i - 1], d) <= Counter(xs[i], d)
  }

  lemma {:induction false} IncreasesTelescope(xs: seq<Sample>, d: Direction)
    requires xs != [] && NonDecreasing(xs, d)
    ensures Increases(xs, d) == Counter(xs[|xs| - 1], d) - Counter(xs[0], d)
  {
    if |xs| > 1 {
      IncreasesTelescope(xs[..|xs| - 1], d);
      assert Counter(xs[|xs| - 2], d) <= Counter(xs[|xs| - 1], d);
    }
  }

  /** A row's total is the sum of the increases of its counter: last minus first if the counter never falls. */
  lemma RowTotal(polls: seq<Poll>, k: string, d: Direction)
    requires k in After(polls).flows
    ensures k in RowLogs(polls) && RowLogs(polls)[k] != []
    ensures FlowTotal(After(polls).flows[k], d) == Increases(RowLogs(polls)[k], d) % TWO64
    ensures
      var xs := RowLogs(polls)[k];
      NonDecreasing(xs, d) && Counter(xs[|xs| - 1], d) < TWO64 ==>
        FlowTotal(After(polls).flows[k], d) == Counter(xs[|xs| - 1], d) - Counter(xs[0], d)
  {
    hide After, RowLogs, Increases;
    RowsCounted(polls, d);
    var xs := RowLogs(polls)[k];
    if NonDecreasing(xs, d) {
      IncreasesTelescope(xs, d);
    }
  }

  // ---- Retention ------------------------------------------------------------

  lemma {:induction false} SeenIsCurrent(s: Session, now: int, xs: seq<Sample>, k: string)
    requires k in SeenKeys(xs)
    ensures k in ObservedAll(s, now, xs).flows && ObservedAll(s, now, xs).flows[k].lastSeen == now
  {
    hide TrimSpace;
    var init, x := xs[..|xs| - 1], xs[|xs| - 1];
    assert xs == init + [x];
    SeenSnoc(init, x);
    if TrimSpace(x.key) != k {
      SeenIsCurrent(s, now, init, k);
    }
  }

  /** After a poll exactly the rows seen within the idle window are left. */
  lemma RetainedIsRecent(polls: seq<Poll>, k: string)
    requires polls != []
    ensures
      var p := polls[|polls| - 1];
      var rows := ObservedAll(After(polls[..|polls| - 1]), p.now, p.samples).flows;
      k in After(polls).flows <==> k in rows && p.now - rows[k].lastSeen <= IDLE_RETENTION
  {
    hide ObservedAll, SeenKeys;
    var p := polls[|polls| - 1];
    if k in SeenKeys(p.samples) {
      SeenIsCurrent(After(polls[..|polls| - 1]), p.now, p.samples, k);
    }
  }

  // ---- One sample -----------------------------------------------------------

  /**
    One sample of a known flow: its total and the session's grow by what its counter
    has risen, and by nothing if it has fallen; the counter becomes the new baseline. A
    new flow starts from zero, and other rows do not change.
   */
  lemma SampleCounts(s: Session, now: int, x: Sample, d: Direction)
    ensures var s', key := Observed(s, now, x), TrimSpace(x.key);
      && (key == "" ==> s' == s)
      && (key != "" ==> key in s'.flows && s'.flows[key].lastSeen == now && LastCounter(s'.flows[key], d) == Counter(x, d))
      && (key != "" ==> s'.flows == s.flows[key := s'.flows[key]])
      && (key != "" && key !in s.flows ==> FlowTotal(s'.flows[key], d) == 0 && SessionTotal(s', d) == SessionTotal(s, d))
      && (key != "" && key in s.flows ==>
          var rise := Counter(x, d) - LastCounter(s.flows[key], d);
          && (rise >= 0 ==> FlowTotal(s'.flows[key], d) == (FlowTotal(s.flows[key], d) + rise) % TWO64)
          && (rise >= 0 ==> SessionTotal(s', d) == (SessionTotal(s, d) + rise) % TWO64)
          && (rise < 0 ==> FlowTotal(s'.flows[key], d) == FlowTotal(s.flows[key], d) % TWO64)
          && (rise < 0 ==> SessionTotal(s', d) == SessionTotal(s, d) % TWO64))
  {
    hide TrimSpace;
  }
}
