/**
  The gate that takes a failing resolver out of a run. Many goroutines report
  query results at once; every atomic operation is one step.
 */
module ResolverGate {

  /** A goroutine between the atomic operations of one report. */
  datatype Reporter = Added(failures: int) | Won(failures: int)

  datatype Gate = Gate(failures: int, disabled: bool, reporters: map<nat, Reporter>, callbacks: seq<int>)

  const FRESH := Gate(0, false, map[], [])

  datatype Event =
    | Succeed(who: nat)   // Store(0)
    | Fail(who: nat)      // Add(1)
    | Compare(who: nat)   // test of the threshold and compare-and-swap
    | Announce(who: nat)  // the callback

  const TWO31 := 0x8000_0000
  const TWO32 := 0x1_0000_0000

  /** Two's complement of 32 bits. */
  function Wrap32(n: int): (r: int)
    ensures -TWO31 <= r < TWO31
  {
    (n + TWO31) % TWO32 - TWO31
  }

  predicate Enabled(g: Gate, e: Event) {
    match e
    case Succeed(who) => who !in g.reporters
    case Fail(who) => who !in g.reporters
    case Compare(who) => who in g.reporters && g.reporters[who].Added?
    case Announce(who) => who in g.reporters && g.reporters[who].Won?
  }

  function Step(threshold: int, g: Gate, e: Event): Gate
    requires Enabled(g, e)
  {
    match e
    case Succeed(_) => g.(failures := 0)
    case Fail(who) =>
      var n := Wrap32(g.failures + 1);
      g.(failures := n, reporters := g.reporters[who := Added(n)])
    case Compare(who) =>
      var n := g.reporters[who].failures;
      if n >= threshold && !g.disabled then g.(disabled := true, reporters := g.reporters[who := Won(n)])
      else g.(reporters := g.reporters - {who})
    case Announce(who) =>
      g.(reporters := g.reporters - {who}, callbacks := g.callbacks + [g.reporters[who].failures])
  }

  /** The events can happen in this order. */
  predicate Possible(threshold: int, run: seq<Event>)
    decreases |run|, 0
  {
    run == [] ||
    (Possible(threshold, run[..|run| - 1]) && Enabled(After(threshold, run[..|run| - 1]), run[|run| - 1]))
  }

  function After(threshold: int, run: seq<Event>): Gate
    requires Possible(threshold, run)
    decreases |run|, 1
  {
    if run == [] then FRESH else Step(threshold, After(threshold, run[..|run| - 1]), run[|run| - 1])
  }

  /** Failures since the last success, in the order of the counter operations. */
  function Streak(run: seq<Event>): nat {
    if run == [] then 0
    else
      var before, e := Streak(run[..|run| - 1]), run[|run| - 1];
      if e.Succeed? then 0 else if e.Fail? then before + 1 else before
  }

  ghost predicate StreakReached(threshold: int, run: seq<Event>) {
    exists n :: 0 <= n <= |run| && Streak(run[..n]) >= threshold
  }

  ghost predicate Waiting(threshold: int, g: Gate) {
    exists who :: who in g.reporters && g.reporters[who].Added? && g.reporters[who].failures >= threshold
  }

  ghost predicate Winners(g: Gate) {
    exists who :: who in g.reporters && g.reporters[who].Won?
  }

  ghost predicate Inv(threshold: int, run: seq<Event>, g: Gate) {
    && g.failures == Wrap32(Streak(run))
    && (g.disabled || Waiting(threshold, g) ==> StreakReached(threshold, run))
    && (threshold < TWO31 && StreakReached(threshold, run) ==> g.disabled || Waiting(threshold, g))
    && (g.disabled <==> g.callbacks != [] || Winners(g))
    && (Winners(g) ==> g.callbacks == [])
    && (forall a, b :: a in g.reporters && b in g.reporters && g.reporters[a].Won? && g.reporters[b].Won? ==> a == b)
    && (forall a :: a in g.reporters && g.reporters[a].Won? ==> g.reporters[a].failures >= threshold)
    && |g.callbacks| <= 1 && (forall i :: 0 <= i < |g.callbacks| ==> g.callbacks[i] >= threshold)
  }

  lemma WrapStep(n: int)
    ensures Wrap32(Wrap32(n) + 1) == Wrap32(n + 1)
  {
  }

  /** A counter that wraps around never shows more than was counted. */
  lemma WrapBelow(n: nat)
    ensures Wrap32(n) <= n && (n < TWO31 ==> Wrap32(n) == n)
  {
  }

  lemma StreakGrows(threshold: int, run: seq<Event>, e: Event)
    ensures StreakReached(threshold, run + [e]) <==> StreakReached(threshold, run) || Streak(run + [e]) >= threshold
  {
    var run' := run + [e];
    assert run'[..|run'|] == run';
    if StreakReached(threshold, run) {
      var n :| 0 <= n <= |run| && Streak(run[..n]) >= threshold;
      assert run'[..n] == run[..n];
    }
    if StreakReached(threshold, run') {
      var n :| 0 <= n <= |run'| && Streak(run'[..n]) >= threshold;
      if n <= |run| { assert run'[..n] == run[..n]; }
    }
  }

  lemma StreakStep(run: seq<Event>, e: Event)
    ensures Streak(run + [e]) == if e.Succeed? then 0 else if e.Fail? then Streak(run) + 1 else Streak(run)
  {
    assert (run + [e])[..|run|] == run;
  }

  lemma NowReached(threshold: int, run: seq<Event>)
    requires Streak(run) >= threshold
    ensures StreakReached(threshold, run)
  {
    assert run[..|run|] == run;
  }

  lemma SucceedStep(threshold: int, run: seq<Event>, g: Gate, e: Event)
    requires threshold > 0 && Inv(threshold, run, g) && e.Succeed? && Enabled(g, e)
    ensures Inv(threshold, run + [e], Step(threshold, g, e))
  {
    hide StreakReached, Streak;
    StreakStep(run, e);
    StreakGrows(threshold, run, e);
    var g' := Step(threshold, g, e);
    assert g'.reporters == g.reporters;
    assert Waiting(threshold, g') == Waiting(threshold, g) && Winners(g') == Winners(g);
    WrapBelow(0);
  }

  lemma FailStep(threshold: int, run: seq<Event>, g: Gate, e: Event)
    requires threshold > 0 && Inv(threshold, run, g) && e.Fail? && Enabled(g, e)
    ensures Inv(threshold, run + [e], Step(threshold, g, e))
  {
    hide StreakReached, Streak, Wrap32;
    StreakStep(run, e);
    StreakGrows(threshold, run, e);
    WrapStep(Streak(run));
    WrapBelow(Streak(run) + 1);
    var g' := Step(threshold, g, e);
    forall who | who in g.reporters ensures who in g'.reporters && g'.reporters[who] == g.reporters[who] {}
    forall who | who in g'.reporters && who != e.who ensures who in g.reporters && g'.reporters[who] == g.reporters[who] {}
    assert g'.reporters[e.who] == Added(g'.failures);
    if Streak(run) >= threshold {
      NowReached(threshold, run);
    }
  }

  lemma CompareStep(threshold: int, run: seq<Event>, g: Gate, e: Event)
    requires threshold > 0 && Inv(threshold, run, g) && e.Compare? && Enabled(g, e)
    ensures Inv(threshold, run + [e], Step(threshold, g, e))
  {
    hide StreakReached, Streak, Wrap32;
    StreakStep(run, e);
    StreakGrows(threshold, run, e);
    if Streak(run) >= threshold {
      NowReached(threshold, run);
    }
    var g' := Step(threshold, g, e);
    forall who | who in g.reporters && who != e.who ensures who in g'.reporters && g'.reporters[who] == g.reporters[who] {}
    forall who | who in g'.reporters && who != e.who ensures who in g.reporters && g'.reporters[who] == g.reporters[who] {}
    if g.reporters[e.who].failures >= threshold && !g.disabled {
      assert g'.reporters[e.who].Won?;
      assert Waiting(threshold, g);
    }
  }

  lemma AnnounceStep(threshold: int, run: seq<Event>, g: Gate, e: Event)
    requires threshold > 0 && Inv(threshold, run, g) && e.Announce? && Enabled(g, e)
    ensures Inv(threshold, run + [e], Step(threshold, g, e))
  {
    hide StreakReached, Streak, Wrap32;
    StreakStep(run, e);
    StreakGrows(threshold, run, e);
    if Streak(run) >= threshold {
      NowReached(threshold, run);
    }
    var g' := Step(threshold, g, e);
    forall who | who in g.reporters && who != e.who ensures who in g'.reporters && g'.reporters[who] == g.reporters[who] {}
    forall who | who in g'.reporters ensures who in g.reporters && who != e.who && g'.reporters[who] == g.reporters[who] {}
    assert Winners(g);
  }

  lemma {:induction false} InvHolds(threshold: int, run: seq<Event>)
    requires threshold > 0 && Possible(threshold, run)
    ensures Inv(threshold, run, After(threshold, run))
  {
    hide Inv, Step;
    if run == [] {
      FreshInv(threshold);
    } else {
      var before, e := run[..|run| - 1], run[|run| - 1];
      InvHolds(threshold, before);
      assert before + [e] == run;
      var g := After(threshold, before);
      match e
      case Succeed(_) => SucceedStep(threshold, before, g, e);
      case Fail(_) => FailStep(threshold, before, g, e);
      case Compare(_) => CompareStep(threshold, before, g, e);
      case Announce(_) => AnnounceStep(threshold, before, g, e);
    }
  }

  lemma FreshInv(threshold: int)
    requires threshold > 0
    ensures Inv(threshold, [], FRESH)
  {
    WrapBelow(0);
  }

  lemma StepKeepsDisabled(threshold: int, g: Gate, e: Event)
    requires Enabled(g, e) && g.disabled
    ensures Step(threshold, g, e).disabled
  {
  }

  /** A disabled gate stays disabled. */
  lemma {:induction false} DisabledIsFinal(threshold: int, run: seq<Event>, n: nat)
    requires n <= |run| && Possible(threshold, run)
    ensures Possible(threshold, run[..n])
    ensures After(threshold, run[..n]).disabled ==> After(threshold, run).disabled
  {
    hide Step;
    if n == |run| {
      assert run[..n] == run;
    } else {
      var before := run[..|run| - 1];
      DisabledIsFinal(threshold, before, n);
      assert before[..n] == run[..n];
      if After(threshold, before).disabled {
        StepKeepsDisabled(threshold, After(threshold, before), run[|run| - 1]);
      }
    }
  }

  /**
    In every interleaving a gate is disabled only after at least `threshold` failures
    without a success between them, and the callback comes at most once, with at
    least that count. Once all reports are complete, the gate is disabled and the
    callback made exactly when there was such a streak (if 32 bits can count that far).
   */
  lemma GateIsCorrect(threshold: int, run: seq<Event>)
    requires threshold > 0 && Possible(threshold, run)
    ensures var g := After(threshold, run);
      && (g.disabled ==> StreakReached(threshold, run))
      && |g.callbacks| <= 1 && (g.callbacks != [] ==> g.disabled && g.callbacks[0] >= threshold)
      && (g.reporters == map[] ==> (g.disabled <==> |g.callbacks| == 1))
      && (g.reporters == map[] && threshold < TWO31 ==> (g.disabled <==> StreakReached(threshold, run)))
  {
    InvHolds(threshold, run);
    hide After, StreakReached, Possible, Wrap32;
  }
}
