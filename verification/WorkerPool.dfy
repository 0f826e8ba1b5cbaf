/**
  The worker pool of a prewarm run as a state machine. The dispatcher, the workers
  and the query goroutines take steps in any order; one step is one channel or
  lock operation, one test of the context, or the end of one query.
 */
module WorkerPool {
  import opened Folds
  import opened PrewarmTotals

  /** Number of queries of a task in each of its two phases, and what it yields. */
  datatype Plan = Plan(job: Job, cnames: nat, addresses: nat)

  datatype Settings = Settings(plans: seq<Plan>, parallel: nat)

  predicate Usable(c: Settings) {
    c.parallel >= 1 && c.plans != []
  }

  datatype Phase = Cnames | Addresses

  function Queries(p: Plan, phase: Phase): nat {
    if phase.Cnames? then p.cnames else p.addresses
  }

  /** `flying` queries hold a slot; `ending` ones have returned it and are not yet counted as done. */
  datatype Worker =
    | Waiting
    | Received(task: nat)
    | Discovering(task: nat)
    | Issuing(task: nat, phase: Phase, left: nat, flying: nat, ending: nat)
    | Draining(task: nat, phase: Phase, flying: nat, ending: nat, failed: bool)
    | Finished(task: nat)
    | Failing(task: nat)
    | Exited

  datatype Dispatcher = Sending(next: nat) | Closed(next: nat) | Returned(ok: bool)

  datatype Pool = Pool(
    dispatcher: Dispatcher, workers: seq<Worker>, slots: nat, cancelled: bool, failed: bool,
    merged: seq<nat>, totals: Totals)

  /** A step of one worker or of one of its queries. */
  datatype Act =
    | Leave | CheckContext | Discover
    | Acquire | Skip | AcquireFails | AllIssued
    | Answer | Done | Drained
    | Merge | Fail

  datatype Event = Cancel | Dispatch(w: nat) | GiveUp | CloseJobs | ReturnStats | Work(w: nat, act: Act)

  predicate Holds(w: Worker) {
    !w.Waiting? && !w.Exited?
  }

  predicate Active(w: Worker) {
    w.Issuing? || w.Draining?
  }

  predicate AllExited(workers: seq<Worker>) {
    forall i :: 0 <= i < |workers| ==> workers[i].Exited?
  }

  predicate CanAct(c: Settings, p: Pool, w: Worker, act: Act) {
    match act
    case Leave => p.dispatcher.Closed? && w.Waiting?
    case CheckContext => w.Received?
    case Discover => w.Discovering?
    case Acquire => w.Issuing? && w.left > 0 && p.slots < c.parallel
    case Skip => w.Issuing? && w.left > 0
    case AcquireFails => w.Issuing? && w.left > 0 && p.cancelled
    case AllIssued => w.Issuing? && w.left == 0
    case Answer => Active(w) && w.flying > 0
    case Done => Active(w) && w.ending > 0
    case Drained => w.Draining? && w.flying == 0 && w.ending == 0
    case Merge => w.Finished?
    case Fail => w.Failing?
  }

  predicate Enabled(c: Settings, p: Pool, e: Event) {
    match e
    case Cancel => !p.cancelled && !p.dispatcher.Returned?
    case Dispatch(w) => w < |p.workers| && p.dispatcher.Sending? && p.dispatcher.next < |c.plans| && p.workers[w].Waiting?
    case GiveUp => p.dispatcher.Sending? && p.dispatcher.next < |c.plans| && p.cancelled
    case CloseJobs => p.dispatcher.Sending? && p.dispatcher.next == |c.plans|
    case ReturnStats => p.dispatcher.Closed? && AllExited(p.workers)
    case Work(w, act) => w < |p.workers| && CanAct(c, p, p.workers[w], act)
  }

  const NO_PLAN := Plan(Job(Task("", "", ""), TaskResult(0, map[], map[], map[], [], [])), 0, 0)

  function PlanOf(c: Settings, task: nat): Plan {
    if task < |c.plans| then c.plans[task] else NO_PLAN
  }

  function Begun(c: Settings, task: nat, phase: Phase): Worker {
    Issuing(task, phase, Queries(PlanOf(c, task), phase), 0, 0)
  }

  /** What a worker becomes in its own step. */
  function Moved(c: Settings, p: Pool, w: Worker, act: Act): Worker
    requires CanAct(c, p, w, act)
  {
    match act
    case Leave => Exited
    case CheckContext => if p.cancelled then Exited else Discovering(w.task)
    case Discover => if p.cancelled then Failing(w.task) else Begun(c, w.task, Cnames)
    case Acquire => w.(left := w.left - 1, flying := w.flying + 1)
    case Skip => w.(left := w.left - 1)
    case AcquireFails => Draining(w.task, w.phase, w.flying, w.ending, true)
    case AllIssued => Draining(w.task, w.phase, w.flying, w.ending, false)
    case Answer => w.(flying := w.flying - 1, ending := w.ending + 1)
    case Done => w.(ending := w.ending - 1)
    case Drained =>
      if w.failed || p.cancelled then Failing(w.task)
      else if w.phase.Cnames? then Begun(c, w.task, Addresses)
      else Finished(w.task)
    case Merge => Waiting
    case Fail => Exited
  }

  /** What its step does to the rest. */
  function Affected(c: Settings, p: Pool, w: Worker, act: Act): Pool
    requires CanAct(c, p, w, act)
  {
    match act
    case Acquire => p.(slots := p.slots + 1)
    case Answer => p.(slots := if p.slots > 0 then p.slots - 1 else 0)
    case Fail => p.(cancelled := true, failed := true)
    case Merge =>
      var job := PlanOf(c, w.task).job;
      p.(merged := p.merged + [w.task], totals := Merged(p.totals, job.task, job.result))
    case _ => p
  }

  function Step(c: Settings, p: Pool, e: Event): Pool
    requires Enabled(c, p, e)
  {
    match e
    case Cancel => p.(cancelled := true)
    case Dispatch(w) =>
      p.(dispatcher := Sending(p.dispatcher.next + 1), workers := p.workers[w := Received(p.dispatcher.next)])
    case GiveUp => p.(dispatcher := Closed(p.dispatcher.next))
    case CloseJobs => p.(dispatcher := Closed(p.dispatcher.next))
    case ReturnStats => p.(dispatcher := Returned(!p.failed && !p.cancelled))
    case Work(w, act) =>
      Affected(c, p, p.workers[w], act).(workers := p.workers[w := Moved(c, p, p.workers[w], act)])
  }

  function WorkerCount(c: Settings): nat {
    if c.parallel > |c.plans| then |c.plans| else c.parallel
  }

  function Initial(c: Settings, start: Totals): Pool {
    Pool(Sending(0), seq(WorkerCount(c), i => Waiting), 0, false, false, [], start)
  }

  predicate Possible(c: Settings, start: Totals, run: seq<Event>)
    decreases |run|, 0
  {
    run == [] ||
    (Possible(c, start, run[..|run| - 1]) && Enabled(c, After(c, start, run[..|run| - 1]), run[|run| - 1]))
  }

  function After(c: Settings, start: Totals, run: seq<Event>): Pool
    requires Possible(c, start, run)
    decreases |run|, 1
  {
    if run == [] then Initial(c, start) else Step(c, After(c, start, run[..|run| - 1]), run[|run| - 1])
  }

  // ---- Query slots ----------------------------------------------------------

  function Flying(w: Worker): nat {
    if Active(w) then w.flying else 0
  }

  /** The queries in flight. */
  function InFlight(workers: seq<Worker>): nat {
    if workers == [] then 0 else InFlight(workers[..|workers| - 1]) + Flying(workers[|workers| - 1])
  }

  lemma {:induction false} InFlightUpdate(workers: seq<Worker>, i: nat, w: Worker)
    requires i < |workers|
    ensures InFlight(workers[i := w]) == InFlight(workers) - Flying(workers[i]) + Flying(w)
  {
    var n := |workers| - 1;
    if i == n {
      assert workers[i := w][..n] == workers[..n];
    } else {
      assert workers[i := w][..n] == workers[..n][i := w];
      InFlightUpdate(workers[..n], i, w);
    }
  }

  lemma {:induction false} SomeFlying(workers: seq<Worker>) returns (i: nat)
    requires InFlight(workers) > 0
    ensures i < |workers| && Flying(workers[i]) > 0
  {
    var n := |workers| - 1;
    if Flying(workers[n]) > 0 {
      i := n;
    } else {
      i := SomeFlying(workers[..n]);
    }
  }

  lemma {:induction false} FlyingIsCounted(workers: seq<Worker>, i: nat)
    requires i < |workers|
    ensures Flying(workers[i]) <= InFlight(workers)
  {
    if i < |workers| - 1 {
      FlyingIsCounted(workers[..|workers| - 1], i);
    }
  }

  // ---- Invariant ------------------------------------------------------------

  predicate SlotsAgree(c: Settings, p: Pool) {
    p.slots == InFlight(p.workers) <= c.parallel
  }

  function Sent(c: Settings, p: Pool): nat {
    if p.dispatcher.Returned? then |c.plans| else p.dispatcher.next
  }

  predicate NoRepeats(s: seq<nat>) {
    forall i, j :: 0 <= i < j < |s| ==> s[i] != s[j]
  }

  ghost predicate HeldBySome(workers: seq<Worker>, t: nat) {
    exists i :: 0 <= i < |workers| && Holds(workers[i]) && workers[i].task == t
  }

  /** Every task sent is merged or with one worker; only a cancelled run drops tasks. */
  ghost predicate TasksAgree(c: Settings, p: Pool) {
    && Sent(c, p) <= |c.plans|
    && NoRepeats(p.merged)
    && (forall t :: t in p.merged ==> t < Sent(c, p))
    && (forall i :: 0 <= i < |p.workers| && Holds(p.workers[i]) ==> p.workers[i].task < Sent(c, p) && p.workers[i].task !in p.merged)
    && (forall i, j :: 0 <= i < j < |p.workers| && Holds(p.workers[i]) && Holds(p.workers[j]) ==> p.workers[i].task != p.workers[j].task)
    && (!p.cancelled ==> forall t :: 0 <= t < Sent(c, p) ==> t in p.merged || HeldBySome(p.workers, t))
  }

  /** What makes workers leave and the dispatcher stop. */
  predicate ControlAgrees(c: Settings, p: Pool) {
    && |p.workers| == WorkerCount(c)
    && (p.failed ==> p.cancelled)
    && (p.dispatcher.Sending? && !p.cancelled ==> forall i :: 0 <= i < |p.workers| ==> !p.workers[i].Exited?)
    && (p.dispatcher.Closed? && !p.cancelled ==> p.dispatcher.next == |c.plans|)
    && (p.dispatcher.Returned? ==> AllExited(p.workers) && (p.dispatcher.ok ==> !p.cancelled))
  }

  function JobsOf(c: Settings, tasks: seq<nat>): (jobs: seq<Job>)
    ensures |jobs| == |tasks|
  {
    seq(|tasks|, i requires 0 <= i < |tasks| => PlanOf(c, tasks[i]).job)
  }

  predicate TotalsAgree(c: Settings, start: Totals, p: Pool) {
    p.totals == MergedAll(start, JobsOf(c, p.merged))
  }

  lemma MovedFlying(c: Settings, p: Pool, w: Worker, act: Act)
    requires CanAct(c, p, w, act)
    ensures Flying(Moved(c, p, w, act)) == Flying(w) + if act.Acquire? then 1 else if act.Answer? then -1 else 0
  {
  }

  lemma SlotsStep(c: Settings, p: Pool, e: Event)
    requires SlotsAgree(c, p) && Enabled(c, p, e)
    ensures SlotsAgree(c, Step(c, p, e))
  {
    hide InFlight, Moved, Flying;
    if e.Dispatch? {
      InFlightUpdate(p.workers, e.w, Received(p.dispatcher.next));
      assert Flying(Received(p.dispatcher.next)) == 0 && Flying(Waiting) == 0 by { NotFlying(p.dispatcher.next); }
    } else if e.Work? {
      InFlightUpdate(p.workers, e.w, Moved(c, p, p.workers[e.w], e.act));
      MovedFlying(c, p, p.workers[e.w], e.act);
      FlyingIsCounted(p.workers, e.w);
    }
  }

  lemma NotFlying(t: nat)
    ensures Flying(Received(t)) == 0 && Flying(Waiting) == 0
  {
  }

  lemma ControlStep(c: Settings, p: Pool, e: Event)
    requires ControlAgrees(c, p) && Enabled(c, p, e)
    ensures ControlAgrees(c, Step(c, p, e))
  {
  }

  /** A worker keeps its task until it is merged or the run is cancelled. */
  lemma MovedTask(c: Settings, p: Pool, w: Worker, act: Act)
    requires CanAct(c, p, w, act)
    ensures var m := Moved(c, p, w, act);
      && (Holds(m) ==> Holds(w) && m.task == w.task)
      && (Holds(w) && !Holds(m) ==> act.Merge? || Affected(c, p, w, act).cancelled)
      && (act.Merge? ==> Holds(w) && !Holds(m))
  {
  }

  lemma AffectedRest(c: Settings, p: Pool, w: Worker, act: Act)
    requires CanAct(c, p, w, act)
    ensures var q := Affected(c, p, w, act);
      && q.dispatcher == p.dispatcher && q.workers == p.workers && (p.cancelled ==> q.cancelled)
      && q.merged == (if act.Merge? && w.Finished? then p.merged + [w.task] else p.merged)
  {
    hide Merged;
  }

  lemma WorkTasks(c: Settings, p: Pool, w: nat, act: Act)
    requires TasksAgree(c, p) && Enabled(c, p, Work(w, act))
    ensures TasksAgree(c, Step(c, p, Work(w, act)))
  {
    hide Moved, Affected;
    var q := Step(c, p, Work(w, act));
    MovedTask(c, p, p.workers[w], act);
    AffectedRest(c, p, p.workers[w], act);
    forall i | 0 <= i < |q.workers| && Holds(q.workers[i])
      ensures Holds(p.workers[i]) && q.workers[i].task == p.workers[i].task && (act.Merge? ==> i != w)
    {
    }
    if !q.cancelled {
      forall t | 0 <= t < Sent(c, q)
        ensures t in q.merged || HeldBySome(q.workers, t)
      {
        if t !in p.merged {
          var i :| 0 <= i < |p.workers| && Holds(p.workers[i]) && p.workers[i].task == t;
          if Holds(q.workers[i]) { assert q.workers[i].task == t; }
        }
      }
    }
  }

  lemma DispatchTasks(c: Settings, p: Pool, w: nat)
    requires TasksAgree(c, p) && Enabled(c, p, Dispatch(w))
    ensures TasksAgree(c, Step(c, p, Dispatch(w)))
  {
    var q := Step(c, p, Dispatch(w));
    if !q.cancelled {
      forall t | 0 <= t < Sent(c, q)
        ensures t in q.merged || HeldBySome(q.workers, t)
      {
        if t == p.dispatcher.next {
          assert Holds(q.workers[w]) && q.workers[w].task == t;
        } else if t !in p.merged {
          var i :| 0 <= i < |p.workers| && Holds(p.workers[i]) && p.workers[i].task == t;
          assert q.workers[i] == p.workers[i];
        }
      }
    }
  }

  lemma TasksStep(c: Settings, p: Pool, e: Event)
    requires TasksAgree(c, p) && ControlAgrees(c, p) && Enabled(c, p, e)
    ensures TasksAgree(c, Step(c, p, e))
  {
    if e.Work? {
      WorkTasks(c, p, e.w, e.act);
    } else if e.Dispatch? {
      DispatchTasks(c, p, e.w);
    } else if e.ReturnStats? {
      hide HeldBySome;
    }
  }

  lemma TotalsStep(c: Settings, start: Totals, p: Pool, e: Event)
    requires TotalsAgree(c, start, p) && Enabled(c, p, e)
    ensures TotalsAgree(c, start, Step(c, p, e))
  {
    hide Merged, Moved;
    var q := Step(c, p, e);
    if e.Work? && e.act.Merge? {
      var t, n := p.workers[e.w].task, |p.merged|;
      assert JobsOf(c, q.merged)[..n] == JobsOf(c, p.merged);
      assert JobsOf(c, q.merged)[n] == PlanOf(c, t).job;
    } else {
      assert q.merged == p.merged && q.totals == p.totals;
    }
  }

  ghost predicate Inv(c: Settings, start: Totals, p: Pool) {
    SlotsAgree(c, p) && ControlAgrees(c, p) && TasksAgree(c, p) && TotalsAgree(c, start, p)
  }

  lemma {:induction false} NobodyFlies(n: nat)
    ensures InFlight(seq(n, i => Waiting)) == 0
  {
    if n > 0 {
      assert seq(n, i => Waiting)[..n - 1] == seq(n - 1, i => Waiting);
      NobodyFlies(n - 1);
    }
  }

  lemma {:induction false} InvHolds(c: Settings, start: Totals, run: seq<Event>)
    requires Possible(c, start, run)
    ensures Inv(c, start, After(c, start, run))
  {
    hide SlotsAgree, ControlAgrees, TasksAgree, TotalsAgree, Step, Enabled;
    if run == [] {
      InitialInv(c, start);
    } else {
      var before, e := run[..|run| - 1], run[|run| - 1];
      InvHolds(c, start, before);
      var p := After(c, start, before);
      SlotsStep(c, p, e);
      ControlStep(c, p, e);
      TasksStep(c, p, e);
      TotalsStep(c, start, p, e);
    }
  }

  lemma InitialInv(c: Settings, start: Totals)
    ensures Inv(c, start, Initial(c, start))
  {
    NobodyFlies(WorkerCount(c));
  }

  // ---- Main results ---------------------------------------------------------

  /** Never more queries in flight than the parallelism allows. */
  lemma BoundedQueries(c: Settings, start: Totals, run: seq<Event>)
    requires Possible(c, start, run)
    ensures InFlight(After(c, start, run).workers) <= c.parallel
  {
    hide ControlAgrees, TasksAgree, TotalsAgree, After, Possible;
    InvHolds(c, start, run);
  }

  /** A worker of an unfinished run that is neither waiting for a job nor gone can move, or waits for a slot. */
  lemma BusyWorkerMoves(c: Settings, p: Pool, i: nat) returns (e: Event)
    requires c.parallel >= 1 && SlotsAgree(c, p) && i < |p.workers| && Holds(p.workers[i])
    ensures Enabled(c, p, e) && e.Work? && !e.act.Skip?
  {
    hide InFlight;
    var w := p.workers[i];
    match w
    case Received(_) => e := Work(i, CheckContext);
    case Discovering(_) => e := Work(i, Discover);
    case Finished(_) => e := Work(i, Merge);
    case Failing(_) => e := Work(i, Fail);
    case Draining(_, _, flying, ending, _) =>
      e := Work(i, if flying > 0 then Answer else if ending > 0 then Done else Drained);
    case Issuing(_, _, left, _, _) =>
      if left == 0 {
        e := Work(i, AllIssued);
      } else if p.slots < c.parallel {
        e := Work(i, Acquire);
      } else {
        var j := SomeFlying(p.workers);
        e := Work(j, Answer);
      }
  }

  /**
    No reachable state is stuck: until the run has returned, some step other than a
    cancellation from outside or the skipping of a disabled resolver is possible.
   */
  lemma NeverStuck(c: Settings, start: Totals, run: seq<Event>) returns (e: Event)
    requires Usable(c) && Possible(c, start, run) && !After(c, start, run).dispatcher.Returned?
    ensures Enabled(c, After(c, start, run), e) && !e.Cancel? && !(e.Work? && e.act.Skip?)
  {
    hide After, Possible, TasksAgree, TotalsAgree, InFlight;
    InvHolds(c, start, run);
    var p := After(c, start, run);
    if i :| 0 <= i < |p.workers| && Holds(p.workers[i]) {
      e := BusyWorkerMoves(c, p, i);
    } else if i :| 0 <= i < |p.workers| && p.workers[i].Waiting? {
      if p.dispatcher.Closed? {
        e := Work(i, Leave);
      } else {
        e := if p.dispatcher.next < |c.plans| then Dispatch(i) else CloseJobs;
        assert p.dispatcher.next <= |c.plans| by { SentBound(c, start, run); }
      }
    } else {
      assert forall i :: 0 <= i < |p.workers| ==> p.workers[i].Exited?;
      if p.dispatcher.Closed? {
        e := ReturnStats;
      } else {
        assert p.workers[0].Exited?;
        e := if p.dispatcher.next < |c.plans| then GiveUp else CloseJobs;
        assert p.dispatcher.next <= |c.plans| by { SentBound(c, start, run); }
      }
    }
  }

  lemma SentBound(c: Settings, start: Totals, run: seq<Event>)
    requires Possible(c, start, run)
    ensures Sent(c, After(c, start, run)) <= |c.plans|
  {
    hide After, Possible;
    InvHolds(c, start, run);
  }

  // ---- Every run ends -------------------------------------------------------

  /** More than a worker can still do with a task from the start of a phase on. */
  function PhaseWork(c: Settings, task: nat, phase: Phase): nat
    decreases if phase.Cnames? then 1 else 0
  {
    3 * Queries(PlanOf(c, task), phase) + 4 + if phase.Cnames? then PhaseWork(c, task, Addresses) else 0
  }

  function Remaining(c: Settings, w: Worker): nat {
    match w
    case Exited => 0
    case Waiting => 1
    case Failing(_) => 1
    case Finished(_) => 2
    case Draining(t, phase, flying, ending, _) => 2 * flying + ending + 3 + Later(c, t, phase)
    case Issuing(t, phase, left, flying, ending) => 3 * left + 2 * flying + ending + 4 + Later(c, t, phase)
    case Discovering(t) => PhaseWork(c, t, Cnames) + 1
    case Received(t) => PhaseWork(c, t, Cnames) + 2
  }

  function Later(c: Settings, task: nat, phase: Phase): nat {
    if phase.Cnames? then PhaseWork(c, task, Addresses) else 0
  }

  function RemainingAll(c: Settings, workers: seq<Worker>): nat {
    if workers == [] then 0 else RemainingAll(c, workers[..|workers| - 1]) + Remaining(c, workers[|workers| - 1])
  }

  function Unsent(c: Settings, next: nat): nat
    decreases |c.plans| - next
  {
    if next >= |c.plans| then 0 else PhaseWork(c, next, Cnames) + 2 + Unsent(c, next + 1)
  }

  function DispatcherWork(c: Settings, d: Dispatcher): nat {
    match d
    case Sending(next) => Unsent(c, next) + 2
    case Closed(_) => 1
    case Returned(_) => 0
  }

  /** An upper bound for the number of steps still to come. */
  function Budget(c: Settings, p: Pool): nat {
    DispatcherWork(c, p.dispatcher) + RemainingAll(c, p.workers) + if p.cancelled then 0 else 1
  }

  lemma {:induction false} RemainingUpdate(c: Settings, workers: seq<Worker>, i: nat, w: Worker)
    requires i < |workers|
    ensures RemainingAll(c, workers[i := w]) == RemainingAll(c, workers) - Remaining(c, workers[i]) + Remaining(c, w)
  {
    hide Remaining;
    var n := |workers| - 1;
    if i == n {
      assert workers[i := w][..n] == workers[..n];
    } else {
      assert workers[i := w][..n] == workers[..n][i := w];
      RemainingUpdate(c, workers[..n], i, w);
    }
  }

  lemma MovedRemaining(c: Settings, p: Pool, w: Worker, act: Act)
    requires CanAct(c, p, w, act)
    ensures Remaining(c, Moved(c, p, w, act)) < Remaining(c, w)
  {
  }

  lemma StepSpends(c: Settings, p: Pool, e: Event)
    requires Enabled(c, p, e)
    ensures Budget(c, Step(c, p, e)) < Budget(c, p)
  {
    hide RemainingAll, Moved;
    if e.Work? {
      RemainingUpdate(c, p.workers, e.w, Moved(c, p, p.workers[e.w], e.act));
      MovedRemaining(c, p, p.workers[e.w], e.act);
      AffectedRest(c, p, p.workers[e.w], e.act);
      hide Affected, Remaining;
    } else if e.Dispatch? {
      RemainingUpdate(c, p.workers, e.w, Received(p.dispatcher.next));
    }
  }

  /** No run is longer than its budget, whatever the schedule; so a run that goes on as long as it can returns. */
  lemma {:induction false} EveryRunEnds(c: Settings, start: Totals, run: seq<Event>)
    requires Possible(c, start, run)
    ensures |run| + Budget(c, After(c, start, run)) <= Budget(c, Initial(c, start))
  {
    hide Step, Budget;
    if run != [] {
      EveryRunEnds(c, start, run[..|run| - 1]);
      StepSpends(c, After(c, start, run[..|run| - 1]), run[|run| - 1]);
    }
  }

  // ---- The totals -----------------------------------------------------------

  /** The jobs in their listed order. */
  function AllJobs(c: Settings): seq<Job> {
    seq(|c.plans|, i requires 0 <= i < |c.plans| => c.plans[i].job)
  }

  function Upto(n: nat): seq<nat> {
    seq(n, i => i)
  }

  lemma {:induction false} NoRepeatsCount(s: seq<nat>, x: nat)
    requires NoRepeats(s)
    ensures multiset(s)[x] == if x in s then 1 else 0
  {
    if s != [] {
      var n := |s| - 1;
      assert s == s[..n] + [s[n]];
      assert forall i :: 0 <= i < n ==> s[..n][i] == s[i];
      NoRepeatsCount(s[..n], x);
    }
  }

  lemma SameElements(a: seq<nat>, b: seq<nat>)
    requires NoRepeats(a) && NoRepeats(b) && forall x: nat :: x in a <==> x in b
    ensures multiset(a) == multiset(b)
  {
    forall x: nat
      ensures multiset(a)[x] == multiset(b)[x]
    {
      NoRepeatsCount(a, x);
      NoRepeatsCount(b, x);
    }
  }

  lemma JobsOfRemove(c: Settings, b: seq<nat>, i: nat)
    requires i < |b|
    ensures multiset(JobsOf(c, b)) == multiset(JobsOf(c, b[..i] + b[i + 1..])) + multiset{PlanOf(c, b[i]).job}
  {
    hide PlanOf;
    var js, rest := JobsOf(c, b), b[..i] + b[i + 1..];
    assert js == js[..i] + [js[i]] + js[i + 1..];
    assert JobsOf(c, rest) == js[..i] + js[i + 1..];
  }

  lemma {:induction false} JobsOfPermutation(c: Settings, a: seq<nat>, b: seq<nat>)
    requires multiset(a) == multiset(b)
    ensures multiset(JobsOf(c, a)) == multiset(JobsOf(c, b))
    decreases |a|
  {
    hide JobsOf;
    assert |a| == |multiset(a)| == |multiset(b)| == |b|;
    if a == [] {
      assert b == [];
    } else {
      var n := |a| - 1;
      assert a[n] in multiset(b);
      var i :| 0 <= i < |b| && b[i] == a[n];
      var rest := b[..i] + b[i + 1..];
      WithoutAt(b, i);
      WithoutAt(a, n);
      assert a[..n] + a[n + 1..] == a[..n];
      JobsOfPermutation(c, a[..n], rest);
      JobsOfRemove(c, a, n);
      JobsOfRemove(c, b, i);
    }
  }

  lemma UptoFacts(n: nat)
    ensures NoRepeats(Upto(n)) && forall x: nat :: x in Upto(n) <==> x < n
  {
    forall x: nat | x < n
      ensures x in Upto(n)
    {
      assert Upto(n)[x] == x;
    }
  }

  /** A run without error has merged every task exactly once. */
  lemma SuccessMergesAll(c: Settings, start: Totals, run: seq<Event>)
    requires Possible(c, start, run) && After(c, start, run).dispatcher == Returned(true)
    ensures multiset(After(c, start, run).merged) == multiset(Upto(|c.plans|))
  {
    hide After, Possible, TotalsAgree, SlotsAgree, Upto;
    InvHolds(c, start, run);
    var p := After(c, start, run);
    UptoFacts(|c.plans|);
    forall t: nat
      ensures t in p.merged <==> t in Upto(|c.plans|)
    {
    }
    SameElements(p.merged, Upto(|c.plans|));
  }

  /**
    The totals and the caches of a run without error are those of adding all task
    results one after the other, in any order.
   */
  lemma SuccessIsSequential(c: Settings, start: Totals, run: seq<Event>, order: seq<Job>)
    requires Possible(c, start, run) && After(c, start, run).dispatcher == Returned(true)
    requires multiset(order) == multiset(AllJobs(c))
    ensures After(c, start, run).totals == MergedAll(start, order)
  {
    hide After, Possible, MergedAll, Upto, JobsOf;
    InvHolds(c, start, run);
    SuccessMergesAll(c, start, run);
    var p := After(c, start, run);
    JobsOfPermutation(c, p.merged, Upto(|c.plans|));
    JobsOfUpto(c);
    MergeOrderIrrelevant(start, JobsOf(c, p.merged), order);
  }

  /**
    What a run without error leaves: every task counted once, every inserted address and
    every count of an interface added up, and in the caches exactly what was there and
    what tasks of each set found.
   */
  lemma SuccessTotals(c: Settings, start: Totals, run: seq<Event>)
    requires Possible(c, start, run) && After(c, start, run).dispatcher == Returned(true)
    ensures var t, jobs := After(c, start, run).totals, AllJobs(c);
      && t.processed == start.processed + |c.plans| && t.totalIps == start.totalIps + SumInserted(jobs)
      && CountsAre(start, jobs, t) && CachesAre(start, jobs, t)
  {
    hide After, Possible, MergedAll, CountsAre, CachesAre, SumInserted;
    SuccessIsSequential(c, start, run, AllJobs(c));
    MergedAllMeans(start, AllJobs(c));
  }

  /** Nobody has cancelled and no worker is about to fail. */
  predicate Untroubled(p: Pool) {
    && !p.cancelled && !p.failed && p.dispatcher != Returned(false)
    && forall i :: 0 <= i < |p.workers| ==> !p.workers[i].Failing? && (p.workers[i].Draining? ==> !p.workers[i].failed)
  }

  lemma UntroubledStep(c: Settings, p: Pool, e: Event)
    requires Untroubled(p) && Enabled(c, p, e) && !e.Cancel?
    ensures Untroubled(Step(c, p, e))
  {
    hide Merged;
  }

  /** A run that nobody cancels never fails: when it returns, it returns without error. */
  lemma {:induction false} UncancelledSucceeds(c: Settings, start: Totals, run: seq<Event>)
    requires Possible(c, start, run) && forall i :: 0 <= i < |run| ==> !run[i].Cancel?
    ensures Untroubled(After(c, start, run))
    ensures After(c, start, run).dispatcher.Returned? ==> After(c, start, run).dispatcher == Returned(true)
  {
    hide Step, Enabled;
    if run != [] {
      var n := |run| - 1;
      UncancelledSucceeds(c, start, run[..n]);
      UntroubledStep(c, After(c, start, run[..n]), run[n]);
    }
  }

  lemma JobsOfUpto(c: Settings)
    ensures JobsOf(c, Upto(|c.plans|)) == AllJobs(c)
  {
  }
}
