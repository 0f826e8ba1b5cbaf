/**
  One apply of the routing manager: sets first, then rules, then removal of the
  sets that no rule needs any more.
 */
module RoutingManager {
  import opened Netfilter
  import opened Hosts
  import opened Bindings
  import opened SetNames
  import opened RoutingPlan
  import opened Requests
  import opened Rulesets
  import opened Generations
  import opened IpRulesSync
  import opened RootSwitch
  import opened Leftovers
  import opened HitlessUpdate
  import opened SetStaging
  import opened SetReferences
  import opened SafeUpdates
  import opened Takedown
  import opened Stranding

  datatype ApplyOutcome = PlanRefused | SetsFailed | RulesFailed(result: ApplyResult) | CleanupFailed | Done

  lemma SafeJoin(log1: seq<Step>, log2: seq<Step>, n: nat)
    requires n <= |log1| && log1 <= log2 && SafeSteps(log1, n) && SafeSteps(log2, |log1|)
    ensures SafeSteps(log2, n)
  {
    hide NoDangling;
    forall i | n <= i < |log2|
      ensures NoDangling(log2[i].before) && NoDangling(log2[i].after)
    {
      if i < |log1| { assert log2[i] == log1[i]; }
    }
  }

  // ---- Phases ---------------------------------------------------------------

  /** Between applies a ruleset is live in one generation, or the roots lead at most to what is left of it. */
  datatype Phase = Warm(variant: Variant, bindings: seq<RouteBinding>) | Idle(variant: Variant)

  ghost predicate InPhase(k: Kernel, ph: Phase) {
    match ph
    case Warm(v, bs) => RoutingInv(k, v, bs) && PlannedBindings(bs)
    case Idle(v) => Settled(k, v)
  }

  function LiveBindings(ph: Phase): seq<RouteBinding> {
    if ph.Warm? then ph.bindings else []
  }

  /** What is known of a live ruleset after an apply that could not read the roots. */
  function Doubted(ph: Phase, listable: bool): Phase {
    if listable then ph else Idle(ph.variant)
  }

  lemma PhaseIsSettled(k: Kernel, ph: Phase)
    requires InPhase(k, ph)
    ensures Settled(k, ph.variant)
  {
    hide RoutingInv, Settled, PlannedBindings;
    if ph.Warm? {
      WarmIsSettled(k, ph.variant, ph.bindings);
    }
  }

  /** Before and after every command each hook offers the old or the new ruleset. */
  ghost predicate OnOneRuleset(log: seq<Step>, n: nat, v: Variant, olds: seq<RouteBinding>, news: seq<RouteBinding>) {
    forall i :: n <= i < |log| ==> AllSitesOk(log[i].before, v, olds, news) && AllSitesOk(log[i].after, v, olds, news)
  }

  lemma OneRulesetJoin(log1: seq<Step>, log2: seq<Step>, n: nat, v: Variant, olds: seq<RouteBinding>, news: seq<RouteBinding>)
    requires n <= |log1| && log1 <= log2 && OnOneRuleset(log1, n, v, olds, news) && OnOneRuleset(log2, |log1|, v, olds, news)
    ensures OnOneRuleset(log2, n, v, olds, news)
  {
    hide AllSitesOk;
    forall i | n <= i < |log2|
      ensures AllSitesOk(log2[i].before, v, olds, news) && AllSitesOk(log2[i].after, v, olds, news)
    {
      if i < |log1| { assert log2[i] == log1[i]; }
    }
  }

  lemma SetsPhase(log: seq<Step>, n: nat, k0: Kernel, k: Kernel, d: Desired, collapse: Collapse, ph: Phase, news: seq<RouteBinding>)
    requires InPhase(k0, ph) && RuleSetNames(d) && ReplacingSteps(log, n, k0, d, collapse) && ReplacingState(k0, k, d, collapse)
    ensures SafeSteps(log, n) && InPhase(k, ph)
    ensures ph.Warm? ==> OnOneRuleset(log, n, ph.variant, ph.bindings, news)
  {
    hide RoutingInv, Settled, NoDangling, PlannedBindings, RuleSetNames, ReplacingState, AllSitesOk;
    PhaseIsSettled(k0, ph);
    ReplacingIsSafe(log, n, k0, d, collapse, ph.variant);
    match ph
    case Warm(v, bs) =>
      ReplacingKeepsInv(k0, k, d, collapse, v, bs);
      forall i | n <= i < |log|
        ensures AllSitesOk(log[i].before, v, bs, news) && AllSitesOk(log[i].after, v, bs, news)
      {
        ReplacingKeepsInv(k0, log[i].before, d, collapse, v, bs);
        ReplacingKeepsInv(k0, log[i].after, d, collapse, v, bs);
        InvForeignOk(log[i].before, v, bs);
        InvForeignOk(log[i].after, v, bs);
        InstalledSitesOk(log[i].before, v, bs, news);
        InstalledSitesOk(log[i].after, v, bs, news);
      }
    case Idle(v) =>
      ReplacingKeepsSettled(k0, k, d, collapse, v);
  }

  lemma HitlessRulesets(log: seq<Step>, n: nat, sets: map<string, IpSet>, v: Variant, olds: seq<RouteBinding>, news: seq<RouteBinding>)
    requires HitlessSteps(log, n, sets, v, olds, news)
    ensures OnOneRuleset(log, n, v, olds, news)
  {
    hide HitlessStep, AllSitesOk;
    forall i | n <= i < |log|
      ensures AllSitesOk(log[i].before, v, olds, news) && AllSitesOk(log[i].after, v, olds, news)
    {
      HitlessSites(log[i], sets, v, olds, news);
    }
  }

  lemma HitlessSites(s: Step, sets: map<string, IpSet>, v: Variant, olds: seq<RouteBinding>, news: seq<RouteBinding>)
    requires HitlessStep(s, sets, v, olds, news)
    ensures AllSitesOk(s.before, v, olds, news) && AllSitesOk(s.after, v, olds, news)
  {
  }

  lemma CleaningPhase(log: seq<Step>, n: nat, k0: Kernel, k: Kernel, d: Desired, v: Variant, olds: seq<RouteBinding>, news: seq<RouteBinding>)
    requires RoutingInv(k0, Other(v), news) && AllSetsDesired(news, d)
    requires CleaningSteps(log, n, k0, d.Keys) && CleaningState(k0, k, d.Keys)
    ensures SafeSteps(log, n) && RoutingInv(k, Other(v), news) && OnOneRuleset(log, n, v, olds, news)
  {
    hide RoutingInv, NoDangling, CleaningState, UsesSet, AllSitesOk, AllSetsDesired;
    UsedSetsAreDesired(news, d);
    CleaningIsSafe(log, n, k0, d.Keys, Other(v), news);
    CleaningKeepsInv(k0, k, d.Keys, Other(v), news);
    forall i | n <= i < |log|
      ensures AllSitesOk(log[i].before, v, olds, news) && AllSitesOk(log[i].after, v, olds, news)
    {
      CleaningKeepsInv(k0, log[i].before, d.Keys, Other(v), news);
      CleaningKeepsInv(k0, log[i].after, d.Keys, Other(v), news);
      NewSitesOk(log[i].before, v, olds, news);
      NewSitesOk(log[i].after, v, olds, news);
    }
  }

  lemma NewSitesOk(k: Kernel, v: Variant, olds: seq<RouteBinding>, news: seq<RouteBinding>)
    requires RoutingInv(k, Other(v), news)
    ensures AllSitesOk(k, v, olds, news)
  {
    hide Built, Linked, ForeignOk, SetsLive;
    forall f: Family, kind: Kind ensures SiteOk(k, v, olds, news, f, kind) {
      assert ChainIs(k, RootId(f, kind), [JumpTo(Gen(kind, Other(v)))]) && Built(k, Other(v), news, f, kind);
    }
  }

  // ---- Without groups -------------------------------------------------------

  lemma TakedownSteps(log0: seq<Step>, log1: seq<Step>, log: seq<Step>, k1: Kernel)
    requires log0 <= log1 <= log && ShrinkFrom(log1, |log0|) && CleaningSteps(log, |log1|, k1, {})
    ensures TakesDown(log, |log0|)
  {
    hide ShrinkCmd, CleaningState;
    forall i | |log0| <= i < |log|
      ensures ShrinkCmd(log[i].cmd) || log[i].cmd.DestroySet?
    {
      if i < |log1| { assert log[i] == log1[i]; }
    }
  }

  lemma ShrinkIsClear(log: seq<Step>, n: nat)
    requires ShrinkFrom(log, n)
    ensures ClearFrom(log, n)
  {
  }

  lemma DestroyingIsTaking(log: seq<Step>, n: nat, k: Kernel)
    requires CleaningSteps(log, n, k, {})
    ensures TakesDown(log, n)
  {
    hide CleaningState, ShrinkCmd;
  }

  /** If the sets that are left suffice for what the roots lead to, they did so at every step. */
  lemma SettledCleaningIsSafe(start: Kernel, log1: seq<Step>, k1: Kernel, log: seq<Step>, k: Kernel, v: Variant)
    requires Chained(start, log1, k1) && Chained(start, log, k) && log1 <= log
    requires ForeignOk(k1) && CleaningSteps(log, |log1|, k1, {}) && CleaningState(k1, k, {}) && Settled(k, v)
    ensures SafeSteps(log, |log1|)
  {
    hide Chained, ForeignOk, NoDangling, Calm, RootsSafe, LiveNames, Ran;
    var n := |log1|;
    LogStates(start, log1, k1, log, k);
    DestroyingIsTaking(log, n, k1);
    forall m | n <= m <= |log|
      ensures forall name :: name in k.sets ==> name in StateAt(start, log, m).sets
    {
      forall name | name in k.sets
        ensures name in StateAt(start, log, m).sets
      {
        DestroyedRun(start, log, n, |log|, k, name);
        DestroyedRun(start, log, n, m, k, name);
      }
    }
    forall i | n <= i < |log|
      ensures NoDangling(log[i].before) && NoDangling(log[i].after)
    {
      ChainedAt(start, log, k, i);
      CleanedIsSafe(k1, log[i].before, k, v);
      CleanedIsSafe(k1, log[i].after, k, v);
    }
  }

  lemma CleanedIsSafe(k1: Kernel, mid: Kernel, k: Kernel, v: Variant)
    requires ForeignOk(k1) && CleaningState(k1, mid, {}) && CleaningState(k1, k, {}) && Settled(k, v)
    requires forall name :: name in k.sets ==> name in mid.sets
    ensures NoDangling(mid)
  {
    hide ForeignOk, NoDangling, Calm, RootsSafe, IsSetName;
    ForeignOkFrame(k1, mid);
    SameChainsCalm(k, mid, v, LiveNames(k), LiveNames(k));
    CalmIsSafe(mid, v, LiveNames(k));
    SafeRootsNeverDangle(mid, LiveNames(k));
  }

  /** A takedown leaves the roots settled iff it stranded no rule, and only then may they be linked again. */
  lemma TakedownIsExact(start: Kernel, log0: seq<Step>, k0: Kernel, log: seq<Step>, k: Kernel, v: Variant)
    requires Chained(start, log0, k0) && Chained(start, log, k) && log0 <= log && TakesDown(log, |log0|)
    requires Settled(k0, v) && ForeignOk(k) && Calm(k, v, LiveNames(k0))
    ensures Settled(k, v) <==> !Stranded(k0, log, |log0|, |log|)
    ensures forall k' :: Relinks(k, k') ==> (NoDangling(k') <==> !Stranded(k0, log, |log0|, |log|))
  {
    hide Chained, ForeignOk, NoDangling, Calm, Stranded, TakesDown, IsSetName, LeadsAstray, Relinks;
    LogStates(start, log0, k0, log, k);
    CalmNeverAstray(k0, v);
    StrandedIffAstray(start, log, |log0|, |log|, k);
    if Settled(k, v) { CalmNeverAstray(k, v); }
    if !LeadsAstray(k) { NotAstrayIsCalm(k, v, LiveNames(k0)); }
    forall k' | Relinks(k, k')
      ensures NoDangling(k') <==> !Stranded(k0, log, |log0|, |log|)
    {
      RelinkedDanglesIff(k, k', v, LiveNames(k0));
    }
  }

  lemma TakenCalm(start: Kernel, log0: seq<Step>, k0: Kernel, log1: seq<Step>, k1: Kernel, k: Kernel, v: Variant)
    requires Chained(start, log0, k0) && Chained(start, log1, k1) && log0 <= log1 && ShrinkFrom(log1, |log0|)
    requires Settled(k0, v) && CleaningState(k1, k, {})
    ensures SafeSteps(log1, |log0|) && ForeignOk(k1) && ForeignOk(k) && Calm(k, v, LiveNames(k0))
  {
    hide Chained, ForeignOk, NoDangling, Calm, ShrinkFrom, LiveNames, Shrunk;
    SettledNeverDangles(k0, v);
    ShrinkIsSafe(start, log0, k0, log1, k1);
    ShrunkForeignOk(k0, k1);
    ForeignOkFrame(k1, k);
    ShrinkIsClear(log1, |log0|);
    CalmSoFar(start, log0, k0, log1, k1, v, LiveNames(k0));
    SameChainsCalm(k1, k, v, LiveNames(k0), LiveNames(k0));
  }

  /** Once every rule set is gone, rules are stranded iff a whole path of the live ruleset resisted. */
  lemma WarmIsStrandedIff(start: Kernel, log0: seq<Step>, k0: Kernel, log: seq<Step>, k: Kernel, v: Variant, bs: seq<RouteBinding>)
    requires Chained(start, log0, k0) && Chained(start, log, k) && log0 <= log && TakesDown(log, |log0|)
    requires RoutingInv(k0, v, bs) && PlannedBindings(bs) && forall n :: n in k.sets ==> !(SET_PREFIX <= n)
    ensures Stranded(k0, log, |log0|, |log|) <==> PathResisted(log, |log0|, |log|, v, bs)
  {
    hide Chained, RoutingInv, TakesDown, Stranded, PathResisted, UsesSet, SetName;
    LogStates(start, log0, k0, log, k);
    forall i, f, name | 0 <= i < |bs| && UsesSet(bs[i], f, name)
      ensures name !in k.sets
    {
      assert PlannedBinding(bs[i]) && IsSetName(name);
      var g, j, kind, f' :| name == SetName(g, j, kind, f');
      SetNameHasPrefix(g, j, kind, f');
    }
    StrandedIffResisted(start, log, |log0|, |log|, k, v, bs);
  }

  /**
    The branch without groups: everything is taken down. Afterwards what the roots lead
    to has its sets, and linking them again is harmless, iff no rule was stranded: iff
    on each path from a mark root to a rule whose set was destroyed some flush or
    deletion took effect.
   */
  method ApplyNothing(host: Host, ghost ph: Phase) returns (ok: bool)
    requires host.Valid()
    modifies host
    ensures host.Valid() && old(host.log) <= host.log
    ensures old(FewLinks(host.kernel)) ==> Unlinked(host.kernel)
    ensures old(InPhase(host.kernel, ph)) && (old(FewLinks(host.kernel)) || !Stranded(old(host.kernel), host.log, |old(host.log)|, |host.log|)) ==>
      SafeSteps(host.log, |old(host.log)|)
    ensures old(InPhase(host.kernel, ph)) ==>
      (InPhase(host.kernel, Idle(ph.variant)) <==> !Stranded(old(host.kernel), host.log, |old(host.log)|, |host.log|))
    ensures old(InPhase(host.kernel, ph)) ==> forall k' :: Relinks(host.kernel, k') ==>
      (NoDangling(k') <==> !Stranded(old(host.kernel), host.log, |old(host.log)|, |host.log|))
    ensures old(InPhase(host.kernel, ph)) && ph.Warm? && ok ==>
      (Stranded(old(host.kernel), host.log, |old(host.log)|, |host.log|)
       <==> PathResisted(host.log, |old(host.log)|, |host.log|, ph.variant, ph.bindings))
    ensures TakesDown(host.log, |old(host.log)|) && (ok ==> forall n :: n in host.kernel.sets ==> !(SET_PREFIX <= n))
    ensures ProtectsUsed(host.log, |old(host.log)|, |host.log|) ==> !Stranded(old(host.kernel), host.log, |old(host.log)|, |host.log|)
    ensures (forall t, n :: !host.faults(t, DestroySet(n))) && (forall t :: !host.lost(t)) ==> ok
    ensures host.Flawless() ==> ok && ChainsGone(host.kernel)
    ensures host.listable ==> ManagedGone(old(host.kernel), host.kernel, V4) && ManagedGone(old(host.kernel), host.kernel, V6)
  {
    hide Chained, FewLinks, Unlinked, ShrinkFrom, NoDangling, CleaningState, CleaningSteps, ForeignOk, Settled, RoutingInv,
         PlannedBindings, ManagedGone, Stranded, PathResisted, TakesDown, Relinks, Calm, LiveNames, SafeSteps, ProtectsUsed;
    ghost var k0, log0, v := host.kernel, host.log, ph.variant;
    FlushRules(host);
    ghost var k1, log1 := host.kernel, host.log;
    ok := CleanupStaleSets(host, {});
    TakedownSteps(log0, log1, host.log, k1);
    CleaningChains(k1, host.kernel, {});
    if host.listable {
      ManagedStaysGone(k0, k1, host.kernel, V4);
      ManagedStaysGone(k0, k1, host.kernel, V6);
    }
    if ProtectsUsed(host.log, |log0|, |host.log|) {
      LogStates(host.start, log0, k0, host.log, host.kernel);
      ProtectedNeverStrands(host.start, host.log, |log0|, |host.log|, host.kernel);
    }
    if Unlinked(k1) {
      UnlinkedSame(k1, host.kernel);
    }
    if InPhase(k0, ph) {
      PhaseIsSettled(k0, ph);
      TakenCalm(host.start, log0, k0, log1, k1, host.kernel, v);
      TakedownIsExact(host.start, log0, k0, host.log, host.kernel, v);
      if ph.Warm? && ok {
        WarmIsStrandedIff(host.start, log0, k0, host.log, host.kernel, v, ph.bindings);
      }
      if Unlinked(k1) {
        UnlinkedCleaningIsSafe(host.log, |log1|, k1);
        SafeJoin(log1, host.log, |log0|);
      } else if Settled(host.kernel, v) {
        SettledCleaningIsSafe(host.start, log1, k1, host.log, host.kernel, v);
        SafeJoin(log1, host.log, |log0|);
      }
    }
  }

  lemma InvForeignOk(k: Kernel, v: Variant, bs: seq<RouteBinding>)
    requires RoutingInv(k, v, bs)
    ensures ForeignOk(k) && SetsLive(bs, k) && Installed(k, v, bs)
  {
  }

  lemma ExactSetsLive(bs: seq<RouteBinding>, d: Desired, k: Kernel)
    requires AllSetsDesired(bs, d) && forall n :: n in d ==> n in k.sets
    ensures SetsLive(bs, k)
  {
    hide UsesSet;
    UsedSetsAreDesired(bs, d);
  }

  /** An apply that ends before the switch. */
  predicate KeepsPhase(r: ApplyOutcome) {
    r.PlanRefused? || r.SetsFailed? || (r.RulesFailed? && (r.result.PrepareFailed? || r.result.BindingsFailed?))
  }

  /** An apply that has switched all roots. */
  predicate Advances(r: ApplyOutcome) {
    r.Done? || r.CleanupFailed? || (r.RulesFailed? && r.result.IpRulesFailed?)
  }

  /** The phase after an apply that did not fail in the middle of the switch to generation `w`. */
  function NextPhase(ph: Phase, q: Request, r: ApplyOutcome, w: Variant, listable: bool): Phase
    requires q.groups != [] ==> r.PlanRefused? || PlanUsable(q)
  {
    if q.groups == [] then Idle(ph.variant)
    else if KeepsPhase(r) then Doubted(ph, listable)
    else Warm(w, PlannedRuleset(q))
  }

  predicate SwitchBroke(r: ApplyOutcome) {
    r.RulesFailed? && r.result.SwitchFailed?
  }

  /** What every command of an apply with groups keeps; `hitless` says that the roots could be read. */
  ghost predicate Kept(log: seq<Step>, n: nat, ph: Phase, news: seq<RouteBinding>, hitless: bool) {
    SafeSteps(log, n) && (hitless && ph.Warm? ==> OnOneRuleset(log, n, ph.variant, ph.bindings, news))
  }

  lemma KeptJoin(log1: seq<Step>, log2: seq<Step>, n: nat, ph: Phase, news: seq<RouteBinding>, hitless: bool)
    requires n <= |log1| && log1 <= log2 && Kept(log1, n, ph, news, hitless) && Kept(log2, |log1|, ph, news, hitless)
    ensures Kept(log2, n, ph, news, hitless)
  {
    hide SafeSteps, OnOneRuleset;
    SafeJoin(log1, log2, n);
    if hitless && ph.Warm? {
      OneRulesetJoin(log1, log2, n, ph.variant, ph.bindings, news);
    }
  }

  ghost predicate Inactive(k: Kernel) {
    NothingActive(k) && ForeignOk(k)
  }

  method SetsStage(host: Host, d: Desired, collapse: Collapse, ghost ph: Phase, ghost news: seq<RouteBinding>) returns (ok: bool)
    requires host.Valid() && StagingApart(d) && RuleSetNames(d) && AllSetsDesired(news, d)
    modifies host
    ensures host.Valid() && old(host.log) <= host.log
    ensures old(InPhase(host.kernel, ph)) ==> Kept(host.log, |old(host.log)|, ph, news, host.listable) && InPhase(host.kernel, ph)
    ensures old(Inactive(host.kernel)) ==> Inactive(host.kernel)
    ensures ok ==> SetsLive(news, host.kernel)
    ensures host.kernel.chains == old(host.kernel).chains && SameIpRules(old(host.kernel), host.kernel)
    ensures ok && CoverPreserving(collapse) ==> SetsCover(host.kernel, d)
    ensures host.Flawless() && old(SetsFit(host.kernel, d)) && AllCollapse(collapse, d) ==> ok
  {
    hide Chained, InPhase, NothingActive, ForeignOk, SetsLive, ReplacingState, RuleSetNames, StagingApart, AllSetsDesired, Contents,
         StagedName, OnOneRuleset, SafeSteps, ReplacingSteps, IsStagedName, Covered, CoverPreserving, SetsCover, SetsFit, AllCollapse;
    ghost var k0, log0 := host.kernel, host.log;
    ok := ApplyDesiredSets(host, d, collapse);
    ReplacingFrame(k0, host.kernel, d, collapse);
    if InPhase(k0, ph) {
      SetsPhase(host.log, |log0|, k0, host.kernel, d, collapse, ph, news);
    }
    if Inactive(k0) {
      ReplacingKeepsFresh(k0, host.kernel, d, collapse);
    }
    if ok {
      ExactSetsLive(news, d, host.kernel);
    }
  }

  /** No stale policy rule has more copies than one apply deletes. */
  ghost predicate FewStale(k: Kernel, bs: seq<RouteBinding>) {
    FewCopies(k, V4, DesiredTables(bs)) && FewCopies(k, V6, DesiredTables(bs))
  }

  lemma ReplacingFrame(k0: Kernel, k: Kernel, d: Desired, collapse: Collapse)
    requires ReplacingState(k0, k, d, collapse)
    ensures k.chains == k0.chains && SameIpRules(k0, k)
  {
  }

  method RulesStage(host: Host, bindings: seq<RouteBinding>, ghost ph: Phase) returns (r: ApplyResult, ghost w: Variant)
    requires host.Valid() && SetsLive(SortBindings(bindings), host.kernel) && PlannedBindings(SortBindings(bindings))
    modifies host
    ensures host.Valid() && old(host.log) <= host.log
    ensures old(InPhase(host.kernel, ph)) ==>
      && Kept(host.log, |old(host.log)|, ph, SortBindings(bindings), host.listable)
      && (r.PrepareFailed? || r.BindingsFailed? ==> InPhase(host.kernel, Doubted(ph, host.listable)))
      && (r.Applied? || r.IpRulesFailed? ==> RoutingInv(host.kernel, w, SortBindings(bindings)))
      && (ph.Warm? && host.listable ==> w == Other(ph.variant))
    ensures old(Inactive(host.kernel)) && (r.Applied? || r.IpRulesFailed?) ==> w == A && RoutingInv(host.kernel, A, SortBindings(bindings))
    ensures host.kernel.sets == old(host.kernel).sets && (!(r.PrepareFailed? || r.BindingsFailed?) ==> Acceptable(bindings))
    ensures host.Flawless() && old(ParentsExist(host.kernel)) ==> (r.Applied? <==> Acceptable(bindings))
    ensures r.Applied? && host.listable && old(FewStale(host.kernel, SortBindings(bindings))) ==> BothServe(host.kernel, bindings)
  {
    hide Chained, RoutingInv, Installed, ForeignOk, SetsLive, HitlessSteps, ForeignSafeFrom, SortBindings, EndsOn, Settled, Calm,
         RulesServe, Acceptable, ParentsExist, FewCopies, NothingActive, Phased, CalmUntil, OnOneRuleset, SafeSteps, DesiredTables, PlannedBindings, LiveNames;
    ghost var k0, log0 := host.kernel, host.log;
    ghost var cut;
    r, cut, w := HitlessUpdate.ApplyRules(host, bindings, ph.variant, LiveBindings(ph), LiveNames(k0));
    ghost var news := SortBindings(bindings);
    if InPhase(k0, ph) {
      if ph.Warm? { InvForeignOk(k0, ph.variant, ph.bindings); }
      RulesPhase(host.start, log0, k0, host.log, host.kernel, r, cut, w, ph, news, host.listable);
    }
    if Inactive(k0) && (r.Applied? || r.IpRulesFailed?) {
      FreshRulesPhase(host.start, log0, k0, host.log, host.kernel, cut, w, news);
    }
  }

  method CleanStage(host: Host, d: Desired, ghost w: Variant, ghost ph: Phase, ghost news: seq<RouteBinding>) returns (ok: bool)
    requires host.Valid() && AllSetsDesired(news, d)
    modifies host
    ensures host.Valid() && old(host.log) <= host.log
    ensures old(RoutingInv(host.kernel, w, news)) ==>
      && Kept(host.log, |old(host.log)|, ph, news, w == Other(ph.variant)) && RoutingInv(host.kernel, w, news)
    ensures SameIpRules(old(host.kernel), host.kernel) && (old(SetsCover(host.kernel, d)) ==> SetsCover(host.kernel, d))
    ensures host.Flawless() ==> ok
  {
    hide Chained, RoutingInv, CleaningState, CleaningSteps, AllSetsDesired, OnOneRuleset, SafeSteps, SetsCover;
    ghost var k0, log0 := host.kernel, host.log;
    ok := CleanupStaleSets(host, d.Keys);
    CleaningFrame(k0, host.kernel, d);
    if RoutingInv(k0, w, news) {
      CleaningPhase(host.log, |log0|, k0, host.kernel, d, Other(w), LiveBindings(ph), news);
    }
  }

  lemma ManagedStaysGone(k0: Kernel, k1: Kernel, k: Kernel, f: Family)
    requires ManagedGone(k0, k1, f) && SameIpRules(k1, k)
    ensures ManagedGone(k0, k, f)
  {
    hide Managed, CopiesLeft;
  }

  lemma CleaningChains(k0: Kernel, k: Kernel, keep: set<string>)
    requires CleaningState(k0, k, keep)
    ensures k.chains == k0.chains && SameIpRules(k0, k)
  {
  }

  lemma CleaningFrame(k0: Kernel, k: Kernel, d: Desired)
    requires CleaningState(k0, k, d.Keys)
    ensures SameIpRules(k0, k) && (SetsCover(k0, d) ==> SetsCover(k, d))
  {
    hide Covered, EntrySet;
    if SetsCover(k0, d) {
      forall n, a | n in d
        ensures InSet(k.sets, n, a) <==> Covered(EntrySet(d[n].entries), a)
      {
        assert SameSet(k0, k, n);
        assert InSet(k0.sets, n, a) <==> InSet(k.sets, n, a);
      }
    }
  }

  lemma FewStaleSame(k: Kernel, k': Kernel, bs: seq<RouteBinding>)
    requires FewStale(k, bs) && SameIpRules(k, k')
    ensures FewStale(k', bs)
  {
    hide DesiredTables;
    FewCopiesSame(k, k', V4, DesiredTables(bs));
    FewCopiesSame(k, k', V6, DesiredTables(bs));
  }

  /** The managed policy rules of both families are those of the bindings. */
  ghost predicate BothServe(k: Kernel, bs: seq<RouteBinding>) {
    RulesServe(k, V4, bs) && RulesServe(k, V6, bs)
  }

  lemma BothServeSame(k: Kernel, k': Kernel, bs: seq<RouteBinding>)
    requires BothServe(k, bs) && SameIpRules(k, k')
    ensures BothServe(k', bs)
  {
    hide HasRoute;
  }

  /** Replaces the sets, then the rules, then removes the sets that are left over. */
  method ApplyPlan(host: Host, bindings: seq<RouteBinding>, d: Desired, collapse: Collapse, ghost ph: Phase)
    returns (r: ApplyOutcome, ghost w: Variant)
    requires host.Valid() && StagingApart(d) && RuleSetNames(d) && AllSetsDesired(SortBindings(bindings), d)
    requires PlannedBindings(SortBindings(bindings))
    modifies host
    ensures host.Valid() && old(host.log) <= host.log
    ensures !r.PlanRefused? && (r.RulesFailed? ==> !r.result.Applied?)
    ensures old(InPhase(host.kernel, ph)) ==>
      && Kept(host.log, |old(host.log)|, ph, SortBindings(bindings), host.listable)
      && (KeepsPhase(r) ==> InPhase(host.kernel, Doubted(ph, host.listable)))
      && (Advances(r) ==> RoutingInv(host.kernel, w, SortBindings(bindings)))
      && (Advances(r) && ph.Warm? && host.listable ==> w == Other(ph.variant))
    ensures old(Inactive(host.kernel)) && Advances(r) ==> w == A && RoutingInv(host.kernel, A, SortBindings(bindings))
    ensures Advances(r) ==> Acceptable(bindings) && (CoverPreserving(collapse) ==> SetsCover(host.kernel, d))
    ensures (r.Done? || r.CleanupFailed?) && host.listable && old(FewStale(host.kernel, SortBindings(bindings))) ==>
      BothServe(host.kernel, bindings)
    ensures host.Flawless() && old(ParentsExist(host.kernel)) && old(SetsFit(host.kernel, d)) && AllCollapse(collapse, d) ==>
      (r.Done? <==> Acceptable(bindings))
  {
    hide Chained, InPhase, RoutingInv, PlannedBindings, SetsLive, SortBindings, RuleSetNames, StagingApart, AllSetsDesired, Inactive, Kept,
         Acceptable, SetsCover, CoverPreserving, SetsFit, AllCollapse, FewStale, RulesServe, ParentsExist;
    ghost var log0, k0 := host.log, host.kernel;
    ghost var inv, news := InPhase(host.kernel, ph), SortBindings(bindings);
    w := A;
    var ok := SetsStage(host, d, collapse, ph, news);
    ghost var log1, k1 := host.log, host.kernel;
    if inv { DoubtedPhase(host.kernel, ph, host.listable); }
    if !ok { return SetsFailed, w; }
    SameParents(k0, host.kernel);
    if FewStale(k0, news) { FewStaleSame(k0, host.kernel, news); }

    var applied;
    applied, w := RulesStage(host, bindings, ph);
    ghost var log2, k2 := host.log, host.kernel;
    if SetsCover(k1, d) { SameSetsCover(k1, k2, d); }
    if inv { KeptJoin(log1, log2, |log0|, ph, news, host.listable); }
    if !applied.Applied? { return RulesFailed(applied), w; }

    ok := CleanStage(host, d, w, ph, news);
    if BothServe(k2, bindings) { BothServeSame(k2, host.kernel, bindings); }
    if inv {
      KeptWeakly(host.log, |log2|, ph, news, w == Other(ph.variant), host.listable);
      KeptJoin(log2, host.log, |log0|, ph, news, host.listable);
    }
    r := if ok then Done else CleanupFailed;
  }

  lemma SameSetsCover(k: Kernel, k': Kernel, d: Desired)
    requires SetsCover(k, d) && k'.sets == k.sets
    ensures SetsCover(k', d)
  {
    hide Covered, EntrySet;
  }

  lemma SameParents(k: Kernel, k': Kernel)
    requires k'.chains == k.chains
    ensures ParentsExist(k') <==> ParentsExist(k)
  {
  }

  /**
    The branch with groups. An error before the switch keeps the phase; every later
    outcome but a failed switch leaves the new ruleset live in generation `w`, with its
    sets and policy rules. When nothing fails and no set is in the way, the apply
    succeeds iff the plan is usable and no marks clash.
   */
  method ApplyGroups(host: Host, q: Request, collapse: Collapse, ghost ph: Phase) returns (r: ApplyOutcome, ghost w: Variant)
    requires host.Valid()
    modifies host
    ensures host.Valid() && old(host.log) <= host.log
    ensures r.PlanRefused? || (PlanUsable(q) && PlannedBindings(PlannedRuleset(q)))
    ensures r.PlanRefused? ==> host.log == old(host.log) && host.kernel == old(host.kernel)
    ensures r.RulesFailed? ==> !r.result.Applied?
    ensures old(InPhase(host.kernel, ph)) ==>
      && (!r.PlanRefused? ==> Kept(host.log, |old(host.log)|, ph, PlannedRuleset(q), host.listable))
      && (KeepsPhase(r) ==> InPhase(host.kernel, Doubted(ph, host.listable)))
      && (Advances(r) ==> RoutingInv(host.kernel, w, PlannedRuleset(q)))
      && (Advances(r) && ph.Warm? && host.listable ==> w == Other(ph.variant))
    ensures old(Inactive(host.kernel)) && Advances(r) ==> w == A && RoutingInv(host.kernel, A, PlannedRuleset(q))
    ensures Advances(r) ==> NoMarkClash(q) && (CoverPreserving(collapse) ==> SetsCover(host.kernel, PlannedSets(q)))
    ensures (r.Done? || r.CleanupFailed?) && host.listable && old(FewStale(host.kernel, PlannedRuleset(q))) ==>
      BothServe(host.kernel, PlannedRuleset(q))
    ensures host.Flawless() && old(Unobstructed(host.kernel, q)) && AllCollapse(collapse, PlannedSets(q)) ==>
      (r.Done? <==> PlanUsable(q) && NoMarkClash(q))
  {
    hide Chained, InPhase, RoutingInv, PlannedBindings, FullDesired, AllBindings, SortBindings, SortGroups, ProfilesUsable, RuleSetNames,
         StagingApart, AllSetsDesired, Inactive, Kept, Acceptable, SetsCover, CoverPreserving, SetsFit, AllCollapse, FewStale, BothServe,
         ParentsExist, NoMarkClash;
    w := A;
    var plan := BuildPlan(SortGroups(q.groups), q.profiles, q.resolved, q.prewarmed);
    if plan.Refused? {
      if InPhase(host.kernel, ph) { DoubtedPhase(host.kernel, ph, host.listable); }
      return PlanRefused, w;
    }
    PlanFacts(q, plan.desired);
    PlanAcceptableIff(q);
    r, w := ApplyPlan(host, plan.bindings, plan.desired, collapse, ph);
    if BothServe(host.kernel, plan.bindings) { BothSorted(host.kernel, plan.bindings); }
  }

  /** The built-in chains exist, and no set of another family is in the way. */
  ghost predicate Unobstructed(k: Kernel, q: Request) {
    ParentsExist(k) && SetsFit(k, PlannedSets(q))
  }

  lemma BothSorted(k: Kernel, bs: seq<RouteBinding>)
    requires BothServe(k, bs)
    ensures BothServe(k, SortBindings(bs))
  {
    hide RulesServe, SortBindings;
    ServesSorted(k, V4, bs);
    ServesSorted(k, V6, bs);
  }

  lemma KeptWeakly(log: seq<Step>, n: nat, ph: Phase, news: seq<RouteBinding>, strong: bool, hitless: bool)
    requires Kept(log, n, ph, news, strong) && (hitless && ph.Warm? ==> strong)
    ensures Kept(log, n, ph, news, hitless)
  {
    hide SafeSteps, OnOneRuleset;
  }

  lemma DoubtedPhase(k: Kernel, ph: Phase, listable: bool)
    requires InPhase(k, ph)
    ensures InPhase(k, Doubted(ph, listable))
  {
    hide RoutingInv, Settled, PlannedBindings;
    PhaseIsSettled(k, ph);
  }

  lemma PlanFacts(q: Request, d: Desired)
    requires PlanUsable(q) && d == FullDesired(SortGroups(q.groups), q.resolved, q.prewarmed)
    ensures RuleSetNames(d) && StagingApart(d) && AllSetsDesired(PlannedRuleset(q), d)
    ensures PlannedBindings(PlannedRuleset(q))
  {
    hide FullDesired, AllBindings, SortBindings, RuleSetNames, StagingApart, AllSetsDesired, PlannedBindings, IsStagedName;
    var sorted := SortGroups(q.groups);
    FullDesiredNames(sorted, q.resolved, q.prewarmed);
    PlannedNamesAreApart(d);
    BindingSetsDesired(sorted, q.profiles, q.resolved, q.prewarmed);
    SortedDesired(AllBindings(sorted, q.profiles), d);
    AllBindingsPlanned(sorted, q.profiles);
    SortedPlanned(AllBindings(sorted, q.profiles));
  }

  /**
    Makes the packet filter and the ipsets match the groups. From a live ruleset, or
    from roots that lead at most to what is left of one, no command leaves a reachable
    rule with a missing set, on either branch and whatever fails. Over a live ruleset
    every packet meets the old or the new one after every command.
   */
  method ApplyLocked(host: Host, q: Request, collapse: Collapse, ghost ph: Phase) returns (r: ApplyOutcome, ghost w: Variant)
    requires host.Valid()
    modifies host
    ensures host.Valid() && old(host.log) <= host.log
    ensures old(InPhase(host.kernel, ph))
            && (q.groups == [] ==> old(FewLinks(host.kernel)) || !Stranded(old(host.kernel), host.log, |old(host.log)|, |host.log|)) ==>
      SafeSteps(host.log, |old(host.log)|)
    ensures if q.groups == [] then !SwitchBroke(r) else r.PlanRefused? || PlanUsable(q)
    ensures q.groups == [] && ProtectsUsed(host.log, |old(host.log)|, |host.log|) ==>
      !Stranded(old(host.kernel), host.log, |old(host.log)|, |host.log|)
    ensures old(InPhase(host.kernel, ph)) && !SwitchBroke(r)
            && (q.groups == [] ==> !Stranded(old(host.kernel), host.log, |old(host.log)|, |host.log|)) ==>
      InPhase(host.kernel, NextPhase(ph, q, r, w, host.listable))
    ensures old(InPhase(host.kernel, ph)) && ph.Warm? && host.listable && q.groups != [] && Advances(r) ==> w == Other(ph.variant)
    ensures old(Inactive(host.kernel)) && q.groups != [] && Advances(r) ==>
      InPhase(host.kernel, Warm(A, PlannedRuleset(q)))
    ensures old(InPhase(host.kernel, ph)) && host.listable && q.groups != [] && ph.Warm? ==>
      host.log == old(host.log)
      || (PlanUsable(q) && OnOneRuleset(host.log, |old(host.log)|, ph.variant, ph.bindings, PlannedRuleset(q)))
    ensures old(InPhase(host.kernel, ph)) && host.listable && q.groups != [] && ph.Warm? && AllNormalized(ph.bindings)
            && PlanUsable(q) && AllNormalized(PlannedRuleset(q)) ==>
      PacketsHitless(host.log, |old(host.log)|, ph.bindings, PlannedRuleset(q))
    ensures q.groups != [] && Advances(r) ==> NoMarkClash(q) && (CoverPreserving(collapse) ==> SetsCover(host.kernel, PlannedSets(q)))
    ensures q.groups != [] && (r.Done? || r.CleanupFailed?) && host.listable && old(FewStale(host.kernel, PlannedRuleset(q))) ==>
      BothServe(host.kernel, PlannedRuleset(q))
    ensures q.groups != [] && host.Flawless() && old(Unobstructed(host.kernel, q)) && AllCollapse(collapse, PlannedSets(q)) ==>
      (r.Done? <==> PlanUsable(q) && NoMarkClash(q))
    ensures q.groups == [] && host.Flawless() ==> r.Done? && ChainsGone(host.kernel)
    ensures q.groups == [] && r.Done? ==> forall n :: n in host.kernel.sets ==> !(SET_PREFIX <= n)
  {
    hide Chained, RoutingInv, Settled, FewLinks, PlannedBindings, Inactive, OnOneRuleset, PlanUsable, Stranded, PlannedRuleset, Unlinked,
         NoDangling, PacketsHitless, AllNormalized, Relinks, PathResisted, ProtectsUsed, TakesDown, NoMarkClash, SetsCover, CoverPreserving,
         FewStale, BothServe, Unobstructed, AllCollapse, ChainsGone, ManagedGone, PlannedSets;
    w := A;
    if q.groups == [] {
      var ok := ApplyNothing(host, ph);
      return if ok then Done else CleanupFailed, w;
    }
    ghost var was, n := InPhase(host.kernel, ph) && host.listable, |host.log|;
    r, w := ApplyGroups(host, q, collapse, ph);
    if was && ph.Warm? && AllNormalized(ph.bindings) && PlanUsable(q) && AllNormalized(PlannedRuleset(q)) {
      RulesetMeets(host.log, n, ph.variant, ph.bindings, PlannedRuleset(q));
    }
  }

  // ---- Refreshing the destination sets --------------------------------------

  lemma FastNames(groups: seq<DomainGroup>, resolved: map<Selector, Values>, prewarmed: map<string, Values>)
    ensures RuleSetNames(FastDesired(groups, resolved, prewarmed))
  {
    hide FullDesired, FastDesired, IsSetName, IsDestinationName;
    FullDesiredNames(groups, resolved, prewarmed);
    FastRefreshAgrees(groups, resolved, prewarmed);
  }

  /** No set of another family is in the way of the destination sets, and their entries can be merged. */
  ghost predicate RefreshFits(k: Kernel, q: Request, collapse: Collapse) {
    var d := FastDesired(SortGroups(q.groups), q.resolved, q.prewarmed);
    SetsFit(k, d) && AllCollapse(collapse, d)
  }

  /**
    The refresh between applies: replaces the destination sets and touches no rule. It
    keeps every phase, and success leaves the destination sets as a full apply would.
   */
  method RefreshLocked(host: Host, q: Request, collapse: Collapse, ghost ph: Phase) returns (ok: bool)
    requires host.Valid()
    modifies host
    ensures host.Valid() && old(host.log) <= host.log && host.kernel.chains == old(host.kernel).chains
    ensures old(InPhase(host.kernel, ph)) ==> InPhase(host.kernel, ph) && SafeSteps(host.log, |old(host.log)|)
    ensures old(InPhase(host.kernel, ph)) && ph.Warm? ==> OnOneRuleset(host.log, |old(host.log)|, ph.variant, ph.bindings, ph.bindings)
    ensures ok && q.groups != [] && CoverPreserving(collapse) ==>
      SetsCover(host.kernel, FastDesired(SortGroups(q.groups), q.resolved, q.prewarmed))
    ensures host.Flawless() && (q.groups == [] || RefreshFits(old(host.kernel), q, collapse)) ==> ok
  {
    hide Chained, InPhase, StagingApart, RuleSetNames, FastDesired, SortGroups, ReplacingSteps, SafeSteps, AllSitesOk, CoverPreserving,
         SetsCover, Contents, StagedName, IsStagedName, SetsFit, AllCollapse;
    ghost var k0, n := host.kernel, |host.log|;
    if q.groups == [] {
      SafeNow(host.log);
      return true;
    }
    var desired := DesiredDestinations(SortGroups(q.groups), q.resolved, q.prewarmed);
    FastNames(SortGroups(q.groups), q.resolved, q.prewarmed);
    PlannedNamesAreApart(desired);
    ok := ApplyDesiredSets(host, desired, collapse);
    if InPhase(k0, ph) {
      SetsPhase(host.log, n, k0, host.kernel, desired, collapse, ph, LiveBindings(ph));
    }
  }

  lemma ReplacingKeepsFresh(k0: Kernel, k: Kernel, d: Desired, collapse: Collapse)
    requires NothingActive(k0) && ForeignOk(k0) && RuleSetNames(d) && ReplacingState(k0, k, d, collapse)
    ensures NothingActive(k) && ForeignOk(k)
  {
    hide Contents, ForeignOk, RuleSetNames, IsStagedName, StagingApart, Covered;
    ReplacingKeepsForeign(k0, k, d, collapse);
    forall f: Family, v: Variant ensures !MarkRootMentions(k, f, v) {
      assert !MarkRootMentions(k0, f, v);
    }
  }

  lemma FreshRulesPhase(start: Kernel, log0: seq<Step>, k0: Kernel, log: seq<Step>, k: Kernel, cut: nat, w: Variant, news: seq<RouteBinding>)
    requires Chained(start, log0, k0) && Chained(start, log, k) && log0 <= log
    requires ForeignOk(k0) && SetsLive(news, k0) && ForeignSafeFrom(log, |log0|) && Phased(start, log, |log0|, cut, w, news)
    requires Installed(k, w, news)
    ensures RoutingInv(k, w, news)
  {
    hide Chained, Installed, SetsLive, ForeignSafe, Phased, ForeignOk;
    PhasedForeign(start, log0, k0, log, k, cut, w, news);
    SetsLiveSame(news, k0, k);
  }

  /** The update of the rules from either phase. */
  lemma RulesPhase(start: Kernel, log0: seq<Step>, k0: Kernel, log: seq<Step>, k: Kernel, r: ApplyResult, cut: nat, w: Variant,
                   ph: Phase, news: seq<RouteBinding>, listable: bool)
    requires Chained(start, log0, k0) && Chained(start, log, k) && log0 <= log
    requires InPhase(k0, ph) && SetsLive(news, k0) && PlannedBindings(news)
    requires ForeignSafeFrom(log, |log0|) && Phased(start, log, |log0|, cut, w, news)
    requires Calm(k0, ph.variant, LiveNames(k0)) ==> CalmUntil(start, log, |log0|, cut, ph.variant, LiveNames(k0))
    requires Calm(k0, ph.variant, LiveNames(k0)) && (r.Applied? || r.IpRulesFailed?) ==> Installed(k, w, news)
    requires Installed(k0, ph.variant, LiveBindings(ph)) && listable ==>
      && HitlessSteps(log, |log0|, k0.sets, ph.variant, LiveBindings(ph), news)
      && EndsOn(r, k, ph.variant, LiveBindings(ph), news)
    requires r.PrepareFailed? || r.BindingsFailed? ==> cut == |log|
    ensures Kept(log, |log0|, ph, news, listable)
    ensures r.PrepareFailed? || r.BindingsFailed? ==> InPhase(k, Doubted(ph, listable))
    ensures r.Applied? || r.IpRulesFailed? ==> RoutingInv(k, w, news)
  {
    hide Chained, Installed, SetsLive, ForeignSafeFrom, Phased, ForeignOk, HitlessSteps, PlannedBindings, Calm, CalmUntil, LiveNames,
         OnOneRuleset, SafeSteps, SwitchedUpTo, AllBuilt;
    PhaseIsSettled(k0, ph);
    UpdatingIsSafe(start, log0, k0, log, k, cut, ph.variant, w, news);
    SetsLiveSame(news, k0, k);
    if ph.Warm? && listable {
      HitlessRulesets(log, |log0|, k0.sets, ph.variant, ph.bindings, news);
      SetsLiveSame(ph.bindings, k0, k);
    }
  }

  // ---- Histories ------------------------------------------------------------

  /** What the manager is asked to do: a full apply, or a refresh of the destination sets. */
  datatype Order = Full(request: Request) | Refresh(request: Request)

  predicate IsTakedown(o: Order) {
    o.Full? && o.request.groups == []
  }

  /** No takedown of the history stranded a rule; order `j` ran from `marks[j]` to `marks[j + 1]`. */
  ghost predicate CleanTakedowns(start: Kernel, log: seq<Step>, orders: seq<Order>, marks: seq<nat>) {
    forall j :: 0 <= j && j + 1 < |marks| && j < |orders| && IsTakedown(orders[j]) && marks[j] <= |log| ==>
      !Stranded(StateAt(start, log, marks[j]), log, marks[j], marks[j + 1])
  }

  lemma StrandedPrefix(k: Kernel, log1: seq<Step>, log2: seq<Step>, n: nat, m: nat)
    requires log1 <= log2 && m <= |log1|
    ensures Stranded(k, log1, n, m) <==> Stranded(k, log2, n, m)
  {
    hide Leads, Clears;
    forall f: Family, v: Variant, i: nat, name: string
      ensures PathSpared(log1, n, m, f, v, i) <==> PathSpared(log2, n, m, f, v, i)
      ensures Destroyed(log1, n, m, name) <==> Destroyed(log2, n, m, name)
    {
      assert forall j :: n <= j < m ==> log1[j] == log2[j];
    }
  }

  ghost predicate MarksWithin(marks: seq<nat>, bound: nat) {
    forall j :: 0 <= j < |marks| ==> marks[j] <= bound
  }

  lemma EarlierTakedowns(start: Kernel, log1: seq<Step>, log2: seq<Step>, orders: seq<Order>, marks1: seq<nat>, marks2: seq<nat>)
    requires log1 <= log2 && marks1 <= marks2 && MarksWithin(marks1, |log1|) && CleanTakedowns(start, log2, orders, marks2)
    ensures CleanTakedowns(start, log1, orders, marks1)
  {
    hide Stranded, IsTakedown;
    forall j | 0 <= j && j + 1 < |marks1| && j < |orders| && IsTakedown(orders[j]) && marks1[j] <= |log1|
      ensures !Stranded(StateAt(start, log1, marks1[j]), log1, marks1[j], marks1[j + 1])
    {
      assert marks2[j] == marks1[j] && marks2[j + 1] == marks1[j + 1];
      assert StateAt(start, log1, marks1[j]) == StateAt(start, log2, marks1[j]);
      StrandedPrefix(StateAt(start, log1, marks1[j]), log1, log2, marks1[j], marks1[j + 1]);
    }
  }

  /** Carries out one order; `whole` says that no switch broke off. */
  method Obey(host: Host, o: Order, collapse: Collapse, ghost ph: Phase) returns (whole: bool, ghost next: Phase)
    requires host.Valid()
    modifies host
    ensures host.Valid() && old(host.log) <= host.log
    ensures old(InPhase(host.kernel, ph)) && (IsTakedown(o) ==> !Stranded(old(host.kernel), host.log, |old(host.log)|, |host.log|)) ==>
      SafeSteps(host.log, |old(host.log)|) && (whole ==> InPhase(host.kernel, next))
    ensures !whole ==> !IsTakedown(o)
    ensures IsTakedown(o) && ProtectsUsed(host.log, |old(host.log)|, |host.log|) ==>
      !Stranded(old(host.kernel), host.log, |old(host.log)|, |host.log|)
  {
    hide Chained, InPhase, SafeSteps, Stranded, ProtectsUsed, FewLinks, ForeignOk, NothingActive, OnOneRuleset, PlanUsable, PlannedRuleset, Inactive,
         SetsCover, CoverPreserving;
    if o.Full? {
      var r;
      ghost var w;
      r, w := ApplyLocked(host, o.request, collapse, ph);
      if SwitchBroke(r) {
        return false, ph;
      }
      return true, NextPhase(ph, o.request, r, w, host.listable);
    }
    var _ := RefreshLocked(host, o.request, collapse, ph);
    return true, ph;
  }

  /**
    Any sequence of applies and refreshes, from a start or from a live ruleset, each
    failing wherever it may: as long as no switch breaks off and no takedown strands a
    rule, no command leaves a reachable rule with a missing set, and the next one can
    rely on the same. A kernel that refuses to destroy sets in use sees to the latter.
   */
  method ApplyEach(host: Host, orders: seq<Order>, collapse: Collapse, ghost first: Phase)
    returns (done: nat, ghost ph: Phase, ghost marks: seq<nat>)
    requires host.Valid()
    modifies host
    ensures host.Valid() && old(host.log) <= host.log && done <= |orders|
    ensures |marks| == done + 1 && marks[0] == |old(host.log)| && MarksWithin(marks, |host.log|)
    ensures old(InPhase(host.kernel, first))
            && (CleanTakedowns(host.start, host.log, orders, marks) || ProtectsUsed(host.log, |old(host.log)|, |host.log|)) ==>
      SafeSteps(host.log, |old(host.log)|) && (done == |orders| ==> InPhase(host.kernel, ph))
  {
    hide Chained, InPhase, SafeSteps, Stranded, CleanTakedowns, IsTakedown, ProtectsUsed;
    ghost var log0 := host.log;
    ghost var good := InPhase(host.kernel, first);
    done, ph, marks := 0, first, [|host.log|];
    SafeNow(host.log);
    while done < |orders|
      invariant done <= |orders| && host.Valid() && log0 <= host.log
      invariant |marks| == done + 1 && marks[0] == |log0| && marks[done] == |host.log| && MarksWithin(marks, |host.log|)
      invariant good && (CleanTakedowns(host.start, host.log, orders, marks) || ProtectsUsed(host.log, |log0|, |host.log|)) ==>
        SafeSteps(host.log, |log0|) && InPhase(host.kernel, ph)
    {
      ghost var log1, k1, marks1 := host.log, host.kernel, marks;
      var whole;
      ghost var next;
      whole, next := Obey(host, orders[done], collapse, ph);
      if whole { marks := marks + [|host.log|]; }
      if good && CleanTakedowns(host.start, host.log, orders, marks) {
        EarlierTakedowns(host.start, log1, host.log, orders, marks1, marks);
        LogStates(host.start, log1, k1, host.log, host.kernel);
        if IsTakedown(orders[done]) { CleanHere(host.start, host.log, orders, marks, done); }
        SafeJoin(log1, host.log, |log0|);
      } else if good && ProtectsUsed(host.log, |log0|, |host.log|) {
        ProtectedParts(log1, host.log, |log0|);
        SafeJoin(log1, host.log, |log0|);
      }
      if !whole {
        return;
      }
      ph, done := next, done + 1;
    }
  }

  lemma ProtectedParts(log1: seq<Step>, log2: seq<Step>, n: nat)
    requires n <= |log1| && log1 <= log2 && ProtectsUsed(log2, n, |log2|)
    ensures ProtectsUsed(log1, n, |log1|) && ProtectsUsed(log2, |log1|, |log2|)
  {
    hide ChainNamesSet;
    forall i, id, name | n <= i < |log1| && log1[i].cmd == DestroySet(name) && log1[i].ok
      ensures !ChainNamesSet(log1[i].before, id, name)
    {
      assert log2[i] == log1[i];
    }
  }

  lemma CleanHere(start: Kernel, log: seq<Step>, orders: seq<Order>, marks: seq<nat>, j: nat)
    requires CleanTakedowns(start, log, orders, marks) && j + 1 < |marks| && j < |orders| && IsTakedown(orders[j]) && marks[j] <= |log|
    ensures !Stranded(StateAt(start, log, marks[j]), log, marks[j], marks[j + 1])
  {
  }

  lemma RulesetMeets(log: seq<Step>, n: nat, v: Variant, olds: seq<RouteBinding>, news: seq<RouteBinding>)
    requires n == |log| || OnOneRuleset(log, n, v, olds, news)
    requires AllNormalized(olds) && AllNormalized(news)
    ensures PacketsHitless(log, n, olds, news)
  {
    hide AllSitesOk, AllNormalized, PacketsHitless;
    SitesHitless(log, n, v, olds, news);
  }

  lemma SafeNow(log: seq<Step>)
    ensures SafeSteps(log, |log|)
  {
  }
}
