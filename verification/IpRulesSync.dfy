/** Policy rules: the `fwmark -> table` rules that make marked packets use a VPN's route table. */
module IpRulesSync {
  import opened Netfilter
  import opened Hosts

  const PRIORITY := 100
  const DELETE_LIMIT := 64

  /** A rule of the kind the routing code owns. */
  predicate Managed(r: IpRule) {
    r.priority == PRIORITY && r.mark >= 200 && r.table >= 200
  }

  function PairRule(mark: nat, table: int): IpRule {
    IpRule(mark, table, PRIORITY)
  }

  predicate Wanted(desired: map<nat, int>, r: IpRule) {
    r.mark in desired && r == PairRule(r.mark, desired[r.mark])
  }

  /** The marks and tables that the rule writer accepts. */
  predicate DesiredManaged(desired: map<nat, int>) {
    forall m :: m in desired ==> Managed(PairRule(m, desired[m]))
  }

  predicate AllPresent(k: Kernel, family: Family, desired: map<nat, int>) {
    forall m :: m in desired ==> PairRule(m, desired[m]) in IpRules(k, family)
  }

  function OtherFamily(family: Family): Family {
    if family.V4? then V6 else V4
  }

  /** `k'` differs from `k` only in the policy rules of one family. */
  predicate OnlyIpRules(k: Kernel, k': Kernel, family: Family) {
    k'.chains == k.chains && k'.sets == k.sets && IpRules(k', OtherFamily(family)) == IpRules(k, OtherFamily(family))
  }

  /**
    What reconciliation preserves from `k0` on: foreign rules keep their number of
    copies and no wanted rule that was there goes away.
   */
  ghost predicate Keeps(k0: Kernel, k: Kernel, family: Family, desired: map<nat, int>) {
    && OnlyIpRules(k0, k, family)
    && (forall r :: !Managed(r) ==> IpRules(k, family)[r] == IpRules(k0, family)[r])
    && (forall r :: Wanted(desired, r) && r in IpRules(k0, family) ==> r in IpRules(k, family))
  }

  /** A wanted rule is added, or a stale one is deleted while every wanted rule is in place. */
  ghost predicate MakeBeforeBreak(s: Step, family: Family, desired: map<nat, int>) {
    && Ran(s)
    && (s.cmd.AddIpRule? || s.cmd.DelIpRule?)
    && s.cmd.family == family
    && (s.cmd.AddIpRule? ==> Wanted(desired, s.cmd.ipRule))
    && (s.cmd.DelIpRule? ==> Managed(s.cmd.ipRule) && !Wanted(desired, s.cmd.ipRule) && AllPresent(s.before, family, desired))
  }

  ghost predicate ReconcileStep(s: Step, k0: Kernel, family: Family, desired: map<nat, int>) {
    MakeBeforeBreak(s, family, desired) && Keeps(k0, s.before, family, desired) && Keeps(k0, s.after, family, desired)
  }

  ghost predicate ReconcileSteps(log: seq<Step>, n: nat, k0: Kernel, family: Family, desired: map<nat, int>) {
    forall i :: n <= i < |log| ==> ReconcileStep(log[i], k0, family, desired)
  }

  /** A policy-rule command of one family and nothing else. */
  ghost predicate IpRuleStep(s: Step, family: Family) {
    Ran(s) && (s.cmd.AddIpRule? || s.cmd.DelIpRule?) && s.cmd.family == family
  }

  ghost predicate IpRuleSteps(log: seq<Step>, n: nat, family: Family) {
    forall i :: n <= i < |log| ==> IpRuleStep(log[i], family)
  }

  /** `k'` differs from `k` at most in the copies of one policy rule. */
  ghost predicate DiffersIn(k: Kernel, k': Kernel, family: Family, r: IpRule) {
    OnlyIpRules(k, k', family) && forall q :: q != r ==> IpRules(k', family)[q] == IpRules(k, family)[q]
  }

  lemma AddEffect(s: Step, family: Family)
    requires IpRuleStep(s, family) && s.cmd.AddIpRule?
    ensures DiffersIn(s.before, s.after, family, s.cmd.ipRule)
    ensures IpRules(s.after, family)[s.cmd.ipRule] == IpRules(s.before, family)[s.cmd.ipRule] + (if s.ok then 1 else 0)
  {
  }

  lemma DelEffect(s: Step, family: Family)
    requires IpRuleStep(s, family) && s.cmd.DelIpRule?
    ensures DiffersIn(s.before, s.after, family, s.cmd.ipRule)
    ensures s.ok <==> IpRules(s.before, family)[s.cmd.ipRule] > 0
    ensures IpRules(s.after, family)[s.cmd.ipRule] == IpRules(s.before, family)[s.cmd.ipRule] - (if s.ok then 1 else 0)
  {
  }

  lemma StepEffect(s: Step, family: Family)
    requires IpRuleStep(s, family)
    ensures DiffersIn(s.before, s.after, family, s.cmd.ipRule)
    ensures s.cmd.AddIpRule? ==>
      IpRules(s.after, family)[s.cmd.ipRule] == IpRules(s.before, family)[s.cmd.ipRule] + (if s.ok then 1 else 0)
    ensures s.cmd.DelIpRule? ==> (s.ok <==> IpRules(s.before, family)[s.cmd.ipRule] > 0)
    ensures s.cmd.DelIpRule? ==>
      IpRules(s.after, family)[s.cmd.ipRule] == IpRules(s.before, family)[s.cmd.ipRule] - (if s.ok then 1 else 0)
  {
    hide Ran, DiffersIn, IpRules;
    if s.cmd.AddIpRule? { AddEffect(s, family); } else { DelEffect(s, family); }
  }

  lemma DiffersTransitive(k: Kernel, k': Kernel, k'': Kernel, family: Family, r: IpRule)
    requires DiffersIn(k, k', family, r) && DiffersIn(k', k'', family, r)
    ensures DiffersIn(k, k'', family, r)
  {
    hide IpRules;
  }

  /** Copies of a rule may change from `k` to `k'` without harm when some copy of it stays or it is stale. */
  lemma KeepsAfter(k0: Kernel, k: Kernel, k': Kernel, family: Family, desired: map<nat, int>, r: IpRule)
    requires Keeps(k0, k, family, desired) && DiffersIn(k, k', family, r) && Managed(r)
    requires Wanted(desired, r) ==> r in IpRules(k', family) || r !in IpRules(k, family)
    ensures Keeps(k0, k', family, desired)
  {
    hide IpRules, Managed, Wanted;
    forall q | Wanted(desired, q) && q in IpRules(k0, family)
      ensures q in IpRules(k', family)
    {
      if q != r {
        assert IpRules(k', family)[q] == IpRules(k, family)[q];
      }
    }
  }

  // ---- Loading --------------------------------------------------------------

  method LoadManaged(host: Host, family: Family) returns (ok: bool, pairs: set<IpRule>)
    modifies host`turn
    ensures ok ==> forall r :: r in pairs <==> r in IpRules(host.kernel, family) && Managed(r)
    ensures host.listable ==> ok
  {
    var rules;
    ok, rules := host.ListIpRules(family);
    pairs := set r | r in rules && Managed(r);
  }

  // ---- Deleting every copy of a rule ----------------------------------------

  function CopiesLeft(n: nat): nat {
    if n <= DELETE_LIMIT then 0 else n - DELETE_LIMIT
  }

  ghost predicate CopiesStep(s: Step, k: Kernel, family: Family, r: IpRule) {
    Ran(s) && s.cmd == DelIpRule(family, r) && DiffersIn(k, s.before, family, r) && DiffersIn(k, s.after, family, r)
  }

  ghost predicate CopiesSteps(log: seq<Step>, n: nat, k: Kernel, family: Family, r: IpRule) {
    forall i :: n <= i < |log| ==> CopiesStep(log[i], k, family, r)
  }

  /** Deletes a rule until the kernel has no copy left, at most 64 times. */
  method DeleteCopies(host: Host, family: Family, r: IpRule)
    requires host.Valid()
    modifies host
    ensures host.Valid()
    ensures old(host.log) <= host.log && CopiesSteps(host.log, |old(host.log)|, old(host.kernel), family, r)
    ensures DiffersIn(old(host.kernel), host.kernel, family, r)
    ensures IpRules(host.kernel, family)[r] == CopiesLeft(old(IpRules(host.kernel, family)[r]))
  {
    hide Chained, Ran, IpRules, OnlyIpRules, DiffersIn;
    ghost var k0, n := host.kernel, IpRules(host.kernel, family)[r];
    DiffersNot(k0, family, r);
    for i := 0 to DELETE_LIMIT
      invariant host.Valid() && old(host.log) <= host.log && CopiesSteps(host.log, |old(host.log)|, k0, family, r)
      invariant DiffersIn(k0, host.kernel, family, r)
      invariant n >= i && IpRules(host.kernel, family)[r] == n - i
    {
      var ok := host.Run(DelIpRule(family, r));
      ghost var s := host.log[|host.log| - 1];
      StepEffect(s, family);
      DiffersTransitive(k0, s.before, s.after, family, r);
      if !ok {
        return;
      }
    }
  }

  lemma DiffersNot(k: Kernel, family: Family, r: IpRule)
    ensures DiffersIn(k, k, family, r)
  {
  }

  lemma CopiesStepReconciles(s: Step, k: Kernel, k0: Kernel, family: Family, desired: map<nat, int>, r: IpRule)
    requires CopiesStep(s, k, family, r) && Managed(r) && !Wanted(desired, r)
    requires AllPresent(k, family, desired) && Keeps(k0, k, family, desired)
    ensures ReconcileStep(s, k0, family, desired) && IpRuleStep(s, family)
  {
    hide Chained, Ran, IpRules;
    KeepsAfter(k0, k, s.before, family, desired, r);
    KeepsAfter(k0, k, s.after, family, desired, r);
    PresentAfter(k, s.before, family, desired, r);
  }

  lemma PresentAfter(k: Kernel, k': Kernel, family: Family, desired: map<nat, int>, r: IpRule)
    requires AllPresent(k, family, desired) && DiffersIn(k, k', family, r) && !Wanted(desired, r)
    ensures AllPresent(k', family, desired)
  {
    hide IpRules;
    forall m | m in desired
      ensures PairRule(m, desired[m]) in IpRules(k', family)
    {
      var q := PairRule(m, desired[m]);
      assert Wanted(desired, q);
      assert IpRules(k', family)[q] == IpRules(k, family)[q];
    }
  }

  // ---- Reconciliation -------------------------------------------------------

  lemma KeepsItself(k: Kernel, family: Family, desired: map<nat, int>)
    ensures Keeps(k, k, family, desired)
  {
  }

  lemma KeptWanted(k0: Kernel, k: Kernel, family: Family, desired: map<nat, int>, r: IpRule)
    requires Keeps(k0, k, family, desired) && Wanted(desired, r) && r in IpRules(k0, family)
    ensures r in IpRules(k, family)
  {
  }

  lemma WantedPair(desired: map<nat, int>, m: nat)
    requires DesiredManaged(desired) && m in desired
    ensures Managed(PairRule(m, desired[m])) && Wanted(desired, PairRule(m, desired[m]))
    ensures forall r :: Wanted(desired, r) && r.mark == m ==> r == PairRule(m, desired[m])
  {
  }

  lemma AddStepReconciles(s: Step, k0: Kernel, family: Family, desired: map<nat, int>)
    requires IpRuleStep(s, family) && s.cmd.AddIpRule? && Wanted(desired, s.cmd.ipRule) && Managed(s.cmd.ipRule)
    requires Keeps(k0, s.before, family, desired)
    ensures ReconcileStep(s, k0, family, desired) && Keeps(k0, s.after, family, desired)
  {
    hide Chained, Ran, IpRules, Managed, Wanted;
    StepEffect(s, family);
    KeepsAfter(k0, s.before, s.after, family, desired, s.cmd.ipRule);
  }

  method AddMissing(host: Host, desired: map<nat, int>, existing: set<IpRule>, family: Family) returns (ok: bool)
    requires forall r :: r in existing ==> r in IpRules(host.kernel, family)
    requires DesiredManaged(desired)
    requires host.Valid()
    modifies host
    ensures host.Valid()
    ensures old(host.log) <= host.log && IpRuleSteps(host.log, |old(host.log)|, family)
    ensures ReconcileSteps(host.log, |old(host.log)|, old(host.kernel), family, desired)
    ensures Keeps(old(host.kernel), host.kernel, family, desired)
    ensures forall r :: !Wanted(desired, r) ==> IpRules(host.kernel, family)[r] == old(IpRules(host.kernel, family)[r])
    ensures ok ==> AllPresent(host.kernel, family, desired)
    ensures host.Flawless() ==> ok
  {
    hide Chained, Ran, IpRules, Managed, Wanted, OnlyIpRules, Keeps, ReconcileStep, IpRuleStep, DiffersIn, DesiredManaged;
    ghost var k0 := host.kernel;
    var left := desired.Keys;
    ok := true;
    assert Keeps(k0, k0, family, desired) by { KeepsItself(k0, family, desired); }
    while left != {}
      invariant left <= desired.Keys && ok
      invariant host.Valid() && old(host.log) <= host.log && IpRuleSteps(host.log, |old(host.log)|, family)
      invariant ReconcileSteps(host.log, |old(host.log)|, k0, family, desired)
      invariant Keeps(k0, host.kernel, family, desired)
      invariant forall r :: !Wanted(desired, r) ==> IpRules(host.kernel, family)[r] == IpRules(k0, family)[r]
      invariant forall m :: m in desired && m !in left ==> PairRule(m, desired[m]) in IpRules(host.kernel, family)
      decreases |left|
    {
      var mark :| mark in left;
      left := left - {mark};
      var rule := PairRule(mark, desired[mark]);
      WantedPair(desired, mark);
      if rule in existing {
        KeptWanted(k0, host.kernel, family, desired, rule);
        continue;
      }
      ghost var k := host.kernel;
      ok := AddOne(host, family, rule, desired, k0);
      DiffersElsewhere(k, host.kernel, family, rule);
      if !ok {
        return;
      }
    }
  }

  /** Adds one wanted rule. */
  method AddOne(host: Host, family: Family, rule: IpRule, ghost desired: map<nat, int>, ghost k0: Kernel) returns (ok: bool)
    requires host.Valid() && Wanted(desired, rule) && Managed(rule) && Keeps(k0, host.kernel, family, desired)
    modifies host
    ensures host.Valid() && old(host.log) <= host.log && |host.log| == |old(host.log)| + 1
    ensures ReconcileStep(host.log[|host.log| - 1], k0, family, desired) && IpRuleStep(host.log[|host.log| - 1], family)
    ensures Keeps(k0, host.kernel, family, desired) && DiffersIn(old(host.kernel), host.kernel, family, rule)
    ensures old(IpRules(host.kernel, family)[rule]) <= IpRules(host.kernel, family)[rule]
    ensures ok ==> rule in IpRules(host.kernel, family)
    ensures host.Flawless() ==> ok
  {
    hide Chained, Ran, IpRules, Managed, Wanted, Keeps, ReconcileStep, DiffersIn;
    ok := host.Run(AddIpRule(family, rule));
    ghost var s := host.log[|host.log| - 1];
    StepEffect(s, family);
    AddStepReconciles(s, k0, family, desired);
  }

  /**
    Makes the managed rules of one family equal to the desired map. When the
    current rules can be listed, missing rules are added first and stale rules are
    deleted afterwards.
   */
  method Reconcile(host: Host, desired: map<nat, int>, family: Family) returns (ok: bool)
    requires DesiredManaged(desired)
    requires host.Valid()
    modifies host
    ensures host.Valid()
    ensures old(host.log) <= host.log && IpRuleSteps(host.log, |old(host.log)|, family)
    ensures OnlyIpRules(old(host.kernel), host.kernel, family)
    ensures host.listable ==> ReconcileSteps(host.log, |old(host.log)|, old(host.kernel), family, desired)
                              && Keeps(old(host.kernel), host.kernel, family, desired)
    ensures ok && host.listable
            && (forall r :: Managed(r) && !Wanted(desired, r) ==> old(IpRules(host.kernel, family)[r]) <= DELETE_LIMIT) ==>
      forall r :: Managed(r) ==> (r in IpRules(host.kernel, family) <==> Wanted(desired, r))
    ensures host.Flawless() ==> ok
  {
    hide Chained, Ran, IpRules, ReconcileStep, IpRuleStep;
    ghost var k0 := host.kernel;
    var loaded, existing := LoadManaged(host, family);
    if !loaded {
      ok := RefreshAll(host, desired, family);
      return;
    }
    ok := AddMissing(host, desired, existing, family);
    if !ok {
      return;
    }
    var stale := set r | r in existing && !Wanted(desired, r);
    DeleteStale(host, desired, stale, family, k0);
  }

  method DeleteStale(host: Host, desired: map<nat, int>, stale: set<IpRule>, family: Family, ghost k0: Kernel)
    requires forall r :: r in stale ==> Managed(r) && !Wanted(desired, r)
    requires AllPresent(host.kernel, family, desired) && Keeps(k0, host.kernel, family, desired)
    requires host.Valid()
    modifies host
    ensures host.Valid()
    ensures old(host.log) <= host.log && IpRuleSteps(host.log, |old(host.log)|, family)
    ensures ReconcileSteps(host.log, |old(host.log)|, k0, family, desired)
    ensures Keeps(k0, host.kernel, family, desired)
    ensures forall r :: r !in stale ==> IpRules(host.kernel, family)[r] == old(IpRules(host.kernel, family)[r])
    ensures forall r :: r in stale ==> IpRules(host.kernel, family)[r] == CopiesLeft(old(IpRules(host.kernel, family)[r]))
  {
    hide Chained, Ran, IpRules, Managed, Wanted, Keeps, AllPresent, CopiesLeft, CopiesStep, ReconcileStep, IpRuleStep;
    var left := stale;
    ghost var before := IpRules(host.kernel, family);
    while left != {}
      invariant left <= stale
      invariant host.Valid() && old(host.log) <= host.log && IpRuleSteps(host.log, |old(host.log)|, family)
      invariant ReconcileSteps(host.log, |old(host.log)|, k0, family, desired)
      invariant AllPresent(host.kernel, family, desired) && Keeps(k0, host.kernel, family, desired)
      invariant forall r :: r !in stale || r in left ==> IpRules(host.kernel, family)[r] == before[r]
      invariant forall r :: r in stale && r !in left ==> IpRules(host.kernel, family)[r] == CopiesLeft(before[r])
      decreases |left|
    {
      var r :| r in left;
      left := left - {r};
      ghost var k, n := host.kernel, |host.log|;
      DeleteCopies(host, family, r);
      forall i | n <= i < |host.log|
        ensures ReconcileStep(host.log[i], k0, family, desired) && IpRuleStep(host.log[i], family)
      {
        CopiesStepReconciles(host.log[i], k, k0, family, desired, r);
      }
      KeepsAfter(k0, k, host.kernel, family, desired, r);
      PresentAfter(k, host.kernel, family, desired, r);
    }
  }

  /** Deletes one rule and adds it again. */
  method RefreshIpRule(host: Host, family: Family, rule: IpRule) returns (ok: bool)
    requires host.Valid()
    modifies host
    ensures host.Valid()
    ensures old(host.log) <= host.log && IpRuleSteps(host.log, |old(host.log)|, family)
    ensures DiffersIn(old(host.kernel), host.kernel, family, rule)
    ensures ok ==> rule in IpRules(host.kernel, family)
    ensures host.Flawless() ==> ok
  {
    hide Chained, Ran, IpRules, OnlyIpRules, DiffersIn;
    ghost var k := host.kernel;
    DeleteCopies(host, family, rule);
    ok := host.Run(AddIpRule(family, rule));
    ghost var s := host.log[|host.log| - 1];
    StepEffect(s, family);
    DiffersTransitive(k, s.before, s.after, family, rule);
  }

  lemma DiffersElsewhere(k: Kernel, k': Kernel, family: Family, r: IpRule)
    requires DiffersIn(k, k', family, r)
    ensures OnlyIpRules(k, k', family) && forall x :: x != r ==> IpRules(k', family)[x] == IpRules(k, family)[x]
  {
  }

  lemma OnlyIpRulesTransitive(k: Kernel, k': Kernel, k'': Kernel, family: Family)
    requires OnlyIpRules(k, k', family) && OnlyIpRules(k', k'', family)
    ensures OnlyIpRules(k, k'', family)
  {
  }

  /** Without a listing every desired rule is deleted and added again. */
  method RefreshAll(host: Host, desired: map<nat, int>, family: Family) returns (ok: bool)
    requires host.Valid()
    modifies host
    ensures host.Valid()
    ensures old(host.log) <= host.log && IpRuleSteps(host.log, |old(host.log)|, family)
    ensures OnlyIpRules(old(host.kernel), host.kernel, family)
    ensures forall r :: !Wanted(desired, r) ==> IpRules(host.kernel, family)[r] == old(IpRules(host.kernel, family)[r])
    ensures ok ==> AllPresent(host.kernel, family, desired)
    ensures host.Flawless() ==> ok
  {
    hide Chained, Ran, IpRules, OnlyIpRules, DiffersIn, IpRuleStep;
    var left := desired.Keys;
    ghost var k0 := host.kernel;
    OnlyIpRulesItself(k0, family);
    ok := true;
    while left != {}
      invariant left <= desired.Keys && ok
      invariant host.Valid() && old(host.log) <= host.log && IpRuleSteps(host.log, |old(host.log)|, family)
      invariant OnlyIpRules(k0, host.kernel, family)
      invariant forall r :: !Wanted(desired, r) ==> IpRules(host.kernel, family)[r] == IpRules(k0, family)[r]
      invariant forall m :: m in desired && m !in left ==> PairRule(m, desired[m]) in IpRules(host.kernel, family)
      decreases |left|
    {
      var mark :| mark in left;
      left := left - {mark};
      var rule := PairRule(mark, desired[mark]);
      ghost var k := host.kernel;
      ok := RefreshIpRule(host, family, rule);
      DiffersElsewhere(k, host.kernel, family, rule);
      OnlyIpRulesTransitive(k0, k, host.kernel, family);
      if !ok {
        return;
      }
    }
  }

  lemma OnlyIpRulesItself(k: Kernel, family: Family)
    ensures OnlyIpRules(k, k, family)
  {
  }

  /** Removes every managed rule of one family, when the rules can be listed. */
  method FlushManaged(host: Host, family: Family)
    requires host.Valid()
    modifies host
    ensures host.Valid()
    ensures old(host.log) <= host.log && IpRuleSteps(host.log, |old(host.log)|, family)
    ensures forall i :: |old(host.log)| <= i < |host.log| ==> host.log[i].cmd.DelIpRule?
    ensures OnlyIpRules(old(host.kernel), host.kernel, family)
    ensures forall r :: !Managed(r) ==> IpRules(host.kernel, family)[r] == old(IpRules(host.kernel, family)[r])
    ensures host.listable ==> forall r :: Managed(r) ==>
      IpRules(host.kernel, family)[r] == CopiesLeft(old(IpRules(host.kernel, family)[r]))
  {
    var loaded, existing := LoadManaged(host, family);
    if loaded {
      assert AllPresent(host.kernel, family, map[]);
      DeleteStale(host, map[], existing, family, host.kernel);
      assert forall r :: !Wanted(map[], r);
    }
  }
}
