/**
  Updates of sets and rules from any filter whose roots lead at most to what is left of
  one generation: a live ruleset, nothing at all on a first start, or whatever an
  earlier takedown left behind.
 */
module SafeUpdates {
  import opened Netfilter
  import opened Bindings
  import opened SetNames
  import opened RoutingPlan
  import opened Rulesets
  import opened IpRulesSync
  import opened Generations
  import opened RootSwitch
  import opened Leftovers
  import opened HitlessUpdate
  import opened SetStaging
  import opened SetReferences

  /** The rule sets that exist. */
  ghost function LiveNames(k: Kernel): iset<string> {
    iset n | n in k.sets && IsSetName(n)
  }

  /** What the roots lead to is left of generation `v` and has its sets; the rest of the filter keeps to itself. */
  ghost predicate Settled(k: Kernel, v: Variant) {
    ForeignOk(k) && Calm(k, v, LiveNames(k))
  }

  lemma CalmIsSafe(k: Kernel, v: Variant, names: iset<string>)
    requires Calm(k, v, names)
    ensures RootsSafe(k, names)
  {
    hide GenCalm;
    forall f: Family, kind: Kind ensures SiteSafe(k, names, f, kind) {
      assert SiteCalm(k, v, names, f, kind);
      if ChainIs(k, RootId(f, kind), [JumpTo(Gen(kind, v))]) && GenCalm(k, v, f, kind, names) {
        assert RootRuleSafe(k, names, f, kind, JumpTo(Gen(kind, v)));
      }
    }
  }

  lemma SettledNeverDangles(k: Kernel, v: Variant)
    requires Settled(k, v)
    ensures NoDangling(k)
  {
    hide ForeignOk, Calm, RootsSafe, NoDangling;
    CalmIsSafe(k, v, LiveNames(k));
    SafeRootsNeverDangle(k, LiveNames(k));
  }

  /** A live ruleset is a case of it. */
  lemma WarmIsSettled(k: Kernel, v: Variant, bs: seq<RouteBinding>)
    requires RoutingInv(k, v, bs) && PlannedBindings(bs)
    ensures Settled(k, v)
  {
    hide ForeignOk, Built, GenCalm, UsesSet, IsSetName;
    forall f: Family, kind: Kind ensures SiteCalm(k, v, LiveNames(k), f, kind) {
      assert ChainIs(k, RootId(f, kind), [JumpTo(Gen(kind, v))]) && Built(k, v, bs, f, kind);
      assert UsesOnly(bs, f, LiveNames(k)) by {
        forall i, name | 0 <= i < |bs| && UsesSet(bs[i], f, name)
          ensures name in LiveNames(k)
        {
          assert PlannedBinding(bs[i]);
        }
      }
      BuiltIsCalm(k, v, bs, f, kind, LiveNames(k));
    }
  }

  /** So are roots without rules. */
  lemma IdleIsSettled(k: Kernel, v: Variant)
    requires AllIdle(k) && ForeignOk(k)
    ensures Settled(k, v)
  {
    hide ForeignOk, AllIdle;
    IdleIsCalm(k, v, LiveNames(k));
  }

  // ---- The sets -------------------------------------------------------------

  lemma ReplacingKeepsForeign(k0: Kernel, k: Kernel, d: Desired, collapse: Collapse)
    requires ForeignOk(k0) && RuleSetNames(d) && ReplacingState(k0, k, d, collapse)
    ensures ForeignOk(k)
  {
    hide Contents, ForeignOk, IsSetName, IsStagedName, StagingApart, Covered;
    PlannedNamesAreApart(d);
    forall name | !(SET_PREFIX <= name)
      ensures SameSet(k0, k, name)
    {
      assert name !in d && !IsStagedName(d, name);
    }
    ForeignOkFrame(k0, k);
  }

  /** No rule set goes away while sets are replaced. */
  lemma ReplacingKeepsNames(k0: Kernel, k: Kernel, d: Desired, collapse: Collapse, name: string)
    requires RuleSetNames(d) && ReplacingState(k0, k, d, collapse) && name in LiveNames(k0)
    ensures name in LiveNames(k)
  {
    hide Contents, IsSetName, IsStagedName, StagingApart, Covered;
    PlannedNamesAreApart(d);
    if name in d {
      assert OldOrNew(k0, k, name, d[name].family, Contents(collapse, d[name]));
    } else {
      assert SameSet(k0, k, name);
    }
  }

  lemma SameChainsCalm(k0: Kernel, k: Kernel, v: Variant, names0: iset<string>, names: iset<string>)
    requires Calm(k0, v, names0) && k.chains == k0.chains && forall n :: n in names0 ==> n in names
    ensures Calm(k, v, names)
  {
    hide Calm;
    CalmShrinks(k0, k, v, names0, names);
  }

  lemma ReplacingKeepsSettled(k0: Kernel, k: Kernel, d: Desired, collapse: Collapse, v: Variant)
    requires Settled(k0, v) && RuleSetNames(d) && ReplacingState(k0, k, d, collapse)
    ensures Settled(k, v)
  {
    hide Contents, ForeignOk, RuleSetNames, IsStagedName, StagingApart, Covered, Calm, LiveNames;
    ReplacingKeepsForeign(k0, k, d, collapse);
    forall n | n in LiveNames(k0) ensures n in LiveNames(k) {
      ReplacingKeepsNames(k0, k, d, collapse, n);
    }
    SameChainsCalm(k0, k, v, LiveNames(k0), LiveNames(k));
  }

  /** Replacing sets never leaves a dangling reference. */
  lemma ReplacingIsSafe(log: seq<Step>, n: nat, k0: Kernel, d: Desired, collapse: Collapse, v: Variant)
    requires Settled(k0, v) && RuleSetNames(d) && ReplacingSteps(log, n, k0, d, collapse)
    ensures SafeSteps(log, n)
  {
    hide Settled, NoDangling, RuleSetNames, ReplacingState;
    forall i | n <= i < |log|
      ensures NoDangling(log[i].before) && NoDangling(log[i].after)
    {
      ReplacingKeepsSettled(k0, log[i].before, d, collapse, v);
      ReplacingKeepsSettled(k0, log[i].after, d, collapse, v);
      SettledNeverDangles(log[i].before, v);
      SettledNeverDangles(log[i].after, v);
    }
  }

  // ---- The rules ------------------------------------------------------------

  /** Generation `w` is complete, and the rules behind the roots name only the given sets. */
  ghost predicate Moving(k: Kernel, w: Variant, news: seq<RouteBinding>, names: iset<string>) {
    AllBuilt(k, w, news) && RootsSafe(k, names)
  }

  lemma MovesFrame(s: Step, w: Variant)
    requires Ran(s) && MovesRoot(s.cmd, w)
    ensures forall id: ChainId :: !id.chain.Root? ==> SameChain(s.before, s.after, id)
  {
    hide Ran;
    if IsChainCmd(s.cmd) {
      StepSameBut(s);
    } else {
      StepEffect(s, s.cmd.family);
    }
  }

  /** A root gains at most the jump to generation `w`. */
  lemma MovedRoot(s: Step, w: Variant, f: Family, kind: Kind, r: Rule)
    requires Ran(s) && MovesRoot(s.cmd, w) && RootId(f, kind) in s.after.chains && r in s.after.chains[RootId(f, kind)]
    ensures r == JumpTo(Gen(kind, w)) || (RootId(f, kind) in s.before.chains && r in s.before.chains[RootId(f, kind)])
  {
    if s.ok && s.cmd.DeleteRule? {
      RemoveFirstKeeps(s.before.chains[s.cmd.id], s.cmd.rule);
    }
  }

  lemma {:induction false} RemoveFirstKeeps(rules: seq<Rule>, rule: Rule)
    ensures forall r :: r in RemoveFirst(rules, rule) ==> r in rules
  {
    if rules != [] && rules[0] != rule {
      RemoveFirstKeeps(rules[1..], rule);
    }
  }

  lemma GenCalmSame(k: Kernel, k': Kernel, v: Variant, f: Family, kind: Kind, names: iset<string>)
    requires GenCalm(k, v, f, kind, names) && forall id: ChainId :: !id.chain.Root? ==> SameChain(k, k', id)
    ensures GenCalm(k', v, f, kind, names)
  {
    hide GenCalm;
    forall id | OfVariant(v, id) ensures NoMore(k, k', id) {
      assert SameChain(k, k', id);
    }
    GenCalmShrinks(k, k', v, f, kind, names, names);
  }

  lemma MovingStep(s: Step, w: Variant, news: seq<RouteBinding>, names: iset<string>)
    requires Moving(s.before, w, news, names) && Ran(s) && MovesRoot(s.cmd, w)
    requires forall f: Family :: UsesOnly(news, f, names)
    ensures Moving(s.after, w, news, names)
  {
    hide Built, Ran, MovesRoot, GenCalm, UsesOnly;
    MovesFrame(s, w);
    forall f: Family, kind: Kind
      ensures Built(s.after, w, news, f, kind) && SiteSafe(s.after, names, f, kind)
    {
      BuiltFrame(s.before, s.after, w, news, f, kind);
      assert UsesOnly(news, f, names);
      BuiltIsCalm(s.after, w, news, f, kind, names);
      if RootId(f, kind) in s.after.chains {
        forall r | r in s.after.chains[RootId(f, kind)]
          ensures RootRuleSafe(s.after, names, f, kind, r)
        {
          MovedRoot(s, w, f, kind, r);
          if r != JumpTo(Gen(kind, w)) {
            assert SiteSafe(s.before, names, f, kind) && RootRuleSafe(s.before, names, f, kind, r);
            var v: Variant :| r == JumpTo(Gen(kind, v)) && GenCalm(s.before, v, f, kind, names);
            GenCalmSame(s.before, s.after, v, f, kind, names);
          }
        }
      }
    }
  }

  lemma {:induction false} MovingRun(start: Kernel, log: seq<Step>, n: nat, m: nat, k: Kernel, w: Variant, news: seq<RouteBinding>,
                                     names: iset<string>)
    requires n <= m <= |log| && Chained(start, log, k) && MovesFrom(log, n, w) && Moving(StateAt(start, log, n), w, news, names)
    requires forall f: Family :: UsesOnly(news, f, names)
    ensures Moving(StateAt(start, log, m), w, news, names)
    decreases m
  {
    hide Moving, MovesRoot, Chained, Ran, UsesOnly;
    if m > n {
      MovingRun(start, log, n, m - 1, k, w, news, names);
      ChainedAt(start, log, k, m - 1);
      MovingStep(log[m - 1], w, news, names);
    }
  }

  lemma StepKeepsSets(s: Step, w: Variant)
    requires Ran(s) && (IdleCmd(s.cmd) || MovesRoot(s.cmd, w))
    ensures s.before.sets == s.after.sets
  {
  }

  /** An update of the rules leaves the sets and the rest of the filter alone. */
  lemma {:induction false} PhasedRun(start: Kernel, log: seq<Step>, n: nat, m: nat, k: Kernel, cut: nat, w: Variant, news: seq<RouteBinding>)
    requires n <= m <= |log| && Chained(start, log, k) && ForeignSafeFrom(log, n) && Phased(start, log, n, cut, w, news)
    requires ForeignOk(StateAt(start, log, n))
    ensures ForeignOk(StateAt(start, log, m)) && StateAt(start, log, m).sets == StateAt(start, log, n).sets
    decreases m
  {
    hide Chained, ForeignOk, ForeignSafe, Ran, IdleCmd, MovesRoot, AllBuilt;
    if m > n {
      PhasedRun(start, log, n, m - 1, k, cut, w, news);
      ChainedAt(start, log, k, m - 1);
      if m - 1 < cut { assert log[..cut][m - 1] == log[m - 1]; }
      StepKeepsSets(log[m - 1], w);
      ForeignStep(log[m - 1]);
    }
  }

  lemma PhasedForeign(start: Kernel, log0: seq<Step>, k0: Kernel, log: seq<Step>, k: Kernel, cut: nat, w: Variant, news: seq<RouteBinding>)
    requires Chained(start, log0, k0) && Chained(start, log, k) && log0 <= log
    requires ForeignOk(k0) && ForeignSafeFrom(log, |log0|) && Phased(start, log, |log0|, cut, w, news)
    ensures ForeignOk(k) && k.sets == k0.sets
  {
    hide Chained, ForeignOk, ForeignSafeFrom, Phased;
    LogStates(start, log0, k0, log, k);
    PhasedRun(start, log, |log0|, |log|, k, cut, w, news);
  }

  lemma CalmAt(start: Kernel, log: seq<Step>, k: Kernel, n: nat, cut: nat, v: Variant, names: iset<string>, m: nat)
    requires Chained(start, log, k) && CalmUntil(start, log, n, cut, v, names) && n <= m <= cut
    ensures Calm(StateAt(start, log, m), v, names)
  {
    hide Chained, Calm, Ran;
    if m < cut {
      ChainedAt(start, log, k, m);
      assert log[..cut][m] == log[m];
    }
  }

  lemma SafeAt(start: Kernel, log: seq<Step>, k: Kernel, n: nat, cut: nat, v: Variant, w: Variant, news: seq<RouteBinding>,
               names: iset<string>, m: nat)
    requires Chained(start, log, k) && n <= m <= |log| && Phased(start, log, n, cut, w, news) && CalmUntil(start, log, n, cut, v, names)
    requires forall f: Family :: UsesOnly(news, f, names)
    ensures RootsSafe(StateAt(start, log, m), names)
  {
    hide Chained, Calm, IdleFrom, MovesFrom, AllBuilt, RootsSafe, UsesOnly;
    if m <= cut {
      CalmAt(start, log, k, n, cut, v, names, m);
      CalmIsSafe(StateAt(start, log, m), v, names);
    } else {
      CalmIsSafe(StateAt(start, log, cut), v, names);
      MovingRun(start, log, cut, m, k, w, news, names);
    }
  }

  lemma NewNamesLive(news: seq<RouteBinding>, k: Kernel, f: Family)
    requires SetsLive(news, k) && PlannedBindings(news)
    ensures UsesOnly(news, f, LiveNames(k))
  {
    hide UsesSet, IsSetName;
    forall i, name | 0 <= i < |news| && UsesSet(news[i], f, name)
      ensures name in LiveNames(k)
    {
      assert PlannedBinding(news[i]);
    }
  }

  /** Replacing the rules never leaves a dangling reference, whatever fails. */
  lemma UpdatingIsSafe(start: Kernel, log0: seq<Step>, k0: Kernel, log: seq<Step>, k: Kernel, cut: nat, v: Variant, w: Variant,
                       news: seq<RouteBinding>)
    requires Chained(start, log0, k0) && Chained(start, log, k) && log0 <= log
    requires Settled(k0, v) && SetsLive(news, k0) && PlannedBindings(news)
    requires ForeignSafeFrom(log, |log0|) && Phased(start, log, |log0|, cut, w, news)
    requires CalmUntil(start, log, |log0|, cut, v, LiveNames(k0))
    ensures SafeSteps(log, |log0|) && ForeignOk(k) && k.sets == k0.sets
    ensures cut == |log| ==> Settled(k, v)
  {
    hide Chained, ForeignOk, NoDangling, ForeignSafeFrom, SetsLive, Phased, Ran, Calm, RootsSafe, UsesOnly, PlannedBindings, CalmUntil;
    var n, names := |log0|, LiveNames(k0);
    LogStates(start, log0, k0, log, k);
    forall f: Family ensures UsesOnly(news, f, names) {
      NewNamesLive(news, k0, f);
    }
    forall m | n <= m <= |log|
      ensures NoDangling(StateAt(start, log, m))
    {
      PhasedRun(start, log, n, m, k, cut, w, news);
      SafeAt(start, log, k, n, cut, v, w, news, names, m);
      SafeRootsNeverDangle(StateAt(start, log, m), names);
    }
    forall i | n <= i < |log|
      ensures NoDangling(log[i].before) && NoDangling(log[i].after)
    {
      ChainedAt(start, log, k, i);
      assert NoDangling(StateAt(start, log, i)) && NoDangling(StateAt(start, log, i + 1));
    }
    PhasedRun(start, log, n, |log|, k, cut, w, news);
    if cut == |log| {
      CalmAt(start, log, k, n, cut, v, names, |log|);
      assert LiveNames(k) == LiveNames(k0);
    }
  }
}
