/**
  References from rules to ipsets. In every state of a set replacement, of a
  ruleset switch and of the removal of stale sets, each set named by a rule that
  packets can reach exists.
 */
module SetReferences {
  import opened Netfilter
  import opened Hosts
  import opened Bindings
  import opened MarkCompiler
  import opened Ordering
  import opened SetNames
  import opened RoutingPlan
  import opened Rulesets
  import opened Generations
  import opened RootSwitch
  import opened Leftovers
  import opened HitlessUpdate
  import opened SetStaging

  // ---- No dangling reference ------------------------------------------------

  ghost predicate SetsExist(k: Kernel, id: ChainId) {
    id in k.chains ==>
      forall i, name :: 0 <= i < |k.chains[id]| && NamesSet(k.chains[id][i], name) ==> name in k.sets
  }

  /** Every set named by a rule that a built-in chain leads to exists. */
  ghost predicate NoDangling(k: Kernel) {
    forall f: Family, kind: Kind, id: ChainId, n: nat :: Reaches(k, ParentId(f, kind), id, n) ==> SetsExist(k, id)
  }

  /** The sets of the bindings exist. */
  ghost predicate SetsLive(bs: seq<RouteBinding>, k: Kernel) {
    forall i, f, name :: 0 <= i < |bs| && UsesSet(bs[i], f, name) ==> name in k.sets
  }

  predicate IsForeign(id: ChainId) {
    id.chain.Parent? || id.chain.Foreign?
  }

  /**
    What is expected of the rest of the packet filter: other chains do not jump into
    this application's chains, except that built-in chains link the roots, and they
    use their own ipsets, which exist.
   */
  ghost predicate ForeignRuleOk(k: Kernel, id: ChainId, r: Rule) {
    && (r.target.Jump? ==> r.target.chain.Foreign? || IsRootLink(id, r))
    && (forall name :: NamesSet(r, name) ==> name in k.sets && !(SET_PREFIX <= name))
  }

  predicate IsRootLink(id: ChainId, r: Rule) {
    id.chain.Parent? && id.table == TableOf(id.chain.kind) && r == JumpTo(Root(id.chain.kind))
  }

  ghost predicate ForeignOk(k: Kernel) {
    forall id: ChainId, i: nat :: id in k.chains && IsForeign(id) && i < |k.chains[id]| ==> ForeignRuleOk(k, id, k.chains[id][i])
  }

  /** A rule of a root that leads to a generation whose rules name only the given sets. */
  ghost predicate RootRuleSafe(k: Kernel, names: iset<string>, f: Family, kind: Kind, r: Rule) {
    exists v: Variant :: r == JumpTo(Gen(kind, v)) && GenCalm(k, v, f, kind, names)
  }

  ghost predicate SiteSafe(k: Kernel, names: iset<string>, f: Family, kind: Kind) {
    RootId(f, kind) in k.chains ==> forall r :: r in k.chains[RootId(f, kind)] ==> RootRuleSafe(k, names, f, kind, r)
  }

  /** The roots lead only to generations, and the rules behind them name only the given sets. */
  ghost predicate RootsSafe(k: Kernel, names: iset<string>) {
    forall f: Family, kind: Kind :: SiteSafe(k, names, f, kind)
  }

  ghost predicate AllExist(names: iset<string>, k: Kernel) {
    forall n :: n in names ==> n in k.sets
  }

  /** A chain that packets can reach behind safe roots. */
  ghost predicate Live(k: Kernel, names: iset<string>, id: ChainId) {
    || IsForeign(id)
    || (exists f: Family, kind: Kind :: id == RootId(f, kind))
    || (exists f: Family, kind: Kind, v: Variant :: id == GenId(f, kind, v) && GenCalm(k, v, f, kind, names))
    || PlainChain(k, id, names)
  }

  lemma LiveClosed(k: Kernel, names: iset<string>, a: ChainId, c: ChainId)
    requires RootsSafe(k, names) && ForeignOk(k) && Live(k, names, a) && JumpsFrom(k, a, c)
    ensures Live(k, names, c)
  {
    hide NamesSet, PlainChain;
    var i: nat :| i < |k.chains[a]| && k.chains[a][i].target == Jump(c.chain);
    var r := k.chains[a][i];
    assert r in k.chains[a];
    if IsForeign(a) {
      assert ForeignRuleOk(k, a, r);
      assert c.chain.Foreign? || c == RootId(c.family, c.chain.kind);
    } else if f: Family, kind: Kind :| a == RootId(f, kind) {
      assert SiteSafe(k, names, f, kind) && RootRuleSafe(k, names, f, kind, r);
      var v: Variant :| r == JumpTo(Gen(kind, v)) && GenCalm(k, v, f, kind, names);
      assert c == GenId(f, kind, v);
    } else if f: Family, kind: Kind, v: Variant :| a == GenId(f, kind, v) && GenCalm(k, v, f, kind, names) {
      assert RuleCalm(k, v, f, kind, names, r);
      var j: nat :| r == JumpTo(RuleChain(v, j, f)) && PlainChain(k, RuleChainId(v, j, f), names);
      assert c == RuleChainId(v, j, f);
    } else {
      PlainNeverJumps(k, a, names, r);
    }
  }

  lemma PlainNeverJumps(k: Kernel, id: ChainId, names: iset<string>, r: Rule)
    requires PlainChain(k, id, names) && id in k.chains && r in k.chains[id]
    ensures !r.target.Jump?
  {
  }

  lemma {:induction false} LiveReach(k: Kernel, names: iset<string>, a: ChainId, b: ChainId, n: nat)
    requires RootsSafe(k, names) && ForeignOk(k) && Live(k, names, a) && Reaches(k, a, b, n)
    ensures Live(k, names, b)
    decreases n
  {
    hide RootsSafe, ForeignOk, Live, JumpsFrom;
    if n > 0 {
      var c :| JumpsFrom(k, a, c) && Reaches(k, c, b, n - 1);
      LiveClosed(k, names, a, c);
      LiveReach(k, names, c, b, n - 1);
    }
  }

  /** Roots and generations name no sets themselves. */
  lemma RootRuleNamesNothing(k: Kernel, names: iset<string>, f: Family, kind: Kind, r: Rule, name: string)
    requires RootRuleSafe(k, names, f, kind, r)
    ensures !NamesSet(r, name)
  {
  }

  lemma GenRuleNamesNothing(k: Kernel, v: Variant, f: Family, kind: Kind, names: iset<string>, r: Rule, name: string)
    requires RuleCalm(k, v, f, kind, names, r)
    ensures !NamesSet(r, name)
  {
  }

  lemma LiveSetsExist(k: Kernel, names: iset<string>, id: ChainId)
    requires RootsSafe(k, names) && ForeignOk(k) && AllExist(names, k) && Live(k, names, id)
    ensures SetsExist(k, id)
  {
    hide RootRuleSafe, RuleCalm, NamesSet;
    if id in k.chains {
      forall i: nat, name | i < |k.chains[id]| && NamesSet(k.chains[id][i], name)
        ensures name in k.sets
      {
        var r := k.chains[id][i];
        assert r in k.chains[id];
        if IsForeign(id) {
          assert ForeignRuleOk(k, id, r);
        } else if f: Family, kind: Kind :| id == RootId(f, kind) {
          assert SiteSafe(k, names, f, kind);
          RootRuleNamesNothing(k, names, f, kind, r, name);
        } else if f: Family, kind: Kind, v: Variant :| id == GenId(f, kind, v) && GenCalm(k, v, f, kind, names) {
          GenRuleNamesNothing(k, v, f, kind, names, r, name);
        }
      }
    }
  }

  /** If the rules behind the roots name only existing sets, no reference dangles. */
  lemma SafeRootsNeverDangle(k: Kernel, names: iset<string>)
    requires RootsSafe(k, names) && ForeignOk(k) && AllExist(names, k)
    ensures NoDangling(k)
  {
    hide RootsSafe, ForeignOk, Reaches, SetsExist, AllExist;
    forall f: Family, kind: Kind, id: ChainId, n: nat | Reaches(k, ParentId(f, kind), id, n)
      ensures SetsExist(k, id)
    {
      assert Live(k, names, ParentId(f, kind));
      LiveReach(k, names, ParentId(f, kind), id, n);
      LiveSetsExist(k, names, id);
    }
  }

  // ---- Complete rulesets ----------------------------------------------------

  ghost predicate UsesOnly(bs: seq<RouteBinding>, f: Family, names: iset<string>) {
    forall i, name :: 0 <= i < |bs| && UsesSet(bs[i], f, name) ==> name in names
  }

  lemma CompiledIsPlain(k: Kernel, id: ChainId, b: RouteBinding, f: Family, names: iset<string>)
    requires ChainIs(k, id, Compiled(b, f)) && forall name :: UsesSet(b, f, name) ==> name in names
    ensures PlainChain(k, id, names)
  {
    hide Compiled, UsesSet;
    CompiledPlain(b, f);
    forall r | r in k.chains[id]
      ensures !r.target.Jump? && forall n :: NamesSet(r, n) ==> n in names
    {
      var i :| 0 <= i < |k.chains[id]| && k.chains[id][i] == r;
      assert PlainMatches(r.matches, b, f);
      forall n | NamesSet(r, n) ensures n in names {
        var j :| 0 <= j < |r.matches| && (r.matches[j] == SrcSet(n) || r.matches[j] == DstSet(n));
        assert UsesSet(b, f, n);
      }
    }
  }

  /** A complete generation names only the sets of its bindings. */
  lemma BuiltIsCalm(k: Kernel, v: Variant, bs: seq<RouteBinding>, f: Family, kind: Kind, names: iset<string>)
    requires Built(k, v, bs, f, kind) && UsesOnly(bs, f, names)
    ensures GenCalm(k, v, f, kind, names)
  {
    hide Compiled, JumpRules, NatRules, MssRulesFor, ClampMap, UsesSet, PlainChain, SetFree;
    forall r | r in k.chains[GenId(f, kind, v)]
      ensures RuleCalm(k, v, f, kind, names, r)
    {
      match kind
      case MarkKind =>
        JumpRulesShape(v, |bs|, f);
        var i: nat :| i < |bs| && r == JumpTo(RuleChain(v, i, f));
        CompiledIsPlain(k, RuleChainId(v, i, f), bs[i], f, names);
      case NatKind => NatRulesShape(bs);
      case MssKind => MssRulesShape(Sorted(ClampMap(bs).Keys), ClampMap(bs), f);
    }
  }

  ghost function Existing(k: Kernel): iset<string> {
    iset n | n in k.sets
  }

  lemma SiteOkIsSafe(k: Kernel, v: Variant, olds: seq<RouteBinding>, news: seq<RouteBinding>, f: Family, kind: Kind)
    requires SiteOk(k, v, olds, news, f, kind) && SetsLive(olds, k) && SetsLive(news, k)
    ensures SiteSafe(k, Existing(k), f, kind)
  {
    hide Built, GenCalm, UsesSet;
    if Built(k, v, olds, f, kind) { BuiltIsCalm(k, v, olds, f, kind, Existing(k)); }
    if Built(k, Other(v), news, f, kind) { BuiltIsCalm(k, Other(v), news, f, kind, Existing(k)); }
    forall r | r in k.chains[RootId(f, kind)]
      ensures RootRuleSafe(k, Existing(k), f, kind, r)
    {
      assert r == JumpTo(Gen(kind, v)) || r == JumpTo(Gen(kind, Other(v)));
    }
  }

  /** While both rulesets have their sets, no state of the switch has a dangling reference. */
  lemma SwitchNeverDangles(k: Kernel, v: Variant, olds: seq<RouteBinding>, news: seq<RouteBinding>)
    requires AllSitesOk(k, v, olds, news) && ForeignOk(k) && SetsLive(olds, k) && SetsLive(news, k)
    ensures NoDangling(k)
  {
    hide SiteOk, SiteSafe, ForeignOk, SetsLive, NoDangling;
    forall f: Family, kind: Kind ensures SiteSafe(k, Existing(k), f, kind) {
      SiteOkIsSafe(k, v, olds, news, f, kind);
    }
    SafeRootsNeverDangle(k, Existing(k));
  }

  // ---- The invariant between applies ----------------------------------------

  /** A ruleset is live, its sets exist, and the rest of the filter keeps to itself. */
  ghost predicate RoutingInv(k: Kernel, v: Variant, bs: seq<RouteBinding>) {
    Installed(k, v, bs) && ForeignOk(k) && SetsLive(bs, k)
  }

  ghost predicate SafeSteps(log: seq<Step>, n: nat) {
    forall i :: n <= i < |log| ==> NoDangling(log[i].before) && NoDangling(log[i].after)
  }

  /** The sets of other applications are the same. */
  ghost predicate SameForeignSets(k: Kernel, k': Kernel) {
    forall name :: !(SET_PREFIX <= name) ==> SameSet(k, k', name)
  }

  lemma ForeignOkFrame(k: Kernel, k': Kernel)
    requires ForeignOk(k) && k'.chains == k.chains && SameForeignSets(k, k')
    ensures ForeignOk(k')
  {
    hide NamesSet;
    forall id: ChainId, i: nat | id in k'.chains && IsForeign(id) && i < |k'.chains[id]|
      ensures ForeignRuleOk(k', id, k'.chains[id][i])
    {
      assert ForeignRuleOk(k, id, k.chains[id][i]);
      forall name | NamesSet(k'.chains[id][i], name)
        ensures name in k'.sets && !(SET_PREFIX <= name)
      {
        assert SameSet(k, k', name);
      }
    }
  }

  /** A foreign chain changes only by losing everything, or by gaining the link to a root. */
  lemma ForeignChainStep(s: Step, id: ChainId, i: nat)
    requires Ran(s) && ForeignSafe(s.cmd) && id in s.after.chains && IsForeign(id) && i < |s.after.chains[id]|
    ensures
      || (id in s.before.chains && i < |s.before.chains[id]| && s.before.chains[id][i] == s.after.chains[id][i])
      || (LinksRoot(s.cmd) && s.cmd.id == id && s.after.chains[id][i] == s.cmd.rule)
  {
  }

  lemma ForeignStep(s: Step)
    requires ForeignOk(s.before) && Ran(s) && ForeignSafe(s.cmd) && s.after.sets == s.before.sets
    ensures ForeignOk(s.after)
  {
    hide NamesSet, Ran, ForeignSafe;
    forall id: ChainId, i: nat | id in s.after.chains && IsForeign(id) && i < |s.after.chains[id]|
      ensures ForeignRuleOk(s.after, id, s.after.chains[id][i])
    {
      ForeignChainStep(s, id, i);
      if id in s.before.chains && i < |s.before.chains[id]| && s.before.chains[id][i] == s.after.chains[id][i] {
        assert ForeignRuleOk(s.before, id, s.before.chains[id][i]);
      } else {
        LinkNamesNothing(s.cmd.id.chain.kind);
      }
    }
  }

  lemma LinkNamesNothing(kind: Kind)
    ensures forall name :: !NamesSet(JumpTo(Root(kind)), name)
  {
  }

  // ---- Phase 1: the sets ----------------------------------------------------

  ghost predicate IsSetName(name: string) {
    exists g, i, kind, f :: name == SetName(g, i, kind, f)
  }

  ghost predicate RuleSetNames(d: Desired) {
    forall name :: name in d ==> IsSetName(name)
  }

  lemma QueuePairNames(d: Desired, g: string, i: nat, kind: SetKind, entries: seq<Prefix>)
    requires RuleSetNames(d)
    ensures RuleSetNames(QueuePair(d, g, i, kind, entries))
  {
    hide SetName, OfFamily;
    assert IsSetName(SetName(g, i, kind, V4)) && IsSetName(SetName(g, i, kind, V6));
  }

  lemma {:induction false} FullRulesNames(d: Desired, g: DomainGroup, n: nat,
                                          resolved: map<Selector, Values>, prewarmed: map<string, Values>)
    requires n <= |g.rules| && RuleSetNames(d)
    ensures RuleSetNames(FullRules(d, g, n, resolved, prewarmed))
  {
    hide QueuePair, DestinationEntries, ExcludedDestinationEntries, RuleSetNames, HasSelectors;
    if n > 0 {
      FullRulesNames(d, g, n - 1, resolved, prewarmed);
      var d0, r, i := FullRules(d, g, n - 1, resolved, prewarmed), g.rules[n - 1], n - 1;
      var d1 := if NeedsSource(r) then QueuePair(d0, g.name, i, Source, r.sourceCidrs) else d0;
      var d2 := QueueSources(d0, g.name, i, r);
      var entries := DestinationEntries(g.name, i, r, resolved, prewarmed);
      var d3 := if NeedsDestination(r) then QueuePair(d2, g.name, i, Destination, entries) else d2;
      QueuePairNames(d0, g.name, i, Source, r.sourceCidrs);
      QueuePairNames(d1, g.name, i, ExcludedSource, r.excludedSourceCidrs);
      QueuePairNames(d2, g.name, i, Destination, entries);
      QueuePairNames(d3, g.name, i, ExcludedDestination, ExcludedDestinationEntries(r, resolved));
    }
  }

  lemma {:induction false} FullDesiredNames(groups: seq<DomainGroup>, resolved: map<Selector, Values>, prewarmed: map<string, Values>)
    ensures RuleSetNames(FullDesired(groups, resolved, prewarmed))
  {
    if groups != [] {
      var g := groups[|groups| - 1];
      FullDesiredNames(groups[..|groups| - 1], resolved, prewarmed);
      FullRulesNames(FullDesired(groups[..|groups| - 1], resolved, prewarmed), g, |g.rules|, resolved, prewarmed);
    }
  }

  /** Every set of a plan, and its staging set, bears this application's prefix, and the two kinds never mix. */
  lemma PlannedNamesAreApart(d: Desired)
    requires RuleSetNames(d)
    ensures StagingApart(d)
    ensures forall n :: n in d || IsStagedName(d, n) ==> SET_PREFIX <= n
    ensures forall n :: IsSetName(n) ==> !IsStagedName(d, n)
  {
    hide SetName, StagedName;
    forall n, m | n in d && IsSetName(m)
      ensures StagedName(n) != m
    {
      var g, i, kind, f :| m == SetName(g, i, kind, f);
      StagedNameIsFresh(n, g, i, kind, f);
    }
    forall n | n in d
      ensures SET_PREFIX <= n && SET_PREFIX <= StagedName(n)
    {
      var g, i, kind, f :| n == SetName(g, i, kind, f);
      SetNameHasPrefix(g, i, kind, f);
      StagedNameIsFresh(n, g, i, kind, f);
    }
  }

  /** A binding of the routing manager: its sets have rule set names. */
  ghost predicate PlannedBinding(b: RouteBinding) {
    forall f, name :: UsesSet(b, f, name) ==> IsSetName(name)
  }

  ghost predicate PlannedBindings(bs: seq<RouteBinding>) {
    forall i :: 0 <= i < |bs| ==> PlannedBinding(bs[i])
  }

  lemma BuiltBindingIsPlanned(g: DomainGroup, r: RoutingRule, i: nat, profile: Profile)
    ensures PlannedBinding(BuildBinding(g, r, i, profile))
  {
    hide SetName;
    var b := BuildBinding(g, r, i, profile);
    forall f, name | UsesSet(b, f, name)
      ensures IsSetName(name)
    {
      assert name == SetName(g.name, i, Source, f) || name == SetName(g.name, i, ExcludedSource, f)
          || name == SetName(g.name, i, Destination, f) || name == SetName(g.name, i, ExcludedDestination, f);
    }
  }

  lemma {:induction false} GroupBindingsPlanned(g: DomainGroup, n: nat, profile: Profile)
    requires n <= |g.rules|
    ensures PlannedBindings(GroupBindings(g, n, profile))
  {
    hide PlannedBinding, BuildBinding, HasSelectors;
    if n > 0 {
      GroupBindingsPlanned(g, n - 1, profile);
      BuiltBindingIsPlanned(g, g.rules[n - 1], n - 1, profile);
    }
  }

  lemma {:induction false} AllBindingsPlanned(groups: seq<DomainGroup>, profiles: map<string, Profile>)
    requires ProfilesUsable(groups, profiles)
    ensures PlannedBindings(AllBindings(groups, profiles))
  {
    hide PlannedBinding;
    if groups != [] {
      var g := groups[|groups| - 1];
      AllBindingsPlanned(groups[..|groups| - 1], profiles);
      GroupBindingsPlanned(g, |g.rules|, profiles[g.egressVpn]);
    }
  }

  lemma SortedPlanned(bs: seq<RouteBinding>)
    requires PlannedBindings(bs)
    ensures PlannedBindings(SortBindings(bs))
  {
    hide PlannedBinding;
    var r := SortBindings(bs);
    forall i | 0 <= i < |r| ensures PlannedBinding(r[i]) {
      assert r[i] in multiset(bs);
    }
  }

  lemma ReplacingKeepsInv(k0: Kernel, k: Kernel, d: Desired, collapse: Collapse, v: Variant, bs: seq<RouteBinding>)
    requires RoutingInv(k0, v, bs) && PlannedBindings(bs) && RuleSetNames(d) && ReplacingState(k0, k, d, collapse)
    ensures RoutingInv(k, v, bs)
  {
    hide Installed, Contents, ForeignOk, UsesSet, IsSetName, IsStagedName, StagingApart, Covered;
    PlannedNamesAreApart(d);
    SameChainsInstalled(k0, k, v, bs);
    forall name | !(SET_PREFIX <= name)
      ensures SameSet(k0, k, name)
    {
      assert name !in d && !IsStagedName(d, name);
    }
    ForeignOkFrame(k0, k);
    forall i, f, name | 0 <= i < |bs| && UsesSet(bs[i], f, name)
      ensures name in k.sets
    {
      assert PlannedBinding(bs[i]) && IsSetName(name) && name in k0.sets;
      if name in d {
        assert OldOrNew(k0, k, name, d[name].family, Contents(collapse, d[name]));
      } else {
        assert SameSet(k0, k, name);
      }
    }
  }

  lemma InvNeverDangles(k: Kernel, v: Variant, bs: seq<RouteBinding>)
    requires RoutingInv(k, v, bs)
    ensures NoDangling(k)
  {
    hide Installed, ForeignOk, SetsLive, NoDangling, AllSitesOk;
    InstalledSitesOk(k, v, bs, bs);
    SwitchNeverDangles(k, v, bs, bs);
  }

  // ---- Phase 2: the rules ---------------------------------------------------

  lemma SetsLiveSame(bs: seq<RouteBinding>, k: Kernel, k': Kernel)
    requires SetsLive(bs, k) && k'.sets == k.sets
    ensures SetsLive(bs, k')
  {
    hide UsesSet;
  }

  // ---- Phase 3: removing stale sets -----------------------------------------

  /** Only sets of this application that are not kept have been destroyed since `k0`. */
  ghost predicate CleaningState(k0: Kernel, k: Kernel, keep: set<string>) {
    && k.chains == k0.chains && k.ipRules4 == k0.ipRules4 && k.ipRules6 == k0.ipRules6
    && (forall n :: n in keep || !(SET_PREFIX <= n) ==> SameSet(k0, k, n))
    && (forall n :: n in k.sets ==> n in k0.sets)
  }

  ghost predicate CleaningSteps(log: seq<Step>, n: nat, k0: Kernel, keep: set<string>) {
    forall i :: n <= i < |log| ==>
      log[i].cmd.DestroySet? && CleaningState(k0, log[i].before, keep) && CleaningState(k0, log[i].after, keep)
  }

  lemma CleaningNext(k0: Kernel, s: Step, keep: set<string>)
    requires CleaningState(k0, s.before, keep) && Ran(s) && s.cmd.DestroySet? && SET_PREFIX <= s.cmd.name && s.cmd.name !in keep
    ensures CleaningState(k0, s.after, keep)
  {
    forall n | n in keep || !(SET_PREFIX <= n)
      ensures SameSet(k0, s.after, n)
    {
      assert SameSet(k0, s.before, n);
    }
  }

  /** Destroys the listed sets in order up to the first failure. */
  method DestroyStale(host: Host, order: seq<string>, keep: set<string>) returns (ok: bool)
    requires host.Valid() && forall i, j :: 0 <= i < j < |order| ==> order[i] != order[j]
    requires forall i :: 0 <= i < |order| ==> SET_PREFIX <= order[i] && order[i] in host.kernel.sets
    modifies host
    ensures host.Valid() && old(host.log) <= host.log
    ensures CleaningSteps(host.log, |old(host.log)|, old(host.kernel), keep)
    ensures CleaningState(old(host.kernel), host.kernel, keep)
    ensures ok ==> forall i :: 0 <= i < |order| ==> order[i] in keep || order[i] !in host.kernel.sets
    ensures (forall t, n :: !host.faults(t, DestroySet(n))) ==> ok
  {
    hide Chained, Ran, CleaningState, Accepts;
    ghost var k0 := host.kernel;
    CleaningItself(k0, keep);
    for i := 0 to |order|
      invariant host.Valid() && old(host.log) <= host.log && CleaningSteps(host.log, |old(host.log)|, k0, keep)
      invariant CleaningState(k0, host.kernel, keep)
      invariant forall j :: 0 <= j < i ==> order[j] in keep || order[j] !in host.kernel.sets
      invariant forall j :: i <= j < |order| ==> order[j] in host.kernel.sets
    {
      if order[i] in keep {
        continue;
      }
      ok := host.Run(DestroySet(order[i]));
      ghost var s := host.log[|host.log| - 1];
      CleaningNext(k0, s, keep);
      DestroyEffect(s);
      if !ok { return; }
    }
    ok := true;
  }

  lemma CleaningItself(k: Kernel, keep: set<string>)
    ensures CleaningState(k, k, keep)
  {
  }

  method CleanupStaleSets(host: Host, keep: set<string>) returns (ok: bool)
    requires host.Valid()
    modifies host
    ensures host.Valid() && old(host.log) <= host.log
    ensures CleaningSteps(host.log, |old(host.log)|, old(host.kernel), keep)
    ensures CleaningState(old(host.kernel), host.kernel, keep)
    ensures ok ==> forall n :: n in host.kernel.sets && SET_PREFIX <= n ==> n in keep
    ensures (forall t, n :: !host.faults(t, DestroySet(n))) && (forall t :: !host.lost(t)) ==> ok
  {
    hide Chained, Ran;
    var listed, names := host.ListSets(SET_PREFIX);
    if !listed { return false; }
    var order := Sorted(names);
    forall i | 0 <= i < |order|
      ensures SET_PREFIX <= order[i] && order[i] in host.kernel.sets
    {
      assert order[i] in order;
    }
    ok := DestroyStale(host, order, keep);
  }

  lemma DestroyEffect(s: Step)
    requires Ran(s) && s.cmd.DestroySet?
    ensures forall n :: n in s.after.sets ==> n in s.before.sets
    ensures forall n :: n in s.before.sets && n != s.cmd.name ==> n in s.after.sets
    ensures s.ok ==> s.cmd.name !in s.after.sets
    ensures s.cmd.name in s.before.sets ==> Accepts(s.before, s.cmd)
  {
  }

  lemma CleaningKeepsInv(k0: Kernel, k: Kernel, keep: set<string>, v: Variant, bs: seq<RouteBinding>)
    requires RoutingInv(k0, v, bs) && CleaningState(k0, k, keep)
    requires forall i, f, name :: 0 <= i < |bs| && UsesSet(bs[i], f, name) ==> name in keep
    ensures RoutingInv(k, v, bs)
  {
    hide Installed, ForeignOk, UsesSet;
    SameChainsInstalled(k0, k, v, bs);
    ForeignOkFrame(k0, k);
    forall i, f, name | 0 <= i < |bs| && UsesSet(bs[i], f, name)
      ensures name in k.sets
    {
      assert SameSet(k0, k, name);
    }
  }

  lemma CleaningIsSafe(log: seq<Step>, n: nat, k0: Kernel, keep: set<string>, v: Variant, bs: seq<RouteBinding>)
    requires RoutingInv(k0, v, bs) && CleaningSteps(log, n, k0, keep)
    requires forall i, f, name :: 0 <= i < |bs| && UsesSet(bs[i], f, name) ==> name in keep
    ensures SafeSteps(log, n)
  {
    hide RoutingInv, NoDangling, CleaningState, UsesSet;
    forall i | n <= i < |log|
      ensures NoDangling(log[i].before) && NoDangling(log[i].after)
    {
      CleaningKeepsInv(k0, log[i].before, keep, v, bs);
      CleaningKeepsInv(k0, log[i].after, keep, v, bs);
      InvNeverDangles(log[i].before, v, bs);
      InvNeverDangles(log[i].after, v, bs);
    }
  }

  lemma UsedSetsAreDesired(bs: seq<RouteBinding>, d: Desired)
    requires AllSetsDesired(bs, d)
    ensures forall i, f, name :: 0 <= i < |bs| && UsesSet(bs[i], f, name) ==> name in d.Keys
  {
    forall i, f, name | 0 <= i < |bs| && UsesSet(bs[i], f, name)
      ensures name in d.Keys
    {
      assert SetsDesired(bs[i], d);
    }
  }

  lemma SortedDesired(bs: seq<RouteBinding>, d: Desired)
    requires AllSetsDesired(bs, d)
    ensures AllSetsDesired(SortBindings(bs), d)
  {
    hide SetsDesired;
    var r := SortBindings(bs);
    forall i | 0 <= i < |r| ensures SetsDesired(r[i], d) {
      assert r[i] in multiset(bs);
    }
  }
}
