/**
  A run in which a takedown strands a rule: on a kernel that lets sets in use be
  destroyed, two commands on each of the three chains of one path fail, and the next
  apply makes packets reach a rule whose set is gone.
 */
module StrandedRun {
  import opened Netfilter
  import opened Hosts
  import opened Bindings
  import opened SetNames
  import opened MarkCompiler
  import opened Rulesets
  import opened IpRulesSync
  import opened Generations
  import opened SetReferences
  import opened Takedown
  import opened Stranding
  import opened RoutingManager

  // ---- A kernel with a live ruleset -----------------------------------------

  const FAMILIES: set<Family> := {V4, V6}
  const KINDS: set<Kind> := {MarkKind, MssKind, NatKind}

  function HookIds(f: Family, kind: Kind): set<ChainId> {
    {ParentId(f, kind), RootId(f, kind), GenId(f, kind, A)}
  }

  function LiveIds(n: nat): set<ChainId> {
    (set f, kind, id | f in FAMILIES && kind in KINDS && id in HookIds(f, kind) :: id)
    + (set f, i | f in FAMILIES && 0 <= i < n :: RuleChainId(A, i, f))
  }

  function LiveRules(bs: seq<RouteBinding>, id: ChainId): seq<Rule> {
    match id.chain
    case Parent(kind) => [JumpTo(Root(kind))]
    case Root(kind) => [JumpTo(Gen(kind, A))]
    case Gen(kind, _) =>
      (match kind
       case MarkKind => JumpRules(A, |bs|, id.family)
       case NatKind => NatRules(bs)
       case MssKind => MssRules(bs, id.family))
    case RuleChain(_, i, f) => if i < |bs| then Compiled(bs[i], f) else []
    case Foreign(_) => []
  }

  /** Nothing but the ruleset of the bindings, live in generation `A`. */
  function LiveKernel(bs: seq<RouteBinding>, sets: map<string, IpSet>): Kernel {
    Kernel(map id | id in LiveIds(|bs|) :: LiveRules(bs, id), sets, multiset{}, multiset{})
  }

  lemma LiveHook(bs: seq<RouteBinding>, sets: map<string, IpSet>, f: Family, kind: Kind)
    ensures var k := LiveKernel(bs, sets);
      && ChainIs(k, ParentId(f, kind), [JumpTo(Root(kind))]) && ChainIs(k, RootId(f, kind), [JumpTo(Gen(kind, A))])
      && ChainIs(k, GenId(f, kind, A), LiveRules(bs, GenId(f, kind, A)))
  {
    hide LiveRules;
    assert f in FAMILIES && kind in KINDS;
    assert ParentId(f, kind) in HookIds(f, kind) && RootId(f, kind) in HookIds(f, kind) && GenId(f, kind, A) in HookIds(f, kind);
    LiveLinks(bs, f, kind);
  }

  lemma LiveLinks(bs: seq<RouteBinding>, f: Family, kind: Kind)
    ensures LiveRules(bs, ParentId(f, kind)) == [JumpTo(Root(kind))] && LiveRules(bs, RootId(f, kind)) == [JumpTo(Gen(kind, A))]
  {
  }

  lemma LiveChain(bs: seq<RouteBinding>, sets: map<string, IpSet>, f: Family, i: nat)
    requires i < |bs|
    ensures ChainIs(LiveKernel(bs, sets), RuleChainId(A, i, f), Compiled(bs[i], f))
  {
    hide HookIds, Compiled;
    assert f in FAMILIES;
    assert RuleChainId(A, i, f) in LiveIds(|bs|);
  }

  lemma LiveInstalled(bs: seq<RouteBinding>, sets: map<string, IpSet>)
    ensures Installed(LiveKernel(bs, sets), A, bs)
  {
    hide LiveKernel, Compiled, JumpRules, NatRules, MssRules;
    var k := LiveKernel(bs, sets);
    forall f: Family, kind: Kind
      ensures ChainIs(k, RootId(f, kind), [JumpTo(Gen(kind, A))]) && Built(k, A, bs, f, kind) && Linked(k, f, kind)
    {
      LiveHook(bs, sets, f, kind);
      forall i: nat | i < |bs|
        ensures ChainIs(k, RuleChainId(A, i, f), Compiled(bs[i], f))
      {
        LiveChain(bs, sets, f, i);
      }
    }
  }

  lemma LiveParents(bs: seq<RouteBinding>, sets: map<string, IpSet>)
    ensures ForeignOk(LiveKernel(bs, sets)) && FewLinks(LiveKernel(bs, sets))
  {
    hide NamesSet, Compiled, JumpRules, NatRules, MssRules;
    var k := LiveKernel(bs, sets);
    forall id: ChainId, i: nat | id in k.chains && IsForeign(id) && i < |k.chains[id]|
      ensures ForeignRuleOk(k, id, k.chains[id][i])
    {
      LinkNamesNothing(id.chain.kind);
    }
    forall f: Family, kind: Kind
      ensures Links(k, f, kind) <= DELETE_LIMIT
    {
      LiveHook(bs, sets, f, kind);
    }
  }

  /** Every ruleset whose sets exist can be live. */
  lemma LiveIsWarm(bs: seq<RouteBinding>, sets: map<string, IpSet>)
    requires PlannedBindings(bs) && forall i, f, name :: 0 <= i < |bs| && UsesSet(bs[i], f, name) ==> name in sets
    ensures InPhase(LiveKernel(bs, sets), Warm(A, bs))
  {
    hide Installed, ForeignOk, UsesSet, PlannedBindings, FewLinks;
    LiveInstalled(bs, sets);
    LiveParents(bs, sets);
  }

  // ---- The run --------------------------------------------------------------

  /** A flush or a deletion of one of the three chains on the way to rule chain `i`. */
  predicate OnPath(cmd: Cmd, f: Family, i: nat) {
    Clears(cmd, RootId(f, MarkKind)) || Clears(cmd, GenId(f, MarkKind, A)) || Clears(cmd, RuleChainId(A, i, f))
  }

  lemma PathIsSpared(host: Host, f: Family, i: nat)
    requires host.Valid() && forall t, cmd :: OnPath(cmd, f, i) ==> host.faults(t, cmd)
    ensures PathSpared(host.log, 0, |host.log|, f, A, i)
  {
    hide Chained;
    forall j: nat | j < |host.log| && OnPath(host.log[j].cmd, f, i)
      ensures !host.log[j].ok
    {
      NeverSucceeds(host.faults, host.log, host.times, j);
    }
  }

  lemma ParentTaken(s: Step, id: ChainId)
    requires Ran(s) && (ShrinkCmd(s.cmd) || s.cmd.DestroySet?) && id.chain.Parent? && id in s.before.chains
    ensures id in s.after.chains
  {
  }

  lemma {:induction false} ParentStays(start: Kernel, log: seq<Step>, m: nat, k: Kernel, id: ChainId)
    requires m <= |log| && Chained(start, log, k) && TakesDown(log, 0) && id.chain.Parent? && id in start.chains
    ensures id in StateAt(start, log, m).chains
    decreases m
  {
    hide Chained, Ran, ShrinkCmd;
    if m > 0 {
      ParentStays(start, log, m - 1, k, id);
      ChainedAt(start, log, k, m - 1);
      ParentTaken(log[m - 1], id);
    }
  }

  lemma LeadsFrame(k: Kernel, k': Kernel, f: Family, v: Variant, i: nat, name: string)
    requires Leads(k, f, v, i, name) && SameBut(k, k', {RootId(f, MarkKind), ParentId(f, MarkKind)}) && SameChain(k, k', RootId(f, MarkKind))
    ensures Leads(k', f, v, i, name) && k'.sets == k.sets
  {
    hide NamesSet;
    assert SameChain(k, k', GenId(f, MarkKind, v)) && SameChain(k, k', RuleChainId(v, i, f));
  }

  lemma UsedNameHasPrefix(bs: seq<RouteBinding>, f: Family, i: nat, name: string)
    requires PlannedBindings(bs) && i < |bs| && UsesSet(bs[i], f, name)
    ensures SET_PREFIX <= name
  {
    hide SetName, UsesSet;
    assert PlannedBinding(bs[i]);
    var g, j, kind, f' :| name == SetName(g, j, kind, f');
    SetNameHasPrefix(g, j, kind, f');
  }

  /**
    From any live ruleset that uses a set: if just the flushes and deletions of the
    mark root, of its generation and of the chain that names the set fail, then a
    takedown, which ends at `cut`, followed by the first steps of the next apply leaves
    a dangling reference.
   */
  method LeftoverRun(bs: seq<RouteBinding>, sets: map<string, IpSet>, f: Family, i: nat, name: string)
    returns (host: Host, ghost cut: nat)
    requires PlannedBindings(bs) && forall i, f, name :: 0 <= i < |bs| && UsesSet(bs[i], f, name) ==> name in sets
    requires i < |bs| && UsesSet(bs[i], f, name)
    ensures host.Valid() && InPhase(host.start, Warm(A, bs)) && FewLinks(host.start)
    ensures forall t, cmd :: host.faults(t, cmd) ==> OnPath(cmd, f, i)
    ensures cut <= |host.log| && TakesDown(host.log[..cut], 0) && Stranded(host.start, host.log, 0, cut)
    ensures QuietRange(host.log, cut, B)
    ensures !NoDangling(host.kernel)
  {
    hide Chained, Answered, InPhase, NoDangling, LiveKernel, PlannedBindings, UsesSet, FewLinks, Leads, TakesDown, PathSpared, Relinks,
         Stranded, PathResisted, SafeSteps, Unlinked, ProtectsUsed, Installed, SameBut, QuietRange, ClearFrom;
    LiveIsWarm(bs, sets);
    LiveInstalled(bs, sets);
    LiveParents(bs, sets);
    LiveHook(bs, sets, f, MarkKind);
    host := new Host(LiveKernel(bs, sets), (t, cmd) => OnPath(cmd, f, i), t => false, true);
    var _ := ApplyNothing(host, Warm(A, bs));
    ghost var k1, log1 := host.kernel, host.log;
    cut := |log1|;
    PathIsSpared(host, f, i);
    ResistedHere(log1, cut, bs, f, i, name);
    InstalledLeads(host.start, A, bs, f, A, i, name);
    PathSame(host.start, log1, 0, |log1|, k1, f, A, i, name);
    UsedNameHasPrefix(bs, f, i, name);
    ParentStays(host.start, log1, |log1|, k1, ParentId(f, MarkKind));
    LogStates(host.start, [], host.start, log1, k1);
    LeadsRoot(k1, f, A, i, name);
    var _ := LinkParent(host, f, MarkKind, B);
    assert host.log[..cut] == log1;
    StrandedPrefix(host.start, log1, host.log, 0, cut);
    LeadsFrame(k1, host.kernel, f, A, i, name);
    AstrayDangles(host.kernel, f, A, i, name);
  }

  lemma ResistedHere(log: seq<Step>, m: nat, bs: seq<RouteBinding>, f: Family, i: nat, name: string)
    requires i < |bs| && UsesSet(bs[i], f, name) && PathSpared(log, 0, m, f, A, i)
    ensures PathResisted(log, 0, m, A, bs)
  {
  }

  lemma LeadsRoot(k: Kernel, f: Family, v: Variant, i: nat, name: string)
    requires Leads(k, f, v, i, name)
    ensures RootId(f, MarkKind) in k.chains
  {
  }
}
