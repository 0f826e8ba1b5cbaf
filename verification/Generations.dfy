/**
  Replacing the live ruleset. The new ruleset is built in the generation that no
  root refers to, then each root is switched by inserting the new jump before the
  old one and deleting the old one.
 */
module Generations {
  import opened Text
  import opened Netfilter
  import opened Hosts
  import opened Bindings
  import opened MarkCompiler
  import opened Rulesets
  import opened IpRulesSync

  datatype Site = Site(family: Family, kind: Kind)

  /** The six hooks, in the order in which they are prepared and switched. */
  const SITES: seq<Site> :=
    [Site(V4, MarkKind), Site(V4, MssKind), Site(V4, NatKind), Site(V6, MarkKind), Site(V6, MssKind), Site(V6, NatKind)]

  function SiteIndex(s: Site): (i: nat)
    ensures i < |SITES| && SITES[i] == s
  {
    match s
    case Site(V4, MarkKind) => 0
    case Site(V4, MssKind) => 1
    case Site(V4, NatKind) => 2
    case Site(V6, MarkKind) => 3
    case Site(V6, MssKind) => 4
    case Site(V6, NatKind) => 5
  }

  lemma SitesDistinct(i: nat, j: nat)
    requires i < |SITES| && j < |SITES| && i != j
    ensures SITES[i] != SITES[j]
  {
  }

  /** The prefix of the names of rule chains of a generation. */
  function RulePrefix(w: Variant): string {
    if w.A? then "SVPNA_" else "SVPNB_"
  }

  /** A rule chain of generation `w`, or a chain that bears its prefix. */
  predicate RuleChainOf(w: Variant, chain: Chain) {
    (chain.RuleChain? && chain.variant == w) || (chain.Foreign? && RulePrefix(w) <= chain.name)
  }

  /** The chains that are rewritten while generation `w` is built. */
  predicate Owned(w: Variant, id: ChainId) {
    (id.chain.Gen? && id.chain.variant == w) || RuleChainOf(w, id.chain)
  }

  /** The built-in chains are there. */
  ghost predicate ParentsExist(k: Kernel) {
    forall f: Family, kind: Kind :: ParentId(f, kind) in k.chains
  }

  ghost predicate RootsExist(k: Kernel) {
    forall f: Family, kind: Kind :: RootId(f, kind) in k.chains
  }

  predicate Linked(k: Kernel, f: Family, kind: Kind) {
    ParentId(f, kind) in k.chains && JumpTo(Root(kind)) in k.chains[ParentId(f, kind)]
  }

  /** All six roots jump to generation `v` and to nothing else, and it holds the ruleset of the bindings. */
  ghost predicate Installed(k: Kernel, v: Variant, bs: seq<RouteBinding>) {
    forall f: Family, kind: Kind ::
      ChainIs(k, RootId(f, kind), [JumpTo(Gen(kind, v))]) && Built(k, v, bs, f, kind) && Linked(k, f, kind)
  }

  // ---- Quiet commands -------------------------------------------------------

  /** Links a root into its built-in chain. */
  predicate LinksRoot(cmd: Cmd) {
    cmd.AppendRule? && cmd.id.chain.Parent? && cmd.id.table == TableOf(cmd.id.chain.kind)
    && cmd.rule == JumpTo(Root(cmd.id.chain.kind))
  }

  /** Commands that touch built-in chains only to link roots, and foreign chains only to empty or delete them. */
  predicate ForeignSafe(cmd: Cmd) {
    || cmd.AddIpRule? || cmd.DelIpRule?
    || (IsChainCmd(cmd)
        && (cmd.id.chain.Parent? ==> cmd.CheckRule? || LinksRoot(cmd))
        && (cmd.id.chain.Foreign? ==> cmd.FlushChain? || cmd.DeleteChain?))
  }

  ghost predicate ForeignSafeFrom(log: seq<Step>, n: nat) {
    forall i :: n <= i < |log| ==> ForeignSafe(log[i].cmd)
  }

  /** Commands that no live root can notice while generation `w` is being built. */
  predicate QuietCmd(cmd: Cmd, w: Variant) {
    IsChainCmd(cmd) &&
    (|| (Owned(w, cmd.id) && !cmd.DeleteRule? && (cmd.id.chain.Foreign? ==> cmd.FlushChain? || cmd.DeleteChain?))
     || (cmd.id.chain.Parent? && (cmd.CheckRule? || LinksRoot(cmd)))
     || (cmd.id.chain.Root? && cmd.id == RootId(cmd.id.family, cmd.id.chain.kind) && cmd.NewChain?))
  }

  /** The chain is absent or empty. */
  predicate ChainIdle(k: Kernel, id: ChainId) {
    id in k.chains ==> k.chains[id] == []
  }

  predicate RootIdle(k: Kernel, f: Family, kind: Kind) {
    ChainIdle(k, RootId(f, kind))
  }

  ghost predicate AllIdle(k: Kernel) {
    forall f: Family, kind: Kind :: RootIdle(k, f, kind)
  }

  /** Commands that put no rule into a root and leave the ipsets alone. */
  predicate IdleCmd(cmd: Cmd) {
    || cmd.AddIpRule? || cmd.DelIpRule?
    || (IsChainCmd(cmd) && (cmd.id.chain.Root? ==> !cmd.AppendRule? && !cmd.InsertRule?))
  }

  ghost predicate IdleFrom(log: seq<Step>, n: nat) {
    forall i :: n <= i < |log| ==> IdleCmd(log[i].cmd)
  }

  /** Commands that add no rule but the link to a root, and leave the ipsets alone. */
  predicate ClearCmd(cmd: Cmd) {
    || cmd.AddIpRule? || cmd.DelIpRule? || cmd.NewChain? || cmd.FlushChain? || cmd.DeleteChain? || cmd.CheckRule?
    || ((cmd.AppendRule? || cmd.DeleteRule?) && cmd.id.chain.Parent?)
  }

  ghost predicate ClearFrom(log: seq<Step>, n: nat) {
    forall i :: n <= i < |log| ==> ClearCmd(log[i].cmd)
  }

  ghost predicate QuietRange(log: seq<Step>, a: nat, w: Variant) {
    forall i :: a <= i < |log| ==> QuietCmd(log[i].cmd, w)
  }

  /** Everything but the chains of generation `w` is as in `k0`; parents may have grown. */
  ghost predicate Quiet(k0: Kernel, k: Kernel, w: Variant) {
    && SameSetsAndRules(k0, k)
    && (forall id :: !Owned(w, id) && !id.chain.Parent? ==> SameChain(k0, k, id))
    && (forall id: ChainId :: id.chain.Parent? && id in k0.chains ==> id in k.chains && k0.chains[id] <= k.chains[id])
  }

  lemma QuietStep(k0: Kernel, s: Step, w: Variant)
    requires Quiet(k0, s.before, w) && Ran(s) && QuietCmd(s.cmd, w)
    requires s.cmd.id.chain.Root? ==> s.cmd.id in k0.chains
    ensures Quiet(k0, s.after, w)
  {
    hide RulePrefix;
    assert SameSetsAndRules(s.before, s.after);
    forall id | !Owned(w, id) && !id.chain.Parent?
      ensures SameChain(k0, s.after, id)
    {
      assert SameChain(k0, s.before, id);
      if id == s.cmd.id {
        assert s.cmd.NewChain? && id in s.before.chains;
      } else {
        assert SameChain(s.before, s.after, id);
      }
    }
  }

  // ---- One append -----------------------------------------------------------

  method Append(host: Host, id: ChainId, rule: Rule) returns (ok: bool)
    requires host.Valid()
    modifies host
    ensures host.Valid()
    ensures old(host.log) <= host.log && |host.log| == |old(host.log)| + 1
    ensures host.log[|old(host.log)|].cmd == AppendRule(id, rule)
    ensures SameBut(old(host.kernel), host.kernel, {id})
    ensures ok ==> id in old(host.kernel).chains && ChainIs(host.kernel, id, old(host.kernel).chains[id] + [rule])
    ensures !ok ==> host.kernel == old(host.kernel)
    ensures host.Flawless() && id in old(host.kernel).chains ==> ok
  {
    hide Chained;
    ok := host.Run(AppendRule(id, rule));
  }

  // ---- Preparing a generation -----------------------------------------------

  predicate PrepTouches(f: Family, kind: Kind, w: Variant, id: ChainId) {
    id.family == f && id.table == TableOf(kind) &&
    (id.chain == Root(kind) || id.chain == Parent(kind) || id.chain == Gen(kind, w)
     || (kind.MarkKind? && RuleChainOf(w, id.chain)))
  }

  ghost predicate SameOutside(k: Kernel, k': Kernel, f: Family, kind: Kind, w: Variant) {
    SameSetsAndRules(k, k') && forall id :: !PrepTouches(f, kind, w, id) ==> SameChain(k, k', id)
  }

  ghost predicate Prepared(k: Kernel, w: Variant, f: Family, kind: Kind) {
    ChainIs(k, GenId(f, kind, w), []) && Linked(k, f, kind)
  }

  /** Empties and deletes one rule chain of generation `w`. */
  method RemoveRuleChain(host: Host, id: ChainId, w: Variant)
    requires host.Valid() && RuleChainOf(w, id.chain)
    modifies host
    ensures host.Valid()
    ensures old(host.log) <= host.log && QuietRange(host.log, |old(host.log)|, w) && ClearFrom(host.log, |old(host.log)|)
    ensures forall i :: |old(host.log)| <= i < |host.log| ==> host.log[i].cmd.FlushChain? || host.log[i].cmd.DeleteChain?
    ensures SameBut(old(host.kernel), host.kernel, {id}) && host.kernel.chains.Keys <= old(host.kernel).chains.Keys
    ensures host.Flawless() ==> id !in host.kernel.chains
  {
    hide Chained, RulePrefix;
    var _ := host.Run(FlushChain(id));
    var _ := host.Run(DeleteChain(id));
  }

  predicate IsRuleChain(f: Family, w: Variant, id: ChainId) {
    id.family == f && id.table == Mangle && RuleChainOf(w, id.chain)
  }

  /** Deletes what is left of the rule chains of an earlier ruleset in generation `w`. */
  method CleanupRuleChains(host: Host, f: Family, w: Variant)
    requires host.Valid()
    modifies host
    ensures host.Valid()
    ensures old(host.log) <= host.log && QuietRange(host.log, |old(host.log)|, w) && ClearFrom(host.log, |old(host.log)|)
    ensures forall i :: |old(host.log)| <= i < |host.log| ==> host.log[i].cmd.FlushChain? || host.log[i].cmd.DeleteChain?
    ensures SameSetsAndRules(old(host.kernel), host.kernel)
    ensures forall id: ChainId :: !IsRuleChain(f, w, id) ==> SameChain(old(host.kernel), host.kernel, id)
    ensures host.Flawless() ==> forall id: ChainId :: IsRuleChain(f, w, id) ==> id !in host.kernel.chains
  {
    hide Chained, RuleChainOf, QuietCmd, ClearCmd;
    var listed, ids := host.ListChains(f, Mangle);
    if !listed {
      return;
    }
    ghost var k0 := host.kernel;
    for i := 0 to |ids|
      invariant host.Valid() && old(host.log) <= host.log && QuietRange(host.log, |old(host.log)|, w) && ClearFrom(host.log, |old(host.log)|)
      invariant forall j :: |old(host.log)| <= j < |host.log| ==> host.log[j].cmd.FlushChain? || host.log[j].cmd.DeleteChain?
      invariant SameSetsAndRules(k0, host.kernel) && host.kernel.chains.Keys <= k0.chains.Keys
      invariant forall id: ChainId :: !IsRuleChain(f, w, id) ==> SameChain(k0, host.kernel, id)
      invariant host.Flawless() ==> forall j :: 0 <= j < i && RuleChainOf(w, ids[j].chain) ==> ids[j] !in host.kernel.chains
    {
      if RuleChainOf(w, ids[i].chain) {
        assert ids[i] in ids;
        ghost var k := host.kernel;
        RemoveRuleChain(host, ids[i], w);
        forall id: ChainId | !IsRuleChain(f, w, id)
          ensures SameChain(k0, host.kernel, id)
        {
          assert id != ids[i] && SameChain(k0, k, id) && SameChain(k, host.kernel, id);
        }
      }
    }
    if host.Flawless() {
      forall id: ChainId | IsRuleChain(f, w, id) && id in k0.chains
        ensures id !in host.kernel.chains
      {
        assert id in ids;
      }
    }
  }

  method LinkParent(host: Host, f: Family, kind: Kind, ghost w: Variant) returns (ok: bool)
    requires host.Valid()
    modifies host
    ensures host.Valid()
    ensures old(host.log) <= host.log && QuietRange(host.log, |old(host.log)|, w) && ClearFrom(host.log, |old(host.log)|)
    ensures SameBut(old(host.kernel), host.kernel, {RootId(f, kind), ParentId(f, kind)})
    ensures RootId(f, kind) in old(host.kernel).chains ==> SameChain(old(host.kernel), host.kernel, RootId(f, kind))
    ensures ok ==> Linked(host.kernel, f, kind)
    ensures ParentId(f, kind) in old(host.kernel).chains && (forall t :: !host.faults(t, AppendRule(ParentId(f, kind), JumpTo(Root(kind))))) ==> ok
    ensures host.Flawless() ==> RootId(f, kind) in host.kernel.chains && (ParentId(f, kind) in old(host.kernel).chains ==> ok)
  {
    hide Chained, SameBut, Accepts, Apply, Ran, QuietCmd, ClearCmd;
    var root, parent, link := RootId(f, kind), ParentId(f, kind), JumpTo(Root(kind));
    LinkCommands(f, kind, w);
    ghost var k0 := host.kernel;
    var _ := host.Run(NewChain(root));
    ghost var k1 := host.kernel;
    NewEffect(host.log[|host.log| - 1]);
    SameButElsewhere(k0, k1, {root}, parent);
    ok := host.Run(CheckRule(parent, link));
    CheckEffect(host.log[|host.log| - 1]);
    SameButItself(k1);
    SameButTransitive(k0, k1, k1, {root}, {}, {root, parent});
    if !ok {
      ok := host.Run(AppendRule(parent, link));
      AppendEffect(host.log[|host.log| - 1]);
      StepSameBut(host.log[|host.log| - 1]);
      SameButElsewhere(k1, host.kernel, {parent}, root);
      SameButTransitive(k0, k1, host.kernel, {root, parent}, {parent}, {root, parent});
    }
  }

  lemma LinkCommands(f: Family, kind: Kind, w: Variant)
    ensures var root, parent, link := RootId(f, kind), ParentId(f, kind), JumpTo(Root(kind));
      && QuietCmd(NewChain(root), w) && QuietCmd(CheckRule(parent, link), w) && QuietCmd(AppendRule(parent, link), w)
      && ClearCmd(NewChain(root)) && ClearCmd(CheckRule(parent, link)) && ClearCmd(AppendRule(parent, link))
  {
  }

  lemma NewEffect(s: Step)
    requires Ran(s) && s.cmd.NewChain?
    ensures SameBut(s.before, s.after, {s.cmd.id})
    ensures s.cmd.id in s.before.chains ==> s.after == s.before
    ensures s.ok == Accepts(s.before, s.cmd) ==> s.cmd.id in s.after.chains
  {
  }

  lemma StepSameBut(s: Step)
    requires Ran(s) && IsChainCmd(s.cmd)
    ensures SameBut(s.before, s.after, {s.cmd.id})
  {
  }

  lemma CheckEffect(s: Step)
    requires Ran(s) && s.cmd.CheckRule?
    ensures s.after == s.before
    ensures s.ok ==> s.cmd.id in s.after.chains && s.cmd.rule in s.after.chains[s.cmd.id]
  {
  }

  lemma AppendEffect(s: Step)
    requires Ran(s) && s.cmd.AppendRule?
    ensures s.ok ==> s.cmd.id in s.after.chains && s.cmd.rule in s.after.chains[s.cmd.id]
    ensures s.cmd.id in s.before.chains ==> Accepts(s.before, s.cmd)
  {
  }

  method EmptyGeneration(host: Host, f: Family, kind: Kind, w: Variant) returns (ok: bool)
    requires host.Valid()
    modifies host
    ensures host.Valid()
    ensures old(host.log) <= host.log && QuietRange(host.log, |old(host.log)|, w) && ClearFrom(host.log, |old(host.log)|)
    ensures SameBut(old(host.kernel), host.kernel, {GenId(f, kind, w)})
    ensures ok ==> ChainIs(host.kernel, GenId(f, kind, w), [])
    ensures host.Flawless() ==> ok
  {
    hide Chained;
    var _ := host.Run(NewChain(GenId(f, kind, w)));
    ok := host.Run(FlushChain(GenId(f, kind, w)));
  }

  method PrepareGenerationChain(host: Host, f: Family, kind: Kind, w: Variant) returns (ok: bool)
    requires host.Valid()
    modifies host
    ensures host.Valid()
    ensures old(host.log) <= host.log && QuietRange(host.log, |old(host.log)|, w) && ClearFrom(host.log, |old(host.log)|)
    ensures SameOutside(old(host.kernel), host.kernel, f, kind, w)
    ensures ok ==> Prepared(host.kernel, w, f, kind)
    ensures host.Flawless() && ParentId(f, kind) in old(host.kernel).chains ==> ok && RootId(f, kind) in host.kernel.chains
  {
    hide Chained, QuietCmd, ClearCmd, RuleChainOf;
    ghost var k0 := host.kernel;
    ok := LinkParent(host, f, kind, w);
    ghost var k1 := host.kernel;
    assert SameOutside(k0, k1, f, kind, w);
    if !ok { return; }
    ok := EmptyGeneration(host, f, kind, w);
    ghost var k2 := host.kernel;
    assert SameOutside(k1, k2, f, kind, w);
    SameOutsideTransitive(k0, k1, k2, f, kind, w);
    assert SameChain(k1, k2, ParentId(f, kind)) && SameChain(k1, k2, RootId(f, kind));
    if !ok { return; }
    if kind.MarkKind? {
      CleanupRuleChains(host, f, w);
      NotRuleChains(w, kind);
      assert SameChain(k2, host.kernel, ParentId(f, kind)) && SameChain(k2, host.kernel, GenId(f, kind, w))
             && SameChain(k2, host.kernel, RootId(f, kind));
      assert SameOutside(k2, host.kernel, f, kind, w);
      SameOutsideTransitive(k0, k2, host.kernel, f, kind, w);
    }
  }

  lemma NotRuleChains(w: Variant, kind: Kind)
    ensures !RuleChainOf(w, Parent(kind)) && !RuleChainOf(w, Root(kind))
    ensures !RuleChainOf(w, Gen(kind, A)) && !RuleChainOf(w, Gen(kind, B))
  {
  }

  lemma SameOutsideTransitive(k: Kernel, k': Kernel, k'': Kernel, f: Family, kind: Kind, w: Variant)
    requires SameOutside(k, k', f, kind, w) && SameOutside(k', k'', f, kind, w)
    ensures SameOutside(k, k'', f, kind, w)
  {
    hide PrepTouches;
    forall id | !PrepTouches(f, kind, w, id)
      ensures SameChain(k, k'', id)
    {
      assert SameChain(k, k', id) && SameChain(k', k'', id);
    }
  }

  lemma PreparedElsewhere(k: Kernel, k': Kernel, f: Family, kind: Kind, w: Variant, s: Site)
    requires SameOutside(k, k', f, kind, w) && s != Site(f, kind) && Prepared(k, w, s.family, s.kind)
    ensures Prepared(k', w, s.family, s.kind)
  {
    hide RulePrefix;
    assert SameChain(k, k', GenId(s.family, s.kind, w)) && SameChain(k, k', ParentId(s.family, s.kind));
  }

  lemma HooksElsewhere(k: Kernel, k': Kernel, f: Family, kind: Kind, w: Variant, s: Site)
    requires SameOutside(k, k', f, kind, w) && s != Site(f, kind)
    ensures SameChain(k, k', ParentId(s.family, s.kind)) && SameChain(k, k', RootId(s.family, s.kind))
  {
    hide RulePrefix;
  }

  lemma ParentsStay(k: Kernel, k': Kernel, f: Family, kind: Kind, w: Variant)
    requires ParentsExist(k) && SameOutside(k, k', f, kind, w) && ParentId(f, kind) in k'.chains
    ensures ParentsExist(k')
  {
    hide PrepTouches;
    forall f': Family, kind': Kind ensures ParentId(f', kind') in k'.chains {
      if Site(f', kind') != Site(f, kind) { HooksElsewhere(k, k', f, kind, w, Site(f', kind')); }
      assert ParentId(f', kind') in k.chains;
    }
  }

  lemma PreparedHasParent(k: Kernel, w: Variant, f: Family, kind: Kind)
    requires Prepared(k, w, f, kind)
    ensures ParentId(f, kind) in k.chains
  {
  }

  method PrepareAll(host: Host, w: Variant) returns (ok: bool)
    requires host.Valid()
    modifies host
    ensures host.Valid()
    ensures old(host.log) <= host.log && QuietRange(host.log, |old(host.log)|, w) && ClearFrom(host.log, |old(host.log)|)
    ensures ok ==> forall f: Family, kind: Kind :: Prepared(host.kernel, w, f, kind)
    ensures SameSetsAndRules(old(host.kernel), host.kernel)
    ensures host.Flawless() && old(ParentsExist(host.kernel)) ==> ok && RootsExist(host.kernel)
  {
    hide Chained, QuietCmd, ClearCmd, Prepared, PrepTouches, ParentsExist;
    ghost var smooth := host.Flawless() && ParentsExist(host.kernel);
    for j := 0 to |SITES|
      invariant host.Valid() && old(host.log) <= host.log && QuietRange(host.log, |old(host.log)|, w)
      invariant ClearFrom(host.log, |old(host.log)|)
      invariant forall i :: 0 <= i < j ==> Prepared(host.kernel, w, SITES[i].family, SITES[i].kind)
      invariant SameSetsAndRules(old(host.kernel), host.kernel)
      invariant smooth ==> ParentsExist(host.kernel)
      invariant smooth ==> forall i :: 0 <= i < j ==> RootId(SITES[i].family, SITES[i].kind) in host.kernel.chains
    {
      ghost var k := host.kernel;
      if smooth { ParentExists(k, SITES[j].family, SITES[j].kind); }
      ok := PrepareGenerationChain(host, SITES[j].family, SITES[j].kind, w);
      if !ok { return; }
      PreparedHasParent(host.kernel, w, SITES[j].family, SITES[j].kind);
      if smooth { ParentsStay(k, host.kernel, SITES[j].family, SITES[j].kind, w); }
      forall i | 0 <= i < j
        ensures Prepared(host.kernel, w, SITES[i].family, SITES[i].kind)
        ensures SameChain(k, host.kernel, RootId(SITES[i].family, SITES[i].kind))
      {
        SitesDistinct(i, j);
        HooksElsewhere(k, host.kernel, SITES[j].family, SITES[j].kind, w, SITES[i]);
        PreparedElsewhere(k, host.kernel, SITES[j].family, SITES[j].kind, w, SITES[i]);
      }
    }
    ok := true;
    forall f: Family, kind: Kind
      ensures Prepared(host.kernel, w, f, kind) && (smooth ==> RootId(f, kind) in host.kernel.chains)
    {
      var i := SiteIndex(Site(f, kind));
    }
  }

  lemma ParentExists(k: Kernel, f: Family, kind: Kind)
    requires ParentsExist(k)
    ensures ParentId(f, kind) in k.chains
  {
  }

  // ---- Filling the generation -----------------------------------------------

  /** The first `n` bindings are in place in generation `w`; no clamp rule is yet. */
  ghost predicate Progress(k: Kernel, w: Variant, bs: seq<RouteBinding>, n: nat)
    requires n <= |bs|
  {
    && MarksBuilt(k, w, bs, n)
    && (forall f: Family :: ChainIs(k, GenId(f, NatKind, w), NatRules(bs[..n])))
    && (forall f: Family :: ChainIs(k, GenId(f, MssKind, w), []))
  }

  /** Only chains of generation `w` differ. */
  ghost predicate SameUnowned(k: Kernel, k': Kernel, w: Variant) {
    SameSetsAndRules(k, k') && forall id :: !Owned(w, id) ==> SameChain(k, k', id)
  }

  lemma SameUnownedTransitive(k: Kernel, k': Kernel, k'': Kernel, w: Variant)
    requires SameUnowned(k, k', w) && SameUnowned(k', k'', w)
    ensures SameUnowned(k, k'', w)
  {
    hide Owned;
    forall id | !Owned(w, id)
      ensures SameChain(k, k'', id)
    {
      assert SameChain(k, k', id) && SameChain(k', k'', id);
    }
  }

  lemma SameButOwned(k: Kernel, k': Kernel, ids: set<ChainId>, w: Variant)
    requires SameBut(k, k', ids) && forall id :: id in ids ==> Owned(w, id)
    ensures SameUnowned(k, k', w)
  {
    hide Owned;
  }

  lemma {:induction false} MarkBuiltFrame(k: Kernel, k': Kernel, w: Variant, bs: seq<RouteBinding>, n: nat, f: Family,
                                          ids: set<ChainId>)
    requires n <= |bs| && MarkBuilt(k, w, bs, n, f) && SameBut(k, k', ids)
    requires MarkGenId(w, f) !in ids && forall i :: 0 <= i < n ==> RuleChainId(w, i, f) !in ids
    ensures MarkBuilt(k', w, bs, n, f)
  {
    hide Compiled, JumpRules;
    assert SameChain(k, k', MarkGenId(w, f));
    forall i | 0 <= i < n
      ensures ChainIs(k', RuleChainId(w, i, f), Compiled(bs[i], f))
    {
      assert SameChain(k, k', RuleChainId(w, i, f));
    }
  }

  lemma MarkBuiltNext(k: Kernel, k': Kernel, w: Variant, bs: seq<RouteBinding>, n: nat, f: Family)
    requires n < |bs| && MarkBuilt(k, w, bs, n, f)
    requires SameBut(k, k', {RuleChainId(w, n, f), MarkGenId(w, f)})
    requires ChainIs(k', RuleChainId(w, n, f), Compiled(bs[n], f))
    requires ChainIs(k', MarkGenId(w, f), k.chains[MarkGenId(w, f)] + [JumpTo(RuleChain(w, n, f))])
    ensures MarkBuilt(k', w, bs, n + 1, f)
  {
    hide Compiled;
    forall i | 0 <= i < n
      ensures ChainIs(k', RuleChainId(w, i, f), Compiled(bs[i], f))
    {
      assert SameChain(k, k', RuleChainId(w, i, f));
    }
  }

  /** The generation chains of the other two hooks are the same. */
  ghost predicate SameOtherGens(k: Kernel, k': Kernel, w: Variant) {
    forall f: Family :: SameChain(k, k', GenId(f, NatKind, w)) && SameChain(k, k', GenId(f, MssKind, w))
  }

  ghost predicate MarksBuilt(k: Kernel, w: Variant, bs: seq<RouteBinding>, n: nat)
    requires n <= |bs|
  {
    forall f: Family :: MarkBuilt(k, w, bs, n, f)
  }

  method AddMarkRules(host: Host, w: Variant, bs: seq<RouteBinding>, n: nat) returns (ok: bool)
    requires host.Valid() && n < |bs|
    requires MarksBuilt(host.kernel, w, bs, n)
    modifies host
    ensures host.Valid()
    ensures old(host.log) <= host.log && QuietRange(host.log, |old(host.log)|, w)
    ensures SameUnowned(old(host.kernel), host.kernel, w)
    ensures SameOtherGens(old(host.kernel), host.kernel, w)
    ensures ok ==> MarksBuilt(host.kernel, w, bs, n + 1)
    ensures ok ==> Named(bs[n])
    ensures host.Flawless() && Named(bs[n]) ==> ok
  {
    hide Chained, Compiled, MarkBuilt, Ran;
    ghost var ids4, ids6 := {RuleChainId(w, n, V4), MarkGenId(w, V4)}, {RuleChainId(w, n, V6), MarkGenId(w, V6)};
    var b := bs[n];
    ok := NamesPresent(b);
    if !ok { SameUnownedItself(host.kernel, w); return; }
    ghost var k0 := host.kernel;
    MarkBuiltHasGen(k0, w, bs, n, V4);
    ok := AddMarkRulesByFamily(host, V4, w, b, n);
    ghost var k1 := host.kernel;
    SameButOwned(k0, k1, ids4, w);
    if !ok { return; }
    MarkBuiltNext(k0, k1, w, bs, n, V4);
    MarkBuiltFrame(k0, k1, w, bs, n, V6, ids4);
    MarkBuiltHasGen(k1, w, bs, n, V6);
    ok := AddMarkRulesByFamily(host, V6, w, b, n);
    SameButOwned(k1, host.kernel, ids6, w);
    SameUnownedTransitive(k0, k1, host.kernel, w);
    assert SameOtherGens(k0, k1, w) && SameOtherGens(k1, host.kernel, w);
    if !ok { return; }
    MarkBuiltNext(k1, host.kernel, w, bs, n, V6);
    MarkBuiltFrame(k1, host.kernel, w, bs, n + 1, V4, ids6);
    BothFamilies(host.kernel, w, bs, n + 1);
  }

  lemma BothFamilies(k: Kernel, w: Variant, bs: seq<RouteBinding>, n: nat)
    requires n <= |bs| && MarkBuilt(k, w, bs, n, V4) && MarkBuilt(k, w, bs, n, V6)
    ensures MarksBuilt(k, w, bs, n)
  {
    hide MarkBuilt;
    forall f: Family
      ensures MarkBuilt(k, w, bs, n, f)
    {
      assert f.V4? || f.V6?;
    }
  }

  lemma MarkBuiltHasGen(k: Kernel, w: Variant, bs: seq<RouteBinding>, n: nat, f: Family)
    requires n <= |bs| && MarkBuilt(k, w, bs, n, f)
    ensures MarkGenId(w, f) in k.chains
  {
  }

  lemma SameUnownedItself(k: Kernel, w: Variant)
    ensures SameUnowned(k, k, w)
  {
  }

  predicate Blank(s: string) {
    TrimSpace(s) == ""
  }

  predicate PairBlank(p: SetPair) {
    Blank(p.v4) || Blank(p.v6)
  }

  /** The binding names every set it uses. */
  predicate Named(b: RouteBinding) {
    && !(b.hasSource && PairBlank(b.source)) && !(b.hasExcludedSource && PairBlank(b.excludedSource))
    && !(b.hasDestination && PairBlank(b.destination)) && !(b.hasExcludedDestination && PairBlank(b.excludedDestination))
  }

  method NamesPresent(b: RouteBinding) returns (ok: bool)
    ensures ok <==> Named(b)
  {
    ok := false;
    if b.hasSource && PairBlank(b.source) { return; }
    if b.hasExcludedSource && PairBlank(b.excludedSource) { return; }
    if b.hasDestination && PairBlank(b.destination) { return; }
    if b.hasExcludedDestination && PairBlank(b.excludedDestination) { return; }
    ok := true;
  }

  /** Adds the masquerading rule of binding `n` in both families unless an earlier binding did. */
  method AddNatRules(host: Host, w: Variant, bs: seq<RouteBinding>, n: nat, seen: set<(nat, string)>)
    returns (ok: bool)
    requires host.Valid() && n < |bs|
    requires Seen(seen, bs, n)
    requires forall f: Family :: ChainIs(host.kernel, GenId(f, NatKind, w), NatRules(bs[..n]))
    modifies host
    ensures host.Valid()
    ensures old(host.log) <= host.log && QuietRange(host.log, |old(host.log)|, w)
    ensures SameBut(old(host.kernel), host.kernel, {GenId(V4, NatKind, w), GenId(V6, NatKind, w)})
    ensures ok ==> forall f: Family :: ChainIs(host.kernel, GenId(f, NatKind, w), NatRules(bs[..n + 1]))
    ensures host.Flawless() ==> ok
  {
    hide Chained, Ran, NatRules, NatRule;
    var b := bs[n];
    NatRulesNext(bs, n);
    assert (b.mark, b.iface) in seen <==> NatSeen(bs[..n], b);
    ok := true;
    ghost var k0, id4, id6 := host.kernel, GenId(V4, NatKind, w), GenId(V6, NatKind, w);
    if (b.mark, b.iface) in seen {
      assert NatRules(bs[..n]) + [] == NatRules(bs[..n]);
      return;
    }
    ok := Append(host, GenId(V4, NatKind, w), NatRule(b));
    ghost var k1 := host.kernel;
    SameButItself(k1);
    SameButTransitive(k0, k1, k1, {id4}, {}, {id4, id6});
    if !ok { return; }
    assert SameChain(k0, k1, id6) by { SameButElsewhere(k0, k1, {id4}, id6); }
    ok := Append(host, GenId(V6, NatKind, w), NatRule(b));
    SameButTransitive(k0, k1, host.kernel, {id4}, {id6}, {id4, id6});
    assert SameChain(k1, host.kernel, id4) by { SameButElsewhere(k1, host.kernel, {id6}, id4); }
    if ok {
      forall f: Family
        ensures ChainIs(host.kernel, GenId(f, NatKind, w), NatRules(bs[..n + 1]))
      {
        assert f.V4? || f.V6?;
      }
    }
  }

  lemma NatRulesNext(bs: seq<RouteBinding>, n: nat)
    requires n < |bs|
    ensures NatRules(bs[..n + 1]) == NatRules(bs[..n]) + (if NatSeen(bs[..n], bs[n]) then [] else [NatRule(bs[n])])
  {
    assert bs[..n + 1][..n] == bs[..n] && bs[..n + 1][n] == bs[n];
  }

  // ---- Validation -----------------------------------------------------------

  /** The table of each mark; bindings that share a mark must share the table. */
  function DesiredTables(bs: seq<RouteBinding>): map<nat, int> {
    if bs == [] then map[] else DesiredTables(bs[..|bs| - 1])[bs[|bs| - 1].mark := bs[|bs| - 1].routeTable]
  }

  /** A binding that can be installed on its own. */
  predicate BindingOk(b: RouteBinding) {
    b.mark >= 200 && b.routeTable >= 200 && !Blank(b.iface) && Named(b)
  }

  /** Bindings that can be installed together: those that share a mark share the table. */
  ghost predicate Acceptable(bs: seq<RouteBinding>) {
    && (forall i :: 0 <= i < |bs| ==> BindingOk(bs[i]))
    && (forall i, j :: 0 <= i < |bs| && 0 <= j < |bs| && bs[i].mark == bs[j].mark ==> bs[i].routeTable == bs[j].routeTable)
  }

  datatype BuildResult = BuildFailed | BuildDone(desired: map<nat, int>, clamps: map<string, ClampPair>)

  /** The pairs of mark and interface of the first `n` bindings. */
  ghost predicate Seen(seen: set<(nat, string)>, bs: seq<RouteBinding>, n: nat)
    requires n <= |bs|
  {
    forall m, i :: (m, i) in seen <==> exists j :: 0 <= j < n && bs[j].mark == m && bs[j].iface == i
  }

  method AddBinding(host: Host, w: Variant, bs: seq<RouteBinding>, n: nat, seen: set<(nat, string)>) returns (ok: bool)
    requires host.Valid() && n < |bs| && Progress(host.kernel, w, bs, n) && Seen(seen, bs, n)
    modifies host
    ensures host.Valid()
    ensures old(host.log) <= host.log && QuietRange(host.log, |old(host.log)|, w)
    ensures SameUnowned(old(host.kernel), host.kernel, w)
    ensures ok ==> Progress(host.kernel, w, bs, n + 1)
    ensures ok ==> Named(bs[n])
    ensures host.Flawless() && Named(bs[n]) ==> ok
  {
    hide Chained, MarkBuilt, NatRules, Owned, Ran, SameUnowned, QuietCmd;
    ghost var nats := {GenId(V4, NatKind, w), GenId(V6, NatKind, w)};
    ghost var k1 := host.kernel;
    ok := AddMarkRules(host, w, bs, n);
    ghost var k2 := host.kernel;
    if !ok { return; }
    assert forall f: Family :: SameChain(k1, k2, GenId(f, NatKind, w)) && SameChain(k1, k2, GenId(f, MssKind, w));
    ok := AddNatRules(host, w, bs, n, seen);
    NatGensOwned(w);
    SameButOwned(k2, host.kernel, nats, w);
    SameUnownedTransitive(k1, k2, host.kernel, w);
    if !ok { return; }
    MarkBuiltFrame(k2, host.kernel, w, bs, n + 1, V4, nats);
    MarkBuiltFrame(k2, host.kernel, w, bs, n + 1, V6, nats);
    BothFamilies(host.kernel, w, bs, n + 1);
    assert forall f: Family :: SameChain(k2, host.kernel, GenId(f, MssKind, w));
  }

  lemma TablesNext(bs: seq<RouteBinding>, n: nat)
    requires n < |bs|
    ensures DesiredTables(bs[..n + 1]) == DesiredTables(bs[..n])[bs[n].mark := bs[n].routeTable]
    ensures ClampMap(bs[..n + 1]) ==
      if Clamps(bs[n]) then ClampMap(bs[..n])[bs[n].iface := ClampPair(bs[n].clampV4, bs[n].clampV6)] else ClampMap(bs[..n])
  {
    assert bs[..n + 1][..n] == bs[..n] && bs[..n + 1][n] == bs[n];
  }

  /** The loop over the sorted bindings. */
  method AddBindings(host: Host, w: Variant, bs: seq<RouteBinding>) returns (r: BuildResult)
    requires host.Valid() && Progress(host.kernel, w, bs, 0)
    modifies host
    ensures host.Valid()
    ensures old(host.log) <= host.log && QuietRange(host.log, |old(host.log)|, w)
    ensures SameUnowned(old(host.kernel), host.kernel, w)
    ensures r.BuildDone? ==> Progress(host.kernel, w, bs, |bs|)
    ensures r.BuildDone? ==> r.desired == DesiredTables(bs) && DesiredManaged(r.desired) && r.clamps == ClampMap(bs)
    ensures r.BuildDone? ==> Acceptable(bs)
    ensures host.Flawless() && Acceptable(bs) ==> r.BuildDone?
  {
    hide Chained, Progress, Ran, SameUnowned, Blank, Named, QuietCmd, Clamps, Acceptable, Gathered, DesiredTables, ClampMap, DesiredManaged;
    var desired: map<nat, int>, clamps := map[], map[];
    var seen: set<(nat, string)> := {};
    ghost var k0 := host.kernel;
    SameUnownedItself(k0, w);
    NothingGathered(bs);
    for n := 0 to |bs|
      invariant host.Valid() && old(host.log) <= host.log && QuietRange(host.log, |old(host.log)|, w)
      invariant SameUnowned(k0, host.kernel, w) && Progress(host.kernel, w, bs, n)
      invariant Gathered(desired, clamps, seen, bs, n)
    {
      var b := bs[n];
      GatheredSoFar(desired, clamps, seen, bs, n);
      if Acceptable(bs) { AcceptableAt(desired, bs, n); }
      if b.mark < 200 || b.routeTable < 200 || Blank(b.iface) {
        return BuildFailed;
      }
      if b.mark in desired && desired[b.mark] != b.routeTable {
        return BuildFailed;
      }
      ghost var k1 := host.kernel;
      var ok := AddBinding(host, w, bs, n, seen);
      SameUnownedTransitive(k0, k1, host.kernel, w);
      if !ok { return BuildFailed; }
      GatheredNext(desired, clamps, seen, bs, n);
      desired := desired[b.mark := b.routeTable];
      if Clamps(b) {
        clamps := clamps[b.iface := ClampPair(b.clampV4, b.clampV6)];
      }
      seen := seen + {(b.mark, b.iface)};
    }
    AllGathered(desired, clamps, seen, bs);
    r := BuildDone(desired, clamps);
  }

  /** What the loop knows after `n` bindings. */
  ghost predicate Gathered(desired: map<nat, int>, clamps: map<string, ClampPair>, seen: set<(nat, string)>, bs: seq<RouteBinding>, n: nat)
    requires n <= |bs|
  {
    && desired == DesiredTables(bs[..n]) && DesiredManaged(desired) && clamps == ClampMap(bs[..n])
    && Seen(seen, bs, n) && TablesSeen(desired, bs, n)
    && (forall i :: 0 <= i < n ==> BindingOk(bs[i]))
  }

  lemma NothingGathered(bs: seq<RouteBinding>)
    ensures Gathered(map[], map[], {}, bs, 0)
  {
  }

  lemma GatheredSoFar(desired: map<nat, int>, clamps: map<string, ClampPair>, seen: set<(nat, string)>, bs: seq<RouteBinding>, n: nat)
    requires n <= |bs| && Gathered(desired, clamps, seen, bs, n)
    ensures Seen(seen, bs, n) && TablesSeen(desired, bs, n)
  {
  }

  lemma GatheredNext(desired: map<nat, int>, clamps: map<string, ClampPair>, seen: set<(nat, string)>, bs: seq<RouteBinding>, n: nat)
    requires n < |bs| && Gathered(desired, clamps, seen, bs, n) && BindingOk(bs[n])
    requires bs[n].mark in desired ==> desired[bs[n].mark] == bs[n].routeTable
    ensures Gathered(desired[bs[n].mark := bs[n].routeTable],
                     if Clamps(bs[n]) then clamps[bs[n].iface := ClampPair(bs[n].clampV4, bs[n].clampV6)] else clamps,
                     seen + {(bs[n].mark, bs[n].iface)}, bs, n + 1)
  {
    hide TablesSeen, DesiredTables, ClampMap, Clamps, Blank, Named;
    TablesNext(bs, n);
    TablesSeenNext(desired, bs, n);
  }

  lemma AllGathered(desired: map<nat, int>, clamps: map<string, ClampPair>, seen: set<(nat, string)>, bs: seq<RouteBinding>)
    requires Gathered(desired, clamps, seen, bs, |bs|)
    ensures desired == DesiredTables(bs) && DesiredManaged(desired) && clamps == ClampMap(bs) && Acceptable(bs)
  {
    hide BindingOk, DesiredTables, ClampMap, Seen;
    assert bs[..|bs|] == bs;
  }

  /** The tables of the first `n` bindings by their marks. */
  ghost predicate TablesSeen(desired: map<nat, int>, bs: seq<RouteBinding>, n: nat)
    requires n <= |bs|
  {
    && (forall j :: 0 <= j < n ==> bs[j].mark in desired && desired[bs[j].mark] == bs[j].routeTable)
    && (forall m :: m in desired ==> exists j :: 0 <= j < n && bs[j].mark == m)
  }

  lemma TablesSeenNext(desired: map<nat, int>, bs: seq<RouteBinding>, n: nat)
    requires n < |bs| && TablesSeen(desired, bs, n)
    requires bs[n].mark in desired ==> desired[bs[n].mark] == bs[n].routeTable
    ensures TablesSeen(desired[bs[n].mark := bs[n].routeTable], bs, n + 1)
  {
  }

  lemma AcceptableAt(desired: map<nat, int>, bs: seq<RouteBinding>, n: nat)
    requires n < |bs| && Acceptable(bs) && TablesSeen(desired, bs, n)
    ensures BindingOk(bs[n]) && (bs[n].mark in desired ==> desired[bs[n].mark] == bs[n].routeTable)
  {
    hide BindingOk;
    if bs[n].mark in desired {
      var j :| 0 <= j < n && bs[j].mark == bs[n].mark;
    }
  }

  lemma NatGensOwned(w: Variant)
    ensures forall id :: id in {GenId(V4, NatKind, w), GenId(V6, NatKind, w)} ==> Owned(w, id)
  {
  }
}
