/** Taking the rules down: unlinking the roots and removing all chains and policy rules. */
module Takedown {
  import opened Netfilter
  import opened Hosts
  import opened MarkCompiler
  import opened Rulesets
  import opened IpRulesSync
  import opened Generations
  import opened SetReferences

  /** Commands that only remove links, rules and chains. */
  predicate ShrinkCmd(cmd: Cmd) {
    || ((cmd.FlushChain? || cmd.DeleteChain?) && !cmd.id.chain.Parent?)
    || (cmd.DeleteRule? && cmd.id.chain.Parent?)
    || cmd.DelIpRule?
  }

  ghost predicate ShrinkFrom(log: seq<Step>, n: nat) {
    forall i :: n <= i < |log| ==> ShrinkCmd(log[i].cmd)
  }

  /** Every chain of `k` is a chain of `k0` with at most the rules it had there. */
  ghost predicate Shrunk(k0: Kernel, k: Kernel) {
    k.sets == k0.sets && forall id :: id in k.chains ==> id in k0.chains && forall r :: r in k.chains[id] ==> r in k0.chains[id]
  }

  lemma {:induction false} RemoveFirstShrinks(rules: seq<Rule>, rule: Rule)
    ensures forall r :: r in RemoveFirst(rules, rule) ==> r in rules
    ensures multiset(RemoveFirst(rules, rule)) == multiset(rules) - multiset{rule}
  {
    if rules != [] {
      assert rules == [rules[0]] + rules[1..];
      if rules[0] != rule {
        RemoveFirstShrinks(rules[1..], rule);
        assert multiset(RemoveFirst(rules, rule)) == multiset{rules[0]} + multiset(RemoveFirst(rules[1..], rule));
      }
    }
  }

  lemma ShrinkStep(k0: Kernel, s: Step)
    requires Shrunk(k0, s.before) && Ran(s) && ShrinkCmd(s.cmd)
    ensures Shrunk(k0, s.after)
  {
    if s.ok && s.cmd.DeleteRule? {
      RemoveFirstShrinks(s.before.chains[s.cmd.id], s.cmd.rule);
    }
  }

  lemma {:induction false} ShrunkReach(k0: Kernel, k: Kernel, a: ChainId, b: ChainId, n: nat)
    requires Shrunk(k0, k) && Reaches(k, a, b, n)
    ensures Reaches(k0, a, b, n)
    decreases n
  {
    if n > 0 {
      var c :| JumpsFrom(k, a, c) && Reaches(k, c, b, n - 1);
      ShrunkReach(k0, k, c, b, n - 1);
      var i :| 0 <= i < |k.chains[a]| && k.chains[a][i].target == Jump(c.chain);
      assert k.chains[a][i] in k0.chains[a];
      assert JumpsFrom(k0, a, c);
    }
  }

  /** Removing rules and chains never makes a reference dangle. */
  lemma ShrunkNeverDangles(k0: Kernel, k: Kernel)
    requires Shrunk(k0, k) && NoDangling(k0)
    ensures NoDangling(k)
  {
    hide Reaches, NamesSet;
    forall f: Family, kind: Kind, id: ChainId, n: nat | Reaches(k, ParentId(f, kind), id, n)
      ensures SetsExist(k, id)
    {
      ShrunkReach(k0, k, ParentId(f, kind), id, n);
      assert SetsExist(k0, id);
      if id in k.chains {
        forall i, name | 0 <= i < |k.chains[id]| && NamesSet(k.chains[id][i], name)
          ensures name in k.sets
        {
          assert k.chains[id][i] in k0.chains[id];
          var j :| 0 <= j < |k0.chains[id]| && k0.chains[id][j] == k.chains[id][i];
        }
      }
    }
  }

  lemma ShrunkForeignOk(k0: Kernel, k: Kernel)
    requires Shrunk(k0, k) && ForeignOk(k0)
    ensures ForeignOk(k)
  {
    hide NamesSet;
    forall id: ChainId, i: nat | id in k.chains && IsForeign(id) && i < |k.chains[id]|
      ensures ForeignRuleOk(k, id, k.chains[id][i])
    {
      assert k.chains[id][i] in k0.chains[id];
      var j: nat :| j < |k0.chains[id]| && k0.chains[id][j] == k.chains[id][i];
      assert ForeignRuleOk(k0, id, k0.chains[id][j]);
    }
  }

  lemma {:induction false} ShrinkRun(start: Kernel, log: seq<Step>, n: nat, m: nat, k: Kernel)
    requires n <= m <= |log| && Chained(start, log, k) && ShrinkFrom(log, n)
    ensures Shrunk(StateAt(start, log, n), StateAt(start, log, m))
    decreases m
  {
    hide Shrunk, ShrinkCmd, Chained, Ran;
    if m == n {
      ShrunkItself(StateAt(start, log, n));
    } else {
      ShrinkRun(start, log, n, m - 1, k);
      ChainedAt(start, log, k, m - 1);
      ShrinkStep(StateAt(start, log, n), log[m - 1]);
    }
  }

  lemma ShrunkItself(k: Kernel)
    ensures Shrunk(k, k)
  {
  }

  lemma ShrinkIsSafe(start: Kernel, log0: seq<Step>, k0: Kernel, log: seq<Step>, k: Kernel)
    requires Chained(start, log0, k0) && Chained(start, log, k) && log0 <= log
    requires NoDangling(k0) && ShrinkFrom(log, |log0|)
    ensures SafeSteps(log, |log0|) && Shrunk(k0, k)
  {
    hide NoDangling, Shrunk, ShrinkCmd, Chained, Ran;
    var n := |log0|;
    LogStates(start, log0, k0, log, k);
    ShrinkRun(start, log, n, |log|, k);
    forall i | n <= i < |log|
      ensures NoDangling(log[i].before) && NoDangling(log[i].after)
    {
      ChainedAt(start, log, k, i);
      ShrinkRun(start, log, n, i, k);
      ShrinkRun(start, log, n, i + 1, k);
      ShrunkNeverDangles(k0, log[i].before);
      ShrunkNeverDangles(k0, log[i].after);
    }
  }

  /** The number of links from a built-in chain to its root. */
  function Links(k: Kernel, f: Family, kind: Kind): nat {
    if ParentId(f, kind) in k.chains then multiset(k.chains[ParentId(f, kind)])[JumpTo(Root(kind))] else 0
  }

  /** Deletes the links to a root, at most 64 times. */
  method DeleteLinks(host: Host, f: Family, kind: Kind)
    requires host.Valid()
    modifies host
    ensures host.Valid() && old(host.log) <= host.log && ShrinkFrom(host.log, |old(host.log)|)
    ensures Links(host.kernel, f, kind) == CopiesLeft(old(Links(host.kernel, f, kind)))
    ensures SameIpRules(old(host.kernel), host.kernel)
  {
    hide Chained;
    ghost var n := Links(host.kernel, f, kind);
    for i := 0 to DELETE_LIMIT
      invariant host.Valid() && old(host.log) <= host.log && ShrinkFrom(host.log, |old(host.log)|)
      invariant n >= i && Links(host.kernel, f, kind) == n - i
      invariant SameIpRules(old(host.kernel), host.kernel)
    {
      ghost var before := host.kernel;
      var ok := host.Run(DeleteRule(ParentId(f, kind), JumpTo(Root(kind))));
      if !ok {
        return;
      }
      RemoveFirstShrinks(before.chains[ParentId(f, kind)], JumpTo(Root(kind)));
    }
  }

  predicate SameIpRules(k: Kernel, k': Kernel) {
    k'.ipRules4 == k.ipRules4 && k'.ipRules6 == k.ipRules6
  }

  method CleanupChain(host: Host, id: ChainId)
    requires host.Valid() && !id.chain.Parent?
    modifies host
    ensures host.Valid() && old(host.log) <= host.log && ShrinkFrom(host.log, |old(host.log)|)
    ensures SameIpRules(old(host.kernel), host.kernel)
    ensures host.Flawless() ==> id !in host.kernel.chains
  {
    hide Chained;
    var _ := host.Run(FlushChain(id));
    var _ := host.Run(DeleteChain(id));
  }

  lemma ShrinkJoin(log1: seq<Step>, log2: seq<Step>, n: nat)
    requires n <= |log1| && log1 <= log2 && ShrinkFrom(log1, n) && ShrinkFrom(log2, |log1|)
    ensures ShrinkFrom(log2, n)
  {
    hide ShrinkCmd;
    forall i | n <= i < |log2|
      ensures ShrinkCmd(log2[i].cmd)
    {
      if i < |log1| { assert log2[i] == log1[i]; }
    }
  }

  lemma LinksShrink(k0: Kernel, k: Kernel, f: Family, kind: Kind)
    requires Shrunk(k0, k) && Links(k0, f, kind) == 0
    ensures Links(k, f, kind) == 0
  {
    var id, link := ParentId(f, kind), JumpTo(Root(kind));
    if id in k.chains {
      assert link !in multiset(k0.chains[id]) && link !in k0.chains[id];
      assert link !in k.chains[id];
    }
  }

  lemma ChainShrinks(s: Step, id: ChainId)
    requires Ran(s) && ShrinkCmd(s.cmd) && id in s.after.chains
    ensures id in s.before.chains && multiset(s.after.chains[id]) <= multiset(s.before.chains[id])
  {
    if s.ok && s.cmd.DeleteRule? {
      RemoveFirstShrinks(s.before.chains[s.cmd.id], s.cmd.rule);
    }
  }

  lemma LinksStep(s: Step, f: Family, kind: Kind)
    requires Ran(s) && ShrinkCmd(s.cmd)
    ensures Links(s.after, f, kind) <= Links(s.before, f, kind)
  {
    hide Ran, ShrinkCmd;
    if ParentId(f, kind) in s.after.chains {
      ChainShrinks(s, ParentId(f, kind));
    }
  }

  lemma {:induction false} LinksMonotone(start: Kernel, log0: seq<Step>, k0: Kernel, log: seq<Step>, k: Kernel, f: Family, kind: Kind)
    requires Chained(start, log0, k0) && Chained(start, log, k) && log0 <= log && ShrinkFrom(log, |log0|)
    ensures Links(k, f, kind) <= Links(k0, f, kind)
  {
    hide Chained, Links, ShrinkCmd, Ran;
    LogStates(start, log0, k0, log, k);
    for m := |log0| to |log|
      invariant Links(StateAt(start, log, m), f, kind) <= Links(k0, f, kind)
    {
      ChainedAt(start, log, k, m);
      LinksStep(log[m], f, kind);
    }
  }

  /** No built-in chain links a root. */
  ghost predicate Unlinked(k: Kernel) {
    forall f: Family, kind: Kind :: Links(k, f, kind) == 0
  }

  ghost predicate FewLinks(k: Kernel) {
    forall f: Family, kind: Kind :: Links(k, f, kind) <= DELETE_LIMIT
  }

  lemma ShrunkSince(start: Kernel, log0: seq<Step>, k0: Kernel, log: seq<Step>, k: Kernel)
    requires Chained(start, log0, k0) && Chained(start, log, k) && log0 <= log && ShrinkFrom(log, |log0|)
    ensures Shrunk(k0, k)
  {
    hide Shrunk, ShrinkCmd, Chained;
    LogStates(start, log0, k0, log, k);
    ShrinkRun(start, log, |log0|, |log|, k);
  }

  /** One root: its links go, then its rules, then the chain. */
  method RemoveRoot(host: Host, s: Site)
    requires host.Valid()
    modifies host
    ensures host.Valid() && old(host.log) <= host.log && ShrinkFrom(host.log, |old(host.log)|)
    ensures SameIpRules(old(host.kernel), host.kernel) && Shrunk(old(host.kernel), host.kernel)
    ensures old(Links(host.kernel, s.family, s.kind)) <= DELETE_LIMIT ==> Links(host.kernel, s.family, s.kind) == 0
    ensures host.Flawless() ==> RootId(s.family, s.kind) !in host.kernel.chains
  {
    hide Chained, ShrinkCmd, Links, Shrunk, Ran;
    ghost var log0, k0 := host.log, host.kernel;
    DeleteLinks(host, s.family, s.kind);
    ghost var log1, k1 := host.log, host.kernel;
    CleanupChain(host, RootId(s.family, s.kind));
    ShrinkJoin(log1, host.log, |log0|);
    ShrunkSince(host.start, log0, k0, host.log, host.kernel);
    ShrunkSince(host.start, log1, k1, host.log, host.kernel);
    if Links(k1, s.family, s.kind) == 0 {
      LinksShrink(k1, host.kernel, s.family, s.kind);
    }
  }

  /** Unlinks and removes the six roots. */
  method RemoveRoots(host: Host)
    requires host.Valid()
    modifies host
    ensures host.Valid() && old(host.log) <= host.log && ShrinkFrom(host.log, |old(host.log)|)
    ensures SameIpRules(old(host.kernel), host.kernel)
    ensures old(FewLinks(host.kernel)) ==> Unlinked(host.kernel)
    ensures host.Flawless() ==> forall f: Family, kind: Kind :: RootId(f, kind) !in host.kernel.chains
  {
    hide Chained, ShrinkCmd, Links, Shrunk, Ran;
    ghost var few := FewLinks(host.kernel);
    ghost var log0, k0 := host.log, host.kernel;
    ShrunkItself(k0);
    for j := 0 to |SITES|
      invariant host.Valid() && log0 <= host.log && ShrinkFrom(host.log, |log0|)
      invariant SameIpRules(k0, host.kernel)
      invariant few ==> forall i :: 0 <= i < |SITES| ==> Links(host.kernel, SITES[i].family, SITES[i].kind) <= DELETE_LIMIT
      invariant few ==> forall i :: 0 <= i < j ==> Links(host.kernel, SITES[i].family, SITES[i].kind) == 0
      invariant host.Flawless() ==> forall i :: 0 <= i < j ==> RootId(SITES[i].family, SITES[i].kind) !in host.kernel.chains
    {
      ghost var k, log1 := host.kernel, host.log;
      RemoveRoot(host, SITES[j]);
      ShrinkJoin(log1, host.log, |log0|);
      ShrunkKeys(k, host.kernel);
      if few {
        forall i | 0 <= i < |SITES|
          ensures Links(host.kernel, SITES[i].family, SITES[i].kind) <= DELETE_LIMIT
          ensures i < j ==> Links(host.kernel, SITES[i].family, SITES[i].kind) == 0
        {
          LinksMonotone(host.start, log1, k, host.log, host.kernel, SITES[i].family, SITES[i].kind);
        }
      }
    }
    forall f: Family, kind: Kind
      ensures few ==> Links(host.kernel, f, kind) == 0
      ensures host.Flawless() ==> RootId(f, kind) !in host.kernel.chains
    {
      var i := SiteIndex(Site(f, kind));
    }
  }

  lemma ShrunkKeys(k0: Kernel, k: Kernel)
    requires Shrunk(k0, k)
    ensures k.chains.Keys <= k0.chains.Keys
  {
  }

  const GENERATIONS: seq<ChainId> :=
    [GenId(V4, MarkKind, A), GenId(V4, MarkKind, B), GenId(V4, MssKind, A), GenId(V4, MssKind, B),
     GenId(V4, NatKind, A), GenId(V4, NatKind, B),
     GenId(V6, MarkKind, A), GenId(V6, MarkKind, B), GenId(V6, MssKind, A), GenId(V6, MssKind, B),
     GenId(V6, NatKind, A), GenId(V6, NatKind, B)]

  lemma GenerationsAreOurs()
    ensures forall j :: 0 <= j < |GENERATIONS| ==> !GENERATIONS[j].chain.Parent?
  {
  }

  lemma GenerationListed(f: Family, kind: Kind, v: Variant)
    ensures GenId(f, kind, v) in GENERATIONS
  {
  }

  method RemoveGenerations(host: Host)
    requires host.Valid()
    modifies host
    ensures host.Valid() && old(host.log) <= host.log && ShrinkFrom(host.log, |old(host.log)|)
    ensures SameIpRules(old(host.kernel), host.kernel)
    ensures host.Flawless() ==> forall f: Family, kind: Kind, v: Variant :: GenId(f, kind, v) !in host.kernel.chains
  {
    hide Chained, ShrinkCmd, GENERATIONS, Shrunk;
    GenerationsAreOurs();
    for j := 0 to |GENERATIONS|
      invariant host.Valid() && old(host.log) <= host.log && ShrinkFrom(host.log, |old(host.log)|)
      invariant SameIpRules(old(host.kernel), host.kernel)
      invariant host.Flawless() ==> forall i :: 0 <= i < j ==> GENERATIONS[i] !in host.kernel.chains
    {
      ghost var log1, k := host.log, host.kernel;
      CleanupChain(host, GENERATIONS[j]);
      ShrunkSince(host.start, log1, k, host.log, host.kernel);
      ShrunkKeys(k, host.kernel);
      ShrinkJoin(log1, host.log, |old(host.log)|);
    }
    if host.Flawless() {
      forall f: Family, kind: Kind, v: Variant
        ensures GenId(f, kind, v) !in host.kernel.chains
      {
        GenerationListed(f, kind, v);
      }
    }
  }

  method RemoveRuleChains(host: Host, f: Family, w: Variant)
    requires host.Valid()
    modifies host
    ensures host.Valid() && old(host.log) <= host.log && ShrinkFrom(host.log, |old(host.log)|)
    ensures SameIpRules(old(host.kernel), host.kernel)
    ensures host.Flawless() ==> forall i: nat :: RuleChainId(w, i, f) !in host.kernel.chains
  {
    hide Chained, QuietCmd, ShrinkCmd, RulePrefix;
    CleanupRuleChains(host, f, w);
    QuietShrinks(host.log, |old(host.log)|, w);
    assert forall i: nat :: IsRuleChain(f, w, RuleChainId(w, i, f));
  }

  lemma QuietShrinks(log: seq<Step>, n: nat, w: Variant)
    requires QuietRange(log, n, w) && forall i :: n <= i < |log| ==> log[i].cmd.FlushChain? || log[i].cmd.DeleteChain?
    ensures ShrinkFrom(log, n)
  {
    hide RulePrefix;
  }

  /** Managed rules lose up to 64 copies, other rules none. */
  ghost predicate ManagedGone(k0: Kernel, k: Kernel, f: Family) {
    forall r :: IpRules(k, f)[r] == if Managed(r) then CopiesLeft(IpRules(k0, f)[r]) else IpRules(k0, f)[r]
  }

  method RemoveIpRules(host: Host, f: Family)
    requires host.Valid()
    modifies host
    ensures host.Valid() && old(host.log) <= host.log && ShrinkFrom(host.log, |old(host.log)|)
    ensures IpRules(host.kernel, OtherFamily(f)) == IpRules(old(host.kernel), OtherFamily(f))
    ensures host.listable ==> ManagedGone(old(host.kernel), host.kernel, f)
  {
    hide Chained, Ran, Managed, IpRules;
    FlushManaged(host, f);
  }

  method RemoveChains(host: Host)
    requires host.Valid()
    modifies host
    ensures host.Valid() && old(host.log) <= host.log && ShrinkFrom(host.log, |old(host.log)|)
    ensures SameIpRules(old(host.kernel), host.kernel)
    ensures host.Flawless() ==> GenerationsGone(host.kernel)
  {
    hide Chained, ShrinkCmd, Shrunk, RuleChainId, GenId;
    ghost var log1 := host.log;
    RemoveGenerations(host);
    ghost var log2, k2 := host.log, host.kernel;
    RemoveRuleChains(host, V4, A);
    ghost var log3, k3 := host.log, host.kernel;
    ShrinkJoin(log2, log3, |log1|);
    ShrunkSince(host.start, log2, k2, log3, k3);
    ShrunkKeys(k2, k3);
    RemoveRuleChains(host, V4, B);
    ghost var log4, k4 := host.log, host.kernel;
    ShrinkJoin(log3, log4, |log1|);
    ShrunkSince(host.start, log3, k3, log4, k4);
    ShrunkKeys(k3, k4);
    RemoveRuleChains(host, V6, A);
    ghost var log5, k5 := host.log, host.kernel;
    ShrinkJoin(log4, log5, |log1|);
    ShrunkSince(host.start, log4, k4, log5, k5);
    ShrunkKeys(k4, k5);
    RemoveRuleChains(host, V6, B);
    ShrinkJoin(log5, host.log, |log1|);
    ShrunkSince(host.start, log5, k5, host.log, host.kernel);
    ShrunkKeys(k5, host.kernel);
    if host.Flawless() { AllRuleChainsGone(host.kernel); }
  }

  /** No generation and no rule chain is left. */
  ghost predicate GenerationsGone(k: Kernel) {
    && (forall f: Family, kind: Kind, v: Variant :: GenId(f, kind, v) !in k.chains)
    && (forall f: Family, v: Variant, i: nat :: RuleChainId(v, i, f) !in k.chains)
  }

  ghost predicate ChainsGone(k: Kernel) {
    GenerationsGone(k) && forall f: Family, kind: Kind :: RootId(f, kind) !in k.chains
  }

  lemma AllRuleChainsGone(k: Kernel)
    requires forall f: Family, kind: Kind, v: Variant :: GenId(f, kind, v) !in k.chains
    requires forall i: nat :: RuleChainId(A, i, V4) !in k.chains && RuleChainId(B, i, V4) !in k.chains
    requires forall i: nat :: RuleChainId(A, i, V6) !in k.chains && RuleChainId(B, i, V6) !in k.chains
    ensures GenerationsGone(k)
  {
    forall f: Family, v: Variant, i: nat ensures RuleChainId(v, i, f) !in k.chains {
      assert (f == V4 || f == V6) && (v == A || v == B);
    }
  }

  /**
    Removes this application's chains and managed policy rules. Every step only
    shrinks the packet filter. Afterwards no built-in chain leads to a root, if there
    were few links, and the managed rules are gone up to 64 copies, if the rules could
    be listed. When nothing fails, no chain of this application is left.
   */
  method FlushRules(host: Host)
    requires host.Valid()
    modifies host
    ensures host.Valid() && old(host.log) <= host.log && ShrinkFrom(host.log, |old(host.log)|)
    ensures old(FewLinks(host.kernel)) ==> Unlinked(host.kernel)
    ensures host.listable ==> ManagedGone(old(host.kernel), host.kernel, V4) && ManagedGone(old(host.kernel), host.kernel, V6)
    ensures host.Flawless() ==> ChainsGone(host.kernel)
  {
    hide Chained, ShrinkCmd, FewLinks, Shrunk, Managed, Links, RuleChainId, GenId;
    ghost var log0, k0 := host.log, host.kernel;
    RemoveRoots(host);
    ghost var log1, k1 := host.log, host.kernel;
    RemoveChains(host);
    ghost var log2, k2 := host.log, host.kernel;
    RemoveIpRules(host, V4);
    ghost var log3 := host.log;
    ShrinkJoin(log2, log3, |log1|);
    RemoveIpRules(host, V6);
    ShrinkJoin(log3, host.log, |log2|);
    ShrinkJoin(log3, host.log, |log1|);
    ShrinkJoin(log1, host.log, |log0|);
    ShrunkSince(host.start, log1, k1, host.log, host.kernel);
    ShrunkSince(host.start, log2, k2, host.log, host.kernel);
    ShrunkKeys(k1, host.kernel);
    ShrunkKeys(k2, host.kernel);
    if Unlinked(k1) {
      forall f: Family, kind: Kind
        ensures Links(host.kernel, f, kind) == 0
      {
        LinksShrink(k1, host.kernel, f, kind);
      }
    }
  }

  // ---- After the takedown ---------------------------------------------------

  lemma {:induction false} UnlinkedReach(k: Kernel, a: ChainId, b: ChainId, n: nat)
    requires ForeignOk(k) && Unlinked(k) && IsForeign(a) && Reaches(k, a, b, n)
    ensures IsForeign(b)
    decreases n
  {
    hide NamesSet;
    if n > 0 {
      var c :| JumpsFrom(k, a, c) && Reaches(k, c, b, n - 1);
      var i: nat :| i < |k.chains[a]| && k.chains[a][i].target == Jump(c.chain);
      assert ForeignRuleOk(k, a, k.chains[a][i]);
      if IsRootLink(a, k.chains[a][i]) {
        assert a == ParentId(a.family, a.chain.kind) && Links(k, a.family, a.chain.kind) == 0;
        assert k.chains[a][i] in multiset(k.chains[a]);
      }
      UnlinkedReach(k, c, b, n - 1);
    }
  }

  lemma UnlinkedNeverDangles(k: Kernel)
    requires ForeignOk(k) && Unlinked(k)
    ensures NoDangling(k)
  {
    hide Reaches, NamesSet, Links;
    forall f: Family, kind: Kind, id: ChainId, n: nat | Reaches(k, ParentId(f, kind), id, n)
      ensures SetsExist(k, id)
    {
      UnlinkedReach(k, ParentId(f, kind), id, n);
      if id in k.chains {
        forall i, name | 0 <= i < |k.chains[id]| && NamesSet(k.chains[id][i], name)
          ensures name in k.sets
        {
          assert ForeignRuleOk(k, id, k.chains[id][i]);
        }
      }
    }
  }

  /** Once the roots are unlinked, all sets of this application may go. */
  lemma UnlinkedCleaningIsSafe(log: seq<Step>, n: nat, k0: Kernel)
    requires ForeignOk(k0) && Unlinked(k0) && CleaningSteps(log, n, k0, {})
    ensures SafeSteps(log, n)
  {
    hide ForeignOk, NoDangling, Links;
    forall i | n <= i < |log|
      ensures NoDangling(log[i].before) && NoDangling(log[i].after)
    {
      UnlinkedState(k0, log[i].before);
      UnlinkedState(k0, log[i].after);
    }
  }

  lemma UnlinkedSame(k: Kernel, k': Kernel)
    requires Unlinked(k) && CleaningState(k, k', {})
    ensures Unlinked(k')
  {
    forall f: Family, kind: Kind
      ensures Links(k', f, kind) == 0
    {
      assert Links(k, f, kind) == 0;
    }
  }

  lemma UnlinkedState(k0: Kernel, k: Kernel)
    requires ForeignOk(k0) && Unlinked(k0) && CleaningState(k0, k, {})
    ensures NoDangling(k)
  {
    hide ForeignOk, NoDangling;
    ForeignOkFrame(k0, k);
    UnlinkedSame(k0, k);
    UnlinkedNeverDangles(k);
  }
}
