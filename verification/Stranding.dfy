/**
  What a takedown leaves behind when some of its commands fail: a set may be destroyed
  while a chain that names it survives behind a root. This is the only way in which
  linking the roots again can make a reference dangle.
 */
module Stranding {
  import opened Netfilter
  import opened Bindings
  import opened MarkCompiler
  import opened Rulesets
  import opened Generations
  import opened Leftovers
  import opened HitlessUpdate
  import opened SetReferences
  import opened SafeUpdates
  import opened Takedown

  // ---- Reading a run --------------------------------------------------------

  predicate Clears(cmd: Cmd, id: ChainId) {
    cmd == FlushChain(id) || cmd == DeleteChain(id)
  }

  /** Neither a flush nor a deletion of the chain took effect from `n` to `m`. */
  ghost predicate Spared(log: seq<Step>, n: nat, m: nat, id: ChainId) {
    forall i :: n <= i < m && i < |log| && Clears(log[i].cmd, id) ==> !log[i].ok
  }

  ghost predicate Destroyed(log: seq<Step>, n: nat, m: nat, name: string) {
    exists i :: n <= i < m && i < |log| && log[i].cmd == DestroySet(name) && log[i].ok
  }

  predicate HasJump(k: Kernel, id: ChainId, c: Chain) {
    id in k.chains && JumpTo(c) in k.chains[id]
  }

  ghost predicate ChainNamesSet(k: Kernel, id: ChainId, name: string) {
    id in k.chains && exists r :: r in k.chains[id] && NamesSet(r, name)
  }

  /** The mark root leads through generation `v` to rule chain `i`, which names the set. */
  ghost predicate Leads(k: Kernel, f: Family, v: Variant, i: nat, name: string) {
    && HasJump(k, RootId(f, MarkKind), Gen(MarkKind, v))
    && HasJump(k, GenId(f, MarkKind, v), RuleChain(v, i, f))
    && ChainNamesSet(k, RuleChainId(v, i, f), name)
  }

  /** All three chains on the way to rule chain `i` survived. */
  ghost predicate PathSpared(log: seq<Step>, n: nat, m: nat, f: Family, v: Variant, i: nat) {
    && Spared(log, n, m, RootId(f, MarkKind)) && Spared(log, n, m, GenId(f, MarkKind, v))
    && Spared(log, n, m, RuleChainId(v, i, f))
  }

  /**
    From `n`, where the kernel was `k`, to `m`, some path to a rule that names a set was
    spared by every flush and deletion, while the set was destroyed.
   */
  ghost predicate Stranded(k: Kernel, log: seq<Step>, n: nat, m: nat) {
    exists f: Family, v: Variant, i: nat, name: string ::
      Leads(k, f, v, i, name) && PathSpared(log, n, m, f, v, i) && Destroyed(log, n, m, name)
  }

  /** The commands of a takedown. */
  ghost predicate TakesDown(log: seq<Step>, n: nat) {
    forall i :: n <= i < |log| ==> ShrinkCmd(log[i].cmd) || log[i].cmd.DestroySet?
  }

  // ---- What survives --------------------------------------------------------

  lemma ChainTaken(s: Step, id: ChainId)
    requires Ran(s) && (ShrinkCmd(s.cmd) || s.cmd.DestroySet?) && !id.chain.Parent?
    ensures if s.ok && Clears(s.cmd, id) then ChainIdle(s.after, id) else SameChain(s.before, s.after, id)
  {
  }

  lemma SparedNext(log: seq<Step>, n: nat, m: nat, id: ChainId)
    requires n <= m < |log|
    ensures Spared(log, n, m + 1, id) <==> Spared(log, n, m, id) && !(Clears(log[m].cmd, id) && log[m].ok)
  {
    hide Clears;
  }

  /** A chain that is spared stays as it was; otherwise it ends empty or absent. */
  lemma {:induction false} SparedRun(start: Kernel, log: seq<Step>, n: nat, m: nat, k: Kernel, id: ChainId)
    requires n <= m <= |log| && Chained(start, log, k) && TakesDown(log, n) && !id.chain.Parent?
    ensures if Spared(log, n, m, id) then SameChain(StateAt(start, log, n), StateAt(start, log, m), id)
            else ChainIdle(StateAt(start, log, m), id)
    decreases m
  {
    hide Chained, Ran, ShrinkCmd, Clears, Spared;
    if m > n {
      SparedRun(start, log, n, m - 1, k, id);
      ChainedAt(start, log, k, m - 1);
      ChainTaken(log[m - 1], id);
      SparedNext(log, n, m - 1, id);
    } else {
      SparedAtOnce(log, n, id);
    }
  }

  lemma SparedAtOnce(log: seq<Step>, n: nat, id: ChainId)
    ensures Spared(log, n, n, id)
  {
  }

  lemma SetTaken(s: Step, name: string)
    requires Ran(s) && (ShrinkCmd(s.cmd) || s.cmd.DestroySet?)
    ensures name in s.after.sets <==> name in s.before.sets && !(s.ok && s.cmd == DestroySet(name))
  {
  }

  lemma {:induction false} DestroyedRun(start: Kernel, log: seq<Step>, n: nat, m: nat, k: Kernel, name: string)
    requires n <= m <= |log| && Chained(start, log, k) && TakesDown(log, n)
    ensures name in StateAt(start, log, m).sets <==> name in StateAt(start, log, n).sets && !Destroyed(log, n, m, name)
    decreases m
  {
    hide Chained, Ran, ShrinkCmd;
    if m > n {
      DestroyedRun(start, log, n, m - 1, k, name);
      ChainedAt(start, log, k, m - 1);
      SetTaken(log[m - 1], name);
      assert Destroyed(log, n, m, name) <==> Destroyed(log, n, m - 1, name) || (log[m - 1].ok && log[m - 1].cmd == DestroySet(name));
    }
  }

  lemma PathSame(start: Kernel, log: seq<Step>, n: nat, m: nat, k: Kernel, f: Family, v: Variant, i: nat, name: string)
    requires n <= m <= |log| && Chained(start, log, k) && TakesDown(log, n)
    ensures Leads(StateAt(start, log, m), f, v, i, name) <==>
      Leads(StateAt(start, log, n), f, v, i, name) && PathSpared(log, n, m, f, v, i)
  {
    hide Chained, Spared, NamesSet, TakesDown;
    SparedRun(start, log, n, m, k, RootId(f, MarkKind));
    SparedRun(start, log, n, m, k, GenId(f, MarkKind, v));
    SparedRun(start, log, n, m, k, RuleChainId(v, i, f));
  }

  /** Some root leads to a rule that names a missing set. */
  ghost predicate LeadsAstray(k: Kernel) {
    exists f: Family, v: Variant, i: nat, name: string :: Leads(k, f, v, i, name) && name !in k.sets
  }

  /** What the run did, read off the kernel it left behind. */
  lemma StrandedIffAstray(start: Kernel, log: seq<Step>, n: nat, m: nat, k: Kernel)
    requires n <= m <= |log| && Chained(start, log, k) && TakesDown(log, n) && !LeadsAstray(StateAt(start, log, n))
    ensures Stranded(StateAt(start, log, n), log, n, m) <==> LeadsAstray(StateAt(start, log, m))
  {
    hide Chained, TakesDown, Leads, PathSpared, Destroyed;
    var k0, k1 := StateAt(start, log, n), StateAt(start, log, m);
    if Stranded(k0, log, n, m) {
      var f: Family, v: Variant, i: nat, name: string :|
        Leads(k0, f, v, i, name) && PathSpared(log, n, m, f, v, i) && Destroyed(log, n, m, name);
      PathSame(start, log, n, m, k, f, v, i, name);
      DestroyedRun(start, log, n, m, k, name);
    }
    if LeadsAstray(k1) {
      var f: Family, v: Variant, i: nat, name: string :| Leads(k1, f, v, i, name) && name !in k1.sets;
      PathSame(start, log, n, m, k, f, v, i, name);
      DestroyedRun(start, log, n, m, k, name);
      assert name in k0.sets;
    }
  }

  // ---- What it means for the next apply -------------------------------------

  lemma CalmLeads(k: Kernel, v: Variant, names: iset<string>, f: Family, x: Variant, i: nat, name: string)
    requires Calm(k, v, names) && Leads(k, f, x, i, name)
    ensures name in names
  {
    hide NamesSet;
    assert SiteCalm(k, v, names, f, MarkKind);
    assert x == v && RuleCalm(k, v, f, MarkKind, names, JumpTo(RuleChain(v, i, f)));
    var r :| r in k.chains[RuleChainId(v, i, f)] && NamesSet(r, name);
    assert PlainChain(k, RuleChainId(v, i, f), names);
  }

  lemma CalmNeverAstray(k: Kernel, v: Variant)
    requires Calm(k, v, LiveNames(k))
    ensures !LeadsAstray(k)
  {
    hide Calm, Leads, IsSetName;
    forall f: Family, x: Variant, i: nat, name: string | Leads(k, f, x, i, name)
      ensures name in k.sets
    {
      CalmLeads(k, v, LiveNames(k), f, x, i, name);
    }
  }

  lemma ChainStaysPlain(k: Kernel, f: Family, v: Variant, i: nat, names: iset<string>)
    requires PlainChain(k, RuleChainId(v, i, f), names) && !LeadsAstray(k) && forall n :: n in names ==> IsSetName(n)
    requires HasJump(k, RootId(f, MarkKind), Gen(MarkKind, v)) && HasJump(k, GenId(f, MarkKind, v), RuleChain(v, i, f))
    ensures PlainChain(k, RuleChainId(v, i, f), LiveNames(k))
  {
    hide NamesSet, IsSetName;
    var id := RuleChainId(v, i, f);
    if id in k.chains {
      forall r, n | r in k.chains[id] && NamesSet(r, n)
        ensures n in LiveNames(k)
      {
        assert Leads(k, f, v, i, n);
      }
    }
  }

  /** Calm roots that lead to no missing set are calm with the sets that exist. */
  lemma NotAstrayIsCalm(k: Kernel, v: Variant, names: iset<string>)
    requires Calm(k, v, names) && !LeadsAstray(k) && forall n :: n in names ==> IsSetName(n)
    ensures Calm(k, v, LiveNames(k))
  {
    hide LeadsAstray, PlainChain, SetFree, IsSetName, LiveNames;
    forall f: Family, kind: Kind
      ensures SiteCalm(k, v, LiveNames(k), f, kind)
    {
      assert SiteCalm(k, v, names, f, kind);
      if !RootIdle(k, f, kind) && GenId(f, kind, v) in k.chains {
        forall r | r in k.chains[GenId(f, kind, v)]
          ensures RuleCalm(k, v, f, kind, LiveNames(k), r)
        {
          assert RuleCalm(k, v, f, kind, names, r);
          if !SetFree(r) {
            var i: nat :| r == JumpTo(RuleChain(v, i, f)) && PlainChain(k, RuleChainId(v, i, f), names);
            ChainStaysPlain(k, f, v, i, names);
          }
        }
      }
    }
  }

  /** `k'` is `k` with all roots linked. */
  ghost predicate Relinks(k: Kernel, k': Kernel) {
    && k'.sets == k.sets && ForeignOk(k') && AllLinked(k')
    && forall id: ChainId :: !id.chain.Parent? ==> SameChain(k, k', id)
  }

  lemma AstrayDangles(k: Kernel, f: Family, v: Variant, i: nat, name: string)
    requires Linked(k, f, MarkKind) && Leads(k, f, v, i, name) && name !in k.sets
    ensures !NoDangling(k)
  {
    hide NamesSet;
    var parent, root, gen, chain := ParentId(f, MarkKind), RootId(f, MarkKind), GenId(f, MarkKind, v), RuleChainId(v, i, f);
    OneMoreJump(k, gen, chain, chain, 0);
    OneMoreJump(k, root, gen, chain, 1);
    OneMoreJump(k, parent, root, chain, 2);
    var r :| r in k.chains[chain] && NamesSet(r, name);
    var j :| 0 <= j < |k.chains[chain]| && k.chains[chain][j] == r;
    assert !SetsExist(k, chain);
  }

  lemma OneMoreJump(k: Kernel, a: ChainId, c: ChainId, b: ChainId, n: nat)
    requires HasJump(k, a, c.chain) && a.family == c.family && a.table == c.table && Reaches(k, c, b, n)
    ensures Reaches(k, a, b, n + 1)
  {
    var i :| 0 <= i < |k.chains[a]| && k.chains[a][i] == JumpTo(c.chain);
    assert JumpsFrom(k, a, c);
  }

  lemma SameLeads(k: Kernel, k': Kernel, f: Family, v: Variant, i: nat, name: string)
    requires forall id: ChainId :: !id.chain.Parent? ==> SameChain(k, k', id)
    ensures Leads(k, f, v, i, name) <==> Leads(k', f, v, i, name)
  {
    hide NamesSet;
    assert SameChain(k, k', RootId(f, MarkKind)) && SameChain(k, k', GenId(f, MarkKind, v)) && SameChain(k, k', RuleChainId(v, i, f));
  }

  /** Linking the roots of a calm filter makes a reference dangle iff some root leads to a missing set. */
  lemma RelinkedDanglesIff(k: Kernel, k': Kernel, v: Variant, names: iset<string>)
    requires Calm(k, v, names) && Relinks(k, k') && forall n :: n in names ==> IsSetName(n)
    ensures NoDangling(k') <==> !LeadsAstray(k)
  {
    hide NoDangling, Leads, ForeignOk, Calm, IsSetName, RootsSafe;
    if LeadsAstray(k) {
      var f: Family, x: Variant, i: nat, name: string :| Leads(k, f, x, i, name) && name !in k.sets;
      SameLeads(k, k', f, x, i, name);
      assert Linked(k', f, MarkKind);
      AstrayDangles(k', f, x, i, name);
    } else {
      NotAstrayIsCalm(k, v, names);
      RelinkedCalm(k, k', v, LiveNames(k));
      CalmIsSafe(k', v, LiveNames(k));
      SafeRootsNeverDangle(k', LiveNames(k));
    }
  }

  lemma RelinkedCalm(k: Kernel, k': Kernel, v: Variant, names: iset<string>)
    requires Calm(k, v, names) && forall id: ChainId :: !id.chain.Parent? ==> SameChain(k, k', id)
    ensures Calm(k', v, names)
  {
    hide Calm;
    forall id | OfVariant(v, id) ensures NoMore(k, k', id) {
      assert SameChain(k, k', id);
    }
    CalmShrinks(k, k', v, names, names);
  }

  // ---- In terms of the bindings ---------------------------------------------

  ghost predicate RulesName(rules: seq<Rule>, name: string) {
    exists r :: r in rules && NamesSet(r, name)
  }

  lemma SplitName(a: seq<Rule>, b: seq<Rule>, name: string)
    requires RulesName(a, name) || RulesName(b, name)
    ensures RulesName(a + b, name)
  {
    hide NamesSet;
    if RulesName(a, name) {
      var r :| r in a && NamesSet(r, name);
      assert r in a + b;
    } else {
      var r :| r in b && NamesSet(r, name);
      assert r in a + b;
    }
  }

  lemma RuleNames(r: Rule, j: nat, name: string)
    requires j < |r.matches| && (r.matches[j] == SrcSet(name) || r.matches[j] == DstSet(name))
    ensures RulesName([r], name)
  {
    assert r in [r] && NamesSet(r, name);
  }

  lemma BlockNames(b: RouteBinding, f: Family, iface: string, mac: string, port: PortRange, name: string)
    requires UsesSet(b, f, name)
    ensures RulesName(Block(b, f, iface, mac, port), name)
  {
    hide RulesName, NamesSet, PortExclusions, ExpandedPorts;
    var base, excluded := BaseMatches(b, f, iface, mac, port), ExpandedPorts(b.excludedDestinationPorts);
    var m, s, d := MulticastExclusion(b, f, base), SourceExclusion(b, f, base), DestinationExclusion(b, f, base);
    var ports, mark := PortExclusions(base, port, excluded), Rule(base, SetMark(b.mark));
    if b.hasSource && name == NameFor(b.source, f) {
      RuleNames(mark, 0, name);
    } else if b.hasDestination && name == NameFor(b.destination, f) {
      RuleNames(mark, if b.hasSource then 1 else 0, name);
    } else if b.hasExcludedSource && name == NameFor(b.excludedSource, f) {
      RuleNames(s[0], |base|, name);
      SplitName(m, s, name);
      SplitName(m + s, d, name);
      SplitName(m + s + d, ports, name);
    } else {
      RuleNames(d[0], |base|, name);
      SplitName(m + s, d, name);
      SplitName(m + s + d, ports, name);
    }
    SplitName(m + s + d + ports, [mark], name);
  }

  lemma PortBlocksName(b: RouteBinding, f: Family, iface: string, mac: string, ports: seq<PortRange>, name: string)
    requires UsesSet(b, f, name) && ports != []
    ensures RulesName(PortBlocks(b, f, iface, mac, ports), name)
  {
    hide RulesName, Block, UsesSet;
    BlockNames(b, f, iface, mac, ports[|ports| - 1], name);
    SplitName(PortBlocks(b, f, iface, mac, ports[..|ports| - 1]), Block(b, f, iface, mac, ports[|ports| - 1]), name);
  }

  lemma SomethingExpanded(b: RouteBinding)
    ensures ExpandedPorts(b.destinationPorts) != [] && ExpandedValues(b.sourceMacs) != [] && ExpandedValues(b.sourceInterfaces) != []
  {
  }

  lemma MacBlocksName(b: RouteBinding, f: Family, iface: string, macs: seq<string>, name: string)
    requires UsesSet(b, f, name) && macs != []
    ensures RulesName(MacBlocks(b, f, iface, macs), name)
  {
    hide RulesName, PortBlocks, UsesSet, ExpandedPorts, ExpandedValues;
    SomethingExpanded(b);
    PortBlocksName(b, f, iface, macs[|macs| - 1], ExpandedPorts(b.destinationPorts), name);
    SplitName(MacBlocks(b, f, iface, macs[..|macs| - 1]), PortBlocks(b, f, iface, macs[|macs| - 1], ExpandedPorts(b.destinationPorts)), name);
  }

  /** The chain of a binding names every set that the binding uses. */
  lemma CompiledNames(b: RouteBinding, f: Family, name: string)
    requires UsesSet(b, f, name)
    ensures RulesName(Compiled(b, f), name)
  {
    hide RulesName, MacBlocks, UsesSet, ExpandedValues;
    SomethingExpanded(b);
    var ifaces, macs := ExpandedValues(b.sourceInterfaces), ExpandedValues(b.sourceMacs);
    MacBlocksName(b, f, ifaces[|ifaces| - 1], macs, name);
    SplitName(IfaceBlocks(b, f, ifaces[..|ifaces| - 1]), MacBlocks(b, f, ifaces[|ifaces| - 1], macs), name);
  }

  lemma CompiledNamesOnly(b: RouteBinding, f: Family, name: string)
    requires RulesName(Compiled(b, f), name)
    ensures UsesSet(b, f, name)
  {
    hide Compiled, UsesSet;
    CompiledPlain(b, f);
    var rules := Compiled(b, f);
    var r :| r in rules && NamesSet(r, name);
    var i :| 0 <= i < |rules| && rules[i] == r;
    var j :| 0 <= j < |r.matches| && (r.matches[j] == SrcSet(name) || r.matches[j] == DstSet(name));
    assert PlainMatches(rules[i].matches, b, f);
  }

  /** Behind the roots of a live ruleset exactly the bindings name sets. */
  lemma InstalledLeads(k: Kernel, v: Variant, bs: seq<RouteBinding>, f: Family, x: Variant, i: nat, name: string)
    requires Installed(k, v, bs)
    ensures Leads(k, f, x, i, name) <==> x == v && i < |bs| && UsesSet(bs[i], f, name)
  {
    hide Compiled, JumpRules, UsesSet, NamesSet, Linked;
    assert ChainIs(k, RootId(f, MarkKind), [JumpTo(Gen(MarkKind, v))]) && Built(k, v, bs, f, MarkKind);
    JumpRulesShape(v, |bs|, f);
    if x == v && i < |bs| {
      assert JumpRules(v, |bs|, f)[i] == JumpTo(RuleChain(v, i, f));
      assert ChainIs(k, RuleChainId(v, i, f), Compiled(bs[i], f));
      assert ChainNamesSet(k, RuleChainId(v, i, f), name) <==> RulesName(Compiled(bs[i], f), name);
      if UsesSet(bs[i], f, name) { CompiledNames(bs[i], f, name); }
      if RulesName(Compiled(bs[i], f), name) { CompiledNamesOnly(bs[i], f, name); }
    }
  }

  /** In some family the mark root, the live generation and the chain of a binding that uses a set all resisted. */
  ghost predicate PathResisted(log: seq<Step>, n: nat, m: nat, v: Variant, bs: seq<RouteBinding>) {
    exists f: Family, i: nat, name: string :: i < |bs| && UsesSet(bs[i], f, name) && PathSpared(log, n, m, f, v, i)
  }

  /** Once all rule sets are gone, rules are stranded iff a whole path of the live ruleset resisted. */
  lemma StrandedIffResisted(start: Kernel, log: seq<Step>, n: nat, m: nat, k: Kernel, v: Variant, bs: seq<RouteBinding>)
    requires n <= m <= |log| && Chained(start, log, k) && TakesDown(log, n)
    requires RoutingInv(StateAt(start, log, n), v, bs) && forall i, f, name :: 0 <= i < |bs| && UsesSet(bs[i], f, name) ==> name !in StateAt(start, log, m).sets
    ensures Stranded(StateAt(start, log, n), log, n, m) <==> PathResisted(log, n, m, v, bs)
  {
    hide Chained, TakesDown, Leads, PathSpared, Destroyed, Installed, ForeignOk, UsesSet;
    var k0 := StateAt(start, log, n);
    if Stranded(k0, log, n, m) {
      var f: Family, x: Variant, i: nat, name: string :|
        Leads(k0, f, x, i, name) && PathSpared(log, n, m, f, x, i) && Destroyed(log, n, m, name);
      InstalledLeads(k0, v, bs, f, x, i, name);
    }
    if PathResisted(log, n, m, v, bs) {
      var f: Family, i: nat, name: string :| i < |bs| && UsesSet(bs[i], f, name) && PathSpared(log, n, m, f, v, i);
      InstalledLeads(k0, v, bs, f, v, i, name);
      DestroyedRun(start, log, n, m, k, name);
      assert name in k0.sets;
    }
  }

  // ---- A kernel that protects sets in use -----------------------------------

  /** No set was destroyed while a rule named it. */
  ghost predicate ProtectsUsed(log: seq<Step>, n: nat, m: nat) {
    forall i, id, name :: n <= i < m && i < |log| && log[i].cmd == DestroySet(name) && log[i].ok ==> !ChainNamesSet(log[i].before, id, name)
  }

  /** A set that goes while the path to its rule is spared is destroyed in use. */
  lemma DestroyedInUse(start: Kernel, log: seq<Step>, n: nat, m: nat, k: Kernel, f: Family, v: Variant, i: nat, name: string)
    requires n <= m <= |log| && Chained(start, log, k) && TakesDown(log, n)
    requires Leads(StateAt(start, log, n), f, v, i, name) && PathSpared(log, n, m, f, v, i) && Destroyed(log, n, m, name)
    ensures exists j :: n <= j < m && log[j].cmd == DestroySet(name) && log[j].ok && ChainNamesSet(log[j].before, RuleChainId(v, i, f), name)
  {
    hide Chained, TakesDown, NamesSet, Ran;
    var j :| n <= j < m && log[j].cmd == DestroySet(name) && log[j].ok;
    assert Spared(log, n, j, RuleChainId(v, i, f));
    SparedRun(start, log, n, j, k, RuleChainId(v, i, f));
    ChainedAt(start, log, k, j);
    assert ChainNamesSet(log[j].before, RuleChainId(v, i, f), name);
  }

  /** On a kernel that refuses to destroy a set in use nothing is ever stranded. */
  lemma ProtectedNeverStrands(start: Kernel, log: seq<Step>, n: nat, m: nat, k: Kernel)
    requires n <= m <= |log| && Chained(start, log, k) && TakesDown(log, n) && ProtectsUsed(log, n, m)
    ensures !Stranded(StateAt(start, log, n), log, n, m)
  {
    hide Chained, TakesDown, ChainNamesSet, Leads, PathSpared, Destroyed;
    forall f: Family, v: Variant, i: nat, name: string |
      Leads(StateAt(start, log, n), f, v, i, name) && PathSpared(log, n, m, f, v, i) && Destroyed(log, n, m, name)
      ensures false
    {
      DestroyedInUse(start, log, n, m, k, f, v, i, name);
    }
  }
}
