/**
  The hitless replacement of the live ruleset: the method that the routing manager
  calls, and what holds after every single command it issues.
 */
module HitlessUpdate {
  import opened Text
  import opened Netfilter
  import opened Hosts
  import opened Bindings
  import opened MarkCompiler
  import opened Ordering
  import opened Rulesets
  import opened IpRulesSync
  import opened Generations
  import opened RootSwitch
  import opened Leftovers

  // ---- Shape of the compiled rules ------------------------------------------

  ghost predicate PlainMatches(ms: seq<Match>, b: RouteBinding, f: Family) {
    forall i :: 0 <= i < |ms| ==> (ms[i].SrcSet? || ms[i].DstSet? ==> UsesSet(b, f, ms[i].set_))
  }

  /** Rules that jump nowhere and name only sets of the binding. */
  ghost predicate PlainRules(rules: seq<Rule>, b: RouteBinding, f: Family) {
    forall i :: 0 <= i < |rules| ==> !rules[i].target.Jump? && PlainMatches(rules[i].matches, b, f)
  }

  lemma BaseMatchesPlain(b: RouteBinding, f: Family, iface: string, mac: string, port: PortRange)
    ensures PlainMatches(BaseMatches(b, f, iface, mac, port), b, f)
  {
  }

  lemma {:induction false} PortExclusionsPlain(b: RouteBinding, f: Family, base: seq<Match>, port: PortRange, excluded: seq<PortRange>)
    requires PlainMatches(base, b, f)
    ensures PlainRules(PortExclusions(base, port, excluded), b, f)
  {
    if excluded != [] {
      PortExclusionsPlain(b, f, base, port, excluded[..|excluded| - 1]);
    }
  }

  lemma ExclusionPlain(b: RouteBinding, f: Family, base: seq<Match>)
    requires PlainMatches(base, b, f)
    ensures PlainRules(MulticastExclusion(b, f, base), b, f)
    ensures PlainRules(SourceExclusion(b, f, base), b, f)
    ensures PlainRules(DestinationExclusion(b, f, base), b, f)
  {
    hide MulticastRange;
  }

  lemma PlainConcat(x: seq<Rule>, y: seq<Rule>, b: RouteBinding, f: Family)
    requires PlainRules(x, b, f) && PlainRules(y, b, f)
    ensures PlainRules(x + y, b, f)
  {
    hide PlainMatches;
  }

  lemma BlockPlain(b: RouteBinding, f: Family, iface: string, mac: string, port: PortRange)
    ensures PlainRules(Block(b, f, iface, mac, port), b, f)
  {
    hide BaseMatches, PortExclusions, ExpandedPorts, MulticastExclusion, SourceExclusion, DestinationExclusion, PlainMatches;
    var base, excluded := BaseMatches(b, f, iface, mac, port), ExpandedPorts(b.excludedDestinationPorts);
    BaseMatchesPlain(b, f, iface, mac, port);
    PortExclusionsPlain(b, f, base, port, excluded);
    ExclusionPlain(b, f, base);
    var m, s, d := MulticastExclusion(b, f, base), SourceExclusion(b, f, base), DestinationExclusion(b, f, base);
    PlainConcat(m, s, b, f);
    PlainConcat(m + s, d, b, f);
    PlainConcat(m + s + d, PortExclusions(base, port, excluded), b, f);
  }

  lemma {:induction false} PortBlocksPlain(b: RouteBinding, f: Family, iface: string, mac: string, ports: seq<PortRange>)
    ensures PlainRules(PortBlocks(b, f, iface, mac, ports), b, f)
  {
    hide Block;
    if ports != [] {
      PortBlocksPlain(b, f, iface, mac, ports[..|ports| - 1]);
      BlockPlain(b, f, iface, mac, ports[|ports| - 1]);
    }
  }

  lemma {:induction false} MacBlocksPlain(b: RouteBinding, f: Family, iface: string, macs: seq<string>)
    ensures PlainRules(MacBlocks(b, f, iface, macs), b, f)
  {
    hide PortBlocks, ExpandedPorts;
    if macs != [] {
      MacBlocksPlain(b, f, iface, macs[..|macs| - 1]);
      PortBlocksPlain(b, f, iface, macs[|macs| - 1], ExpandedPorts(b.destinationPorts));
    }
  }

  lemma {:induction false} IfaceBlocksPlain(b: RouteBinding, f: Family, ifaces: seq<string>)
    ensures PlainRules(IfaceBlocks(b, f, ifaces), b, f)
  {
    hide MacBlocks, ExpandedValues;
    if ifaces != [] {
      IfaceBlocksPlain(b, f, ifaces[..|ifaces| - 1]);
      MacBlocksPlain(b, f, ifaces[|ifaces| - 1], ExpandedValues(b.sourceMacs));
    }
  }

  lemma {:induction false} JumpRulesShape(v: Variant, n: nat, f: Family)
    ensures |JumpRules(v, n, f)| == n
    ensures forall i :: 0 <= i < n ==> JumpRules(v, n, f)[i] == JumpTo(RuleChain(v, i, f))
  {
    if n > 0 {
      JumpRulesShape(v, n - 1, f);
    }
  }

  lemma {:induction false} NatRulesShape(bs: seq<RouteBinding>)
    ensures forall i :: 0 <= i < |NatRules(bs)| ==> SetFree(NatRules(bs)[i])
  {
    if bs != [] {
      NatRulesShape(bs[..|bs| - 1]);
    }
  }

  lemma {:induction false} MssRulesShape(ifaces: seq<string>, clamps: map<string, ClampPair>, f: Family)
    ensures forall i :: 0 <= i < |MssRulesFor(ifaces, clamps, f)| ==> SetFree(MssRulesFor(ifaces, clamps, f)[i])
  {
    if ifaces != [] {
      MssRulesShape(ifaces[..|ifaces| - 1], clamps, f);
    }
  }

  // ---- What a root reaches --------------------------------------------------

  /** The chains of one hook that belong to the generations `vs` with rulesets of at most `n` bindings. */
  predicate InZone(v: Variant, n: nat, f: Family, kind: Kind, id: ChainId) {
    id.family == f && id.table == TableOf(kind) &&
    (id.chain == Gen(kind, v) || (kind.MarkKind? && id.chain.RuleChain? && id.chain == RuleChain(v, id.chain.index, f) && id.chain.index < n))
  }

  lemma ZoneClosed(k: Kernel, v: Variant, bs: seq<RouteBinding>, f: Family, kind: Kind, a: ChainId, c: ChainId)
    requires Built(k, v, bs, f, kind) && InZone(v, |bs|, f, kind, a) && JumpsFrom(k, a, c)
    ensures InZone(v, |bs|, f, kind, c)
  {
    hide Compiled, JumpRules, NatRules, MssRulesFor, ClampMap;
    var i :| 0 <= i < |k.chains[a]| && k.chains[a][i].target == Jump(c.chain);
    if a.chain.RuleChain? {
      assert ChainIs(k, RuleChainId(v, a.chain.index, f), Compiled(bs[a.chain.index], f));
      assert PlainRules(k.chains[a], bs[a.chain.index], f) by {
        CompiledPlain(bs[a.chain.index], f);
      }
      assert false;
    } else {
      match kind
      case MarkKind => JumpRulesShape(v, |bs|, f);
      case NatKind =>
        NatRulesShape(bs);
        assert false;
      case MssKind =>
        MssRulesShape(Sorted(ClampMap(bs).Keys), ClampMap(bs), f);
        assert false;
    }
  }

  lemma CompiledPlain(b: RouteBinding, f: Family)
    ensures PlainRules(Compiled(b, f), b, f)
  {
    IfaceBlocksPlain(b, f, ExpandedValues(b.sourceInterfaces));
  }

  lemma {:induction false} ReachStaysInZone(k: Kernel, v: Variant, bs: seq<RouteBinding>, f: Family, kind: Kind,
                                            a: ChainId, b: ChainId, n: nat)
    requires Built(k, v, bs, f, kind) && InZone(v, |bs|, f, kind, a) && Reaches(k, a, b, n)
    ensures InZone(v, |bs|, f, kind, b)
    decreases n
  {
    hide Built, InZone, JumpsFrom;
    if n > 0 {
      var c :| JumpsFrom(k, a, c) && Reaches(k, c, b, n - 1);
      ZoneClosed(k, v, bs, f, kind, a, c);
      ReachStaysInZone(k, v, bs, f, kind, c, b, n - 1);
    }
  }

  /** In every phase of the switch a root reaches only itself and the generations it jumps to. */
  lemma RootReaches(k: Kernel, v: Variant, olds: seq<RouteBinding>, news: seq<RouteBinding>, f: Family, kind: Kind,
                    id: ChainId, n: nat)
    requires SiteOk(k, v, olds, news, f, kind) && Reaches(k, RootId(f, kind), id, n)
    ensures id == RootId(f, kind)
      || (InZone(v, |olds|, f, kind, id) && Built(k, v, olds, f, kind))
      || (InZone(Other(v), |news|, f, kind, id) && Built(k, Other(v), news, f, kind)
          && !ChainIs(k, RootId(f, kind), [JumpTo(Gen(kind, v))]))
  {
    hide Built;
    if n > 0 {
      var c :| JumpsFrom(k, RootId(f, kind), c) && Reaches(k, c, id, n - 1);
      if c.chain == Gen(kind, v) {
        ReachStaysInZone(k, v, olds, f, kind, c, id, n - 1);
      } else {
        ReachStaysInZone(k, Other(v), news, f, kind, c, id, n - 1);
      }
    }
  }

  // ---- What every command keeps ---------------------------------------------

  ghost predicate AllSitesOk(k: Kernel, v: Variant, olds: seq<RouteBinding>, news: seq<RouteBinding>) {
    forall f: Family, kind: Kind :: SiteOk(k, v, olds, news, f, kind)
  }

  ghost predicate ReachedFromRoot(k: Kernel, id: ChainId) {
    exists f: Family, kind: Kind, n: nat :: Reaches(k, RootId(f, kind), id, n)
  }

  /**
    Before and after the command every hook offers the old or the new ruleset; the
    ipsets are untouched, and no chain that a root reaches is emptied or deleted.
   */
  ghost predicate HitlessStep(s: Step, sets: map<string, IpSet>, v: Variant, olds: seq<RouteBinding>, news: seq<RouteBinding>) {
    && AllSitesOk(s.before, v, olds, news) && AllSitesOk(s.after, v, olds, news)
    && s.before.sets == sets && s.after.sets == sets
    && (s.cmd.FlushChain? || s.cmd.DeleteChain? ==> !ReachedFromRoot(s.before, s.cmd.id))
  }

  ghost predicate HitlessSteps(log: seq<Step>, n: nat, sets: map<string, IpSet>, v: Variant,
                               olds: seq<RouteBinding>, news: seq<RouteBinding>) {
    forall i :: n <= i < |log| ==> HitlessStep(log[i], sets, v, olds, news)
  }

  /** A packet that passes the links of a hook in state `k` gets the verdict of one of the two rulesets. */
  ghost predicate Meets(k: Kernel, olds: seq<RouteBinding>, news: seq<RouteBinding>, kind: Kind, links: nat,
                        p: Packet, st: PacketState, depth: nat) {
    var o := RunRules(k, p.family, TableOf(kind), RootLinks(kind, links), p, st, depth);
    Verdict(olds, p.family, kind, k.sets, p, st, o) || Verdict(news, p.family, kind, k.sets, p, st, o)
  }

  /** In terms of packets: before and after every command each packet meets the old or the new ruleset at each hook. */
  ghost predicate PacketsHitless(log: seq<Step>, n: nat, olds: seq<RouteBinding>, news: seq<RouteBinding>) {
    forall i, kind, links: nat, p, st, depth: nat | n <= i < |log| && links > 0 && WellFormed(p) && depth >= 3 ::
      Meets(log[i].before, olds, news, kind, links, p, st, depth) && Meets(log[i].after, olds, news, kind, links, p, st, depth)
  }

  lemma SitesMeet(k: Kernel, v: Variant, olds: seq<RouteBinding>, news: seq<RouteBinding>, kind: Kind, links: nat,
                  p: Packet, st: PacketState, depth: nat)
    requires AllSitesOk(k, v, olds, news) && AllNormalized(olds) && AllNormalized(news)
    requires links > 0 && WellFormed(p) && depth >= 3
    ensures Meets(k, olds, news, kind, links, p, st, depth)
  {
    hide SiteOk, Verdict, RunRules, AllNormalized, WellFormed, RootLinks;
    LinksVerdict(k, v, olds, news, kind, links, p, st, depth);
  }

  /** Commands that keep every hook on one of the two rulesets are unnoticeable to packets. */
  lemma SitesHitless(log: seq<Step>, n: nat, v: Variant, olds: seq<RouteBinding>, news: seq<RouteBinding>)
    requires forall i :: n <= i < |log| ==> AllSitesOk(log[i].before, v, olds, news) && AllSitesOk(log[i].after, v, olds, news)
    requires AllNormalized(olds) && AllNormalized(news)
    ensures PacketsHitless(log, n, olds, news)
  {
    hide AllSitesOk, Meets, AllNormalized, WellFormed;
    forall i, kind, links: nat, p, st, depth: nat | n <= i < |log| && links > 0 && WellFormed(p) && depth >= 3
      ensures Meets(log[i].before, olds, news, kind, links, p, st, depth) && Meets(log[i].after, olds, news, kind, links, p, st, depth)
    {
      SitesMeet(log[i].before, v, olds, news, kind, links, p, st, depth);
      SitesMeet(log[i].after, v, olds, news, kind, links, p, st, depth);
    }
  }

  lemma HitlessPackets(log: seq<Step>, n: nat, sets: map<string, IpSet>, v: Variant, olds: seq<RouteBinding>, news: seq<RouteBinding>)
    requires HitlessSteps(log, n, sets, v, olds, news) && AllNormalized(olds) && AllNormalized(news)
    ensures PacketsHitless(log, n, olds, news)
  {
    hide AllSitesOk, AllNormalized, ReachedFromRoot, PacketsHitless;
    assert forall i :: n <= i < |log| ==> HitlessStep(log[i], sets, v, olds, news);
    SitesHitless(log, n, v, olds, news);
  }

  // ---- Quiet phases ---------------------------------------------------------

  lemma BuiltFrame(k: Kernel, k': Kernel, v: Variant, bs: seq<RouteBinding>, f: Family, kind: Kind)
    requires Built(k, v, bs, f, kind) && forall id :: OfVariant(v, id) ==> SameChain(k, k', id)
    ensures Built(k', v, bs, f, kind)
  {
    hide Compiled, JumpRules, NatRules, MssRules;
    if kind.MarkKind? {
      assert SameChain(k, k', MarkGenId(v, f));
      forall i | 0 <= i < |bs|
        ensures ChainIs(k', RuleChainId(v, i, f), Compiled(bs[i], f))
      {
        assert SameChain(k, k', RuleChainId(v, i, f));
      }
    } else {
      assert SameChain(k, k', GenId(f, kind, v));
    }
  }

  lemma QuietKeepsInstalled(k0: Kernel, k: Kernel, v: Variant, olds: seq<RouteBinding>)
    requires Installed(k0, v, olds) && Quiet(k0, k, Other(v))
    ensures Installed(k, v, olds)
  {
    hide Built, RulePrefix;
    forall f: Family, kind: Kind
      ensures ChainIs(k, RootId(f, kind), [JumpTo(Gen(kind, v))]) && Built(k, v, olds, f, kind) && Linked(k, f, kind)
    {
      assert SameChain(k0, k, RootId(f, kind));
      BuiltFrame(k0, k, v, olds, f, kind);
      assert Linked(k0, f, kind) && k0.chains[ParentId(f, kind)] <= k.chains[ParentId(f, kind)];
    }
  }

  lemma InstalledSitesOk(k: Kernel, v: Variant, olds: seq<RouteBinding>, news: seq<RouteBinding>)
    requires Installed(k, v, olds)
    ensures AllSitesOk(k, v, olds, news)
  {
    hide Built;
  }

  lemma OwnedUnreached(k: Kernel, v: Variant, olds: seq<RouteBinding>, id: ChainId)
    requires Installed(k, v, olds) && Owned(Other(v), id)
    ensures !ReachedFromRoot(k, id)
  {
    hide Built, RulePrefix, Reaches, Linked;
    if ReachedFromRoot(k, id) {
      var f: Family, kind: Kind, n: nat :| Reaches(k, RootId(f, kind), id, n);
      RootReaches(k, v, olds, [], f, kind, id, n);
    }
  }

  /** Every step of a quiet run keeps the old ruleset installed. */
  lemma {:induction false} QuietRun(start: Kernel, log: seq<Step>, n: nat, m: nat, k: Kernel, v: Variant,
                                    olds: seq<RouteBinding>, news: seq<RouteBinding>)
    requires n <= m <= |log| && Chained(start, log, k) && Installed(StateAt(start, log, n), v, olds)
    requires QuietRange(log, n, Other(v))
    ensures Quiet(StateAt(start, log, n), StateAt(start, log, m), Other(v))
    ensures forall i :: n <= i < m ==> HitlessStep(log[i], StateAt(start, log, n).sets, v, olds, news)
    decreases m
  {
    hide Installed, HitlessStep, Quiet, Ran, QuietCmd, Chained;
    var k0 := StateAt(start, log, n);
    if m == n {
      QuietItself(k0, Other(v));
    } else {
      QuietRun(start, log, n, m - 1, k, v, olds, news);
      var s := log[m - 1];
      ChainedAt(start, log, k, m - 1);
      OneQuietStep(k0, s, v, olds, news);
    }
  }

  lemma QuietItself(k: Kernel, w: Variant)
    ensures Quiet(k, k, w)
  {
  }

  lemma OneQuietStep(k0: Kernel, s: Step, v: Variant, olds: seq<RouteBinding>, news: seq<RouteBinding>)
    requires Installed(k0, v, olds) && Quiet(k0, s.before, Other(v)) && Ran(s) && QuietCmd(s.cmd, Other(v))
    ensures Quiet(k0, s.after, Other(v)) && HitlessStep(s, k0.sets, v, olds, news)
  {
    hide Ran, Built, ReachedFromRoot, AllSitesOk, RulePrefix;
    assert s.cmd.id.chain.Root? ==> s.cmd.id in k0.chains;
    QuietStep(k0, s, Other(v));
    assert s.before.sets == k0.sets && s.after.sets == k0.sets;
    QuietKeepsInstalled(k0, s.before, v, olds);
    QuietKeepsInstalled(k0, s.after, v, olds);
    InstalledSitesOk(s.before, v, olds, news);
    InstalledSitesOk(s.after, v, olds, news);
    if s.cmd.FlushChain? || s.cmd.DeleteChain? {
      OwnedUnreached(s.before, v, olds, s.cmd.id);
    }
  }

  // ---- The switch -----------------------------------------------------------

  ghost predicate AllBuilt(k: Kernel, v: Variant, bs: seq<RouteBinding>) {
    forall f: Family, kind: Kind :: Built(k, v, bs, f, kind)
  }

  lemma AllBuiltFrame(k: Kernel, k': Kernel, v: Variant, bs: seq<RouteBinding>)
    requires AllBuilt(k, v, bs) && SameButRoots(k, k')
    ensures AllBuilt(k', v, bs)
  {
    hide Built;
    forall f: Family, kind: Kind
      ensures Built(k', v, bs, f, kind)
    {
      BuiltFrame(k, k', v, bs, f, kind);
    }
  }

  lemma SwitchingSitesOk(kb: Kernel, k: Kernel, v: Variant, olds: seq<RouteBinding>, news: seq<RouteBinding>)
    requires AllBuilt(kb, v, olds) && AllBuilt(kb, Other(v), news) && Switching(kb, k, Other(v))
    ensures AllSitesOk(k, v, olds, news)
  {
    hide Built;
    AllBuiltFrame(kb, k, v, olds);
    AllBuiltFrame(kb, k, Other(v), news);
    forall f: Family, kind: Kind
      ensures SiteOk(k, v, olds, news, f, kind)
    {
      assert RootPhase(k, f, kind, Other(v));
    }
  }

  lemma SwitchingIsHitless(log: seq<Step>, n: nat, kb: Kernel, v: Variant, olds: seq<RouteBinding>, news: seq<RouteBinding>)
    requires AllBuilt(kb, v, olds) && AllBuilt(kb, Other(v), news) && SwitchingSteps(log, n, kb, Other(v))
    ensures HitlessSteps(log, n, kb.sets, v, olds, news)
  {
    hide AllBuilt, AllSitesOk, ReachedFromRoot;
    forall i | n <= i < |log|
      ensures HitlessStep(log[i], kb.sets, v, olds, news)
    {
      SwitchingSitesOk(kb, log[i].before, v, olds, news);
      SwitchingSitesOk(kb, log[i].after, v, olds, news);
    }
  }

  lemma SwitchedInstalled(kb: Kernel, k: Kernel, w: Variant, news: seq<RouteBinding>)
    requires AllBuilt(kb, w, news) && SameButRoots(kb, k) && ReadyUpTo(k, w, |SITES|)
    requires forall f: Family, kind: Kind :: Linked(kb, f, kind)
    ensures Installed(k, w, news)
  {
    hide Built;
    AllBuiltFrame(kb, k, w, news);
    forall f: Family, kind: Kind
      ensures ChainIs(k, RootId(f, kind), [JumpTo(Gen(kind, w))]) && Built(k, w, news, f, kind) && Linked(k, f, kind)
    {
      var i := SiteIndex(Site(f, kind));
      assert RootIs(k, SITES[i], NewJump(SITES[i], w));
      assert Linked(kb, f, kind) && SameChain(kb, k, ParentId(f, kind));
    }
  }

  lemma {:induction false} IpRulesRun(start: Kernel, log: seq<Step>, n: nat, m: nat, k: Kernel, family: Family,
                                      v: Variant, olds: seq<RouteBinding>, news: seq<RouteBinding>)
    requires n <= m <= |log| && Chained(start, log, k) && IpRuleSteps(log, n, family)
    requires AllSitesOk(StateAt(start, log, n), v, olds, news)
    ensures StateAt(start, log, m).chains == StateAt(start, log, n).chains
    ensures StateAt(start, log, m).sets == StateAt(start, log, n).sets
    ensures forall i :: n <= i < m ==> HitlessStep(log[i], StateAt(start, log, n).sets, v, olds, news)
    decreases m
  {
    hide AllSitesOk, Ran, HitlessStep, Chained;
    if m > n {
      IpRulesRun(start, log, n, m - 1, k, family, v, olds, news);
      var s := log[m - 1];
      ChainedAt(start, log, k, m - 1);
      StepEffect(s, family);
      SameChainsSitesOk(StateAt(start, log, n), s.before, v, olds, news);
      SameChainsSitesOk(StateAt(start, log, n), s.after, v, olds, news);
      HitlessIpRule(s, StateAt(start, log, n).sets, v, olds, news);
    }
  }

  lemma HitlessIpRule(s: Step, sets: map<string, IpSet>, v: Variant, olds: seq<RouteBinding>, news: seq<RouteBinding>)
    requires AllSitesOk(s.before, v, olds, news) && AllSitesOk(s.after, v, olds, news)
    requires s.before.sets == sets && s.after.sets == sets && (s.cmd.AddIpRule? || s.cmd.DelIpRule?)
    ensures HitlessStep(s, sets, v, olds, news)
  {
    hide AllSitesOk, ReachedFromRoot;
  }

  lemma SameChainsSitesOk(k: Kernel, k': Kernel, v: Variant, olds: seq<RouteBinding>, news: seq<RouteBinding>)
    requires AllSitesOk(k, v, olds, news) && k'.chains == k.chains
    ensures AllSitesOk(k', v, olds, news)
  {
    hide Compiled, JumpRules, NatRules, MssRules;
    forall f: Family, kind: Kind
      ensures SiteOk(k', v, olds, news, f, kind)
    {
      assert SiteOk(k, v, olds, news, f, kind);
    }
  }

  lemma SameChainsInstalled(k: Kernel, k': Kernel, v: Variant, bs: seq<RouteBinding>)
    requires Installed(k, v, bs) && k'.chains == k.chains
    ensures Installed(k', v, bs)
  {
    hide Compiled, JumpRules, NatRules, MssRules;
    forall f: Family, kind: Kind
      ensures ChainIs(k', RootId(f, kind), [JumpTo(Gen(kind, v))]) && Built(k', v, bs, f, kind) && Linked(k', f, kind)
    {
      assert Built(k, v, bs, f, kind) && Linked(k, f, kind) && ChainIs(k, RootId(f, kind), [JumpTo(Gen(kind, v))]);
    }
  }

  // ---- Building the new generation ------------------------------------------

  ghost predicate AllPrepared(k: Kernel, w: Variant) {
    forall f: Family, kind: Kind :: Prepared(k, w, f, kind)
  }

  ghost predicate AllLinked(k: Kernel) {
    forall f: Family, kind: Kind :: Linked(k, f, kind)
  }

  lemma PreparedIsProgress(k: Kernel, w: Variant, bs: seq<RouteBinding>)
    requires AllPrepared(k, w)
    ensures Progress(k, w, bs, 0) && AllLinked(k)
  {
    hide Compiled;
    assert bs[..0] == [];
    forall f: Family, kind: Kind
      ensures Linked(k, f, kind)
    {
      assert Prepared(k, w, f, kind);
    }
    forall f: Family
      ensures MarkBuilt(k, w, bs, 0, f) && ChainIs(k, GenId(f, NatKind, w), NatRules(bs[..0])) && ChainIs(k, GenId(f, MssKind, w), [])
    {
      assert Prepared(k, w, f, MarkKind) && Prepared(k, w, f, NatKind) && Prepared(k, w, f, MssKind);
    }
  }

  lemma LinkedFrame(k: Kernel, k': Kernel, w: Variant)
    requires AllLinked(k) && SameUnowned(k, k', w)
    ensures AllLinked(k')
  {
    hide RulePrefix;
    forall f: Family, kind: Kind
      ensures Linked(k', f, kind)
    {
      assert Linked(k, f, kind) && SameChain(k, k', ParentId(f, kind));
    }
  }

  lemma QuietJoin(log1: seq<Step>, log2: seq<Step>, n: nat, w: Variant)
    requires n <= |log1| && log1 <= log2 && QuietRange(log1, n, w) && QuietRange(log2, |log1|, w)
    ensures QuietRange(log2, n, w)
  {
    hide QuietCmd;
    forall i | n <= i < |log2|
      ensures QuietCmd(log2[i].cmd, w)
    {
      if i < |log1| { assert log2[i] == log1[i]; }
    }
  }

  lemma ClampsComplete(k: Kernel, k': Kernel, w: Variant, bs: seq<RouteBinding>)
    requires Progress(k, w, bs, |bs|) && SameBut(k, k', {GenId(V4, MssKind, w), GenId(V6, MssKind, w)})
    requires ClampsBuilt(k', w, Sorted(ClampMap(bs).Keys), ClampMap(bs))
    ensures AllBuilt(k', w, bs)
  {
    hide MssRulesFor, NatRules, JumpRules, Compiled, ClampMap;
    assert bs[..|bs|] == bs;
    forall f: Family, kind: Kind
      ensures Built(k', w, bs, f, kind)
    {
      match kind
      case MarkKind =>
        assert MarkBuilt(k, w, bs, |bs|, f);
        MarkBuiltFrame(k, k', w, bs, |bs|, f, {GenId(V4, MssKind, w), GenId(V6, MssKind, w)});
      case NatKind =>
        assert ChainIs(k, GenId(f, NatKind, w), NatRules(bs[..|bs|]));
        assert SameChain(k, k', GenId(f, NatKind, w));
      case MssKind =>
        assert f.V4? || f.V6?;
    }
  }

  lemma NoClampsYet(k: Kernel, w: Variant, bs: seq<RouteBinding>, clamps: map<string, ClampPair>)
    requires Progress(k, w, bs, |bs|)
    ensures ClampsBuilt(k, w, [], clamps)
  {
  }

  lemma MssGensOwned(w: Variant)
    ensures forall id :: id in {GenId(V4, MssKind, w), GenId(V6, MssKind, w)} ==> Owned(w, id)
  {
  }

  method BuildGeneration(host: Host, w: Variant, bs: seq<RouteBinding>) returns (r: BuildResult)
    requires host.Valid() && AllPrepared(host.kernel, w)
    modifies host
    ensures host.Valid()
    ensures old(host.log) <= host.log && QuietRange(host.log, |old(host.log)|, w)
    ensures SameUnowned(old(host.kernel), host.kernel, w)
    ensures r.BuildDone? ==> AllBuilt(host.kernel, w, bs) && r.desired == DesiredTables(bs) && DesiredManaged(r.desired)
    ensures r.BuildDone? ==> Acceptable(bs)
    ensures host.Flawless() && Acceptable(bs) ==> r.BuildDone?
  {
    hide Chained, Acceptable, RootsExist, ParentsExist, Progress, SameUnowned, QuietCmd, ClampMap, ClampsBuilt, SameBut, AllBuilt, DesiredTables, DesiredManaged, Ran;
    ghost var k0 := host.kernel;
    PreparedIsProgress(k0, w, bs);
    r := AddBindings(host, w, bs);
    if r.BuildFailed? { return; }
    ghost var k1, log1 := host.kernel, host.log;
    NoClampsYet(k1, w, bs, r.clamps);
    var ok := AddMssRules(host, w, r.clamps);
    QuietJoin(log1, host.log, |old(host.log)|, w);
    MssGensOwned(w);
    SameButOwned(k1, host.kernel, {GenId(V4, MssKind, w), GenId(V6, MssKind, w)}, w);
    SameUnownedTransitive(k0, k1, host.kernel, w);
    if !ok { return BuildFailed; }
    ClampsComplete(k1, host.kernel, w, bs);
  }

  // ---- Applying -------------------------------------------------------------

  datatype ApplyResult = Applied | PrepareFailed | BindingsFailed | SwitchFailed(switched: nat) | IpRulesFailed

  /** No mark root refers to a generation: a first start, or chains of an older release. */
  ghost predicate NothingActive(k: Kernel) {
    forall f: Family, v: Variant :: !MarkRootMentions(k, f, v)
  }

  lemma PreparedAfterFlush(k: Kernel, k': Kernel, w: Variant)
    requires AllPrepared(k, w) && SameButRoots(k, k')
    ensures AllPrepared(k', w)
  {
    forall f: Family, kind: Kind
      ensures Prepared(k', w, f, kind)
    {
      assert Prepared(k, w, f, kind);
      assert SameChain(k, k', GenId(f, kind, w)) && SameChain(k, k', ParentId(f, kind));
    }
  }

  lemma InstalledRoots(k: Kernel, v: Variant, bs: seq<RouteBinding>)
    requires Installed(k, v, bs)
    ensures SwitchedUpTo(k, Other(v), 0) && AllBuilt(k, v, bs) && AllLinked(k)
    ensures ChainIs(k, RootId(V4, MarkKind), [JumpTo(Gen(MarkKind, v))])
  {
    hide Built;
    assert ChainIs(k, RootId(V4, MarkKind), [JumpTo(Gen(MarkKind, v))]);
    forall i | 0 <= i < |SITES|
      ensures RootIs(k, SITES[i], NewJump(SITES[i], Other(Other(v))))
    {
      assert ChainIs(k, RootId(SITES[i].family, SITES[i].kind), [JumpTo(Gen(SITES[i].kind, v))]);
    }
  }

  lemma UnownedRoots(k: Kernel, k': Kernel, w: Variant)
    requires SameUnowned(k, k', w) && AllIdle(k)
    ensures ReadyUpTo(k', w, 0)
  {
    hide RulePrefix, SITES;
    forall i | 0 <= i < |SITES|
      ensures RootIdle(k', SITES[i].family, SITES[i].kind)
    {
      assert RootIdle(k, SITES[i].family, SITES[i].kind);
      assert SameChain(k, k', RootId(SITES[i].family, SITES[i].kind));
    }
  }

  lemma UnownedRootsStay(k: Kernel, k': Kernel, w: Variant)
    requires SameUnowned(k, k', w) && RootsExist(k)
    ensures RootsExist(k')
  {
    hide RulePrefix;
    forall f: Family, kind: Kind ensures RootId(f, kind) in k'.chains {
      assert SameChain(k, k', RootId(f, kind)) && RootId(f, kind) in k.chains;
    }
  }

  /** Sorting does not change what can be installed. */
  lemma AcceptableSorted(bs: seq<RouteBinding>)
    ensures Acceptable(SortBindings(bs)) <==> Acceptable(bs)
  {
    hide BindingOk, SortBindings;
    var sorted := SortBindings(bs);
    assert multiset(sorted) == multiset(bs);
    if Acceptable(sorted) { AcceptableSame(sorted, bs); }
    if Acceptable(bs) { AcceptableSame(bs, sorted); }
  }

  lemma AcceptableSame(a: seq<RouteBinding>, b: seq<RouteBinding>)
    requires multiset(a) == multiset(b) && Acceptable(a)
    ensures Acceptable(b)
  {
    hide BindingOk;
    forall i | 0 <= i < |b|
      ensures exists j :: 0 <= j < |a| && a[j] == b[i]
    {
      assert b[i] in multiset(a);
    }
  }

  lemma HitlessJoin(log1: seq<Step>, log2: seq<Step>, n: nat, sets: map<string, IpSet>, v: Variant,
                    olds: seq<RouteBinding>, news: seq<RouteBinding>)
    requires n <= |log1| && log1 <= log2
    requires HitlessSteps(log1, n, sets, v, olds, news) && HitlessSteps(log2, |log1|, sets, v, olds, news)
    ensures HitlessSteps(log2, n, sets, v, olds, news)
  {
    hide HitlessStep;
    forall i | n <= i < |log2|
      ensures HitlessStep(log2[i], sets, v, olds, news)
    {
      if i < |log1| { assert log2[i] == log1[i]; }
    }
  }

  lemma QuietSoFar(start: Kernel, log0: seq<Step>, k0: Kernel, log: seq<Step>, k: Kernel, v: Variant,
                   olds: seq<RouteBinding>, news: seq<RouteBinding>)
    requires Chained(start, log0, k0) && Chained(start, log, k) && log0 <= log
    requires Installed(k0, v, olds) && QuietRange(log, |log0|, Other(v))
    ensures Installed(k, v, olds) && k.sets == k0.sets && HitlessSteps(log, |log0|, k0.sets, v, olds, news)
  {
    hide Installed, HitlessStep, QuietCmd, Chained, StateAt;
    LogStates(start, log0, k0, log, k);
    QuietRun(start, log, |log0|, |log|, k, v, olds, news);
    QuietKeepsInstalled(k0, k, v, olds);
  }

  lemma IpRulesSoFar(start: Kernel, log0: seq<Step>, k0: Kernel, log: seq<Step>, k: Kernel, family: Family, v: Variant,
                     olds: seq<RouteBinding>, news: seq<RouteBinding>)
    requires Chained(start, log0, k0) && Chained(start, log, k) && log0 <= log
    requires Installed(k0, Other(v), news) && IpRuleSteps(log, |log0|, family)
    ensures Installed(k, Other(v), news) && k.sets == k0.sets && HitlessSteps(log, |log0|, k0.sets, v, olds, news)
  {
    hide HitlessStep, IpRuleStep, Built, Chained, StateAt;
    LogStates(start, log0, k0, log, k);
    assert AllSitesOk(k0, v, olds, news);
    IpRulesRun(start, log, |log0|, |log|, k, family, v, olds, news);
    SameChainsInstalled(k0, k, Other(v), news);
  }

  lemma AllPreparedIntro(k: Kernel, w: Variant)
    requires forall f: Family, kind: Kind :: Prepared(k, w, f, kind)
    ensures AllPrepared(k, w)
  {
  }

  lemma LinkedElim(k: Kernel)
    requires AllLinked(k)
    ensures forall f: Family, kind: Kind :: Linked(k, f, kind)
  {
  }

  lemma LinkedAfterBuild(k: Kernel, k': Kernel, w: Variant)
    requires AllPrepared(k, w) && SameUnowned(k, k', w)
    ensures AllLinked(k')
  {
    hide SameUnowned, Linked;
    forall f: Family, kind: Kind
      ensures Linked(k, f, kind)
    {
      assert Prepared(k, w, f, kind);
    }
    LinkedFrame(k, k', w);
  }

  lemma SameButRootsSets(k: Kernel, k': Kernel)
    requires SameButRoots(k, k')
    ensures SameSetsAndRules(k, k')
  {
  }

  lemma SameUnownedSets(k: Kernel, k': Kernel, w: Variant)
    requires SameUnowned(k, k', w)
    ensures SameSetsAndRules(k, k')
  {
  }

  /** Where the live ruleset is after an apply, for each way it can end. */
  ghost predicate EndsOn(r: ApplyResult, k: Kernel, v: Variant, olds: seq<RouteBinding>, news: seq<RouteBinding>) {
    match r
    case PrepareFailed => Installed(k, v, olds)
    case BindingsFailed => Installed(k, v, olds)
    case SwitchFailed(n) =>
      n < |SITES| && SwitchedUpTo(k, Other(v), n) && AllBuilt(k, v, olds) && AllBuilt(k, Other(v), news)
    case IpRulesFailed => Installed(k, Other(v), news)
    case Applied => Installed(k, Other(v), news)
  }

  /** No stale policy rule has more copies than one apply deletes. */
  ghost predicate FewCopies(k: Kernel, family: Family, desired: map<nat, int>) {
    forall r :: Managed(r) && !Wanted(desired, r) ==> IpRules(k, family)[r] <= DELETE_LIMIT
  }

  ghost predicate RulesReconciled(k: Kernel, family: Family, desired: map<nat, int>) {
    forall r :: Managed(r) ==> (r in IpRules(k, family) <==> Wanted(desired, r))
  }

  /** The managed policy rules are exactly those of the bindings. */
  ghost predicate RulesServe(k: Kernel, family: Family, bs: seq<RouteBinding>) {
    forall r :: Managed(r) ==> (r in IpRules(k, family) <==> HasRoute(bs, r))
  }

  /** Some binding sends the mark of the policy rule to its table. */
  ghost predicate HasRoute(bs: seq<RouteBinding>, r: IpRule) {
    exists i :: 0 <= i < |bs| && bs[i].mark == r.mark && bs[i].routeTable == r.table
  }

  lemma {:induction false} TablesMean(bs: seq<RouteBinding>, m: nat)
    requires forall i, j :: 0 <= i < |bs| && 0 <= j < |bs| && bs[i].mark == bs[j].mark ==> bs[i].routeTable == bs[j].routeTable
    ensures m in DesiredTables(bs) <==> exists i :: 0 <= i < |bs| && bs[i].mark == m
    ensures forall i :: 0 <= i < |bs| && bs[i].mark == m ==> DesiredTables(bs)[m] == bs[i].routeTable
  {
    if bs != [] {
      var n := |bs| - 1;
      assert forall i :: 0 <= i < n ==> bs[..n][i] == bs[i];
      TablesMean(bs[..n], m);
    }
  }

  lemma ReconciledServes(k: Kernel, family: Family, bs: seq<RouteBinding>)
    requires Acceptable(bs) && RulesReconciled(k, family, DesiredTables(bs))
    ensures RulesServe(k, family, bs)
  {
    hide DesiredTables, IpRules, BindingOk;
    forall r | Managed(r)
      ensures r in IpRules(k, family) <==> HasRoute(bs, r)
    {
      TablesMean(bs, r.mark);
      assert Wanted(DesiredTables(bs), r) <==> HasRoute(bs, r);
    }
  }

  lemma ServesSorted(k: Kernel, family: Family, bs: seq<RouteBinding>)
    ensures RulesServe(k, family, SortBindings(bs)) <==> RulesServe(k, family, bs)
  {
    hide SortBindings, IpRules, Managed;
    var sorted := SortBindings(bs);
    assert multiset(sorted) == multiset(bs);
    forall r ensures HasRoute(sorted, r) <==> HasRoute(bs, r) {
      RouteSame(sorted, bs, r);
      RouteSame(bs, sorted, r);
    }
  }

  lemma RouteSame(a: seq<RouteBinding>, b: seq<RouteBinding>, r: IpRule)
    requires multiset(a) == multiset(b)
    ensures HasRoute(a, r) ==> HasRoute(b, r)
  {
    if HasRoute(a, r) {
      var i :| 0 <= i < |a| && a[i].mark == r.mark && a[i].routeTable == r.table;
      assert a[i] in multiset(b);
    }
  }

  lemma FewCopiesSame(k: Kernel, k': Kernel, family: Family, desired: map<nat, int>)
    requires FewCopies(k, family, desired) && IpRules(k', family) == IpRules(k, family)
    ensures FewCopies(k', family, desired)
  {
  }

  lemma QuietForeignSafe(log: seq<Step>, n: nat, w: Variant)
    requires QuietRange(log, n, w)
    ensures ForeignSafeFrom(log, n) && IdleFrom(log, n)
  {
    hide RulePrefix;
  }

  lemma IpRulesForeignSafe(log: seq<Step>, n: nat, family: Family)
    requires IpRuleSteps(log, n, family)
    ensures ForeignSafeFrom(log, n) && forall w :: MovesFrom(log, n, w)
  {
    assert forall i :: n <= i < |log| ==> IpRuleStep(log[i], family);
  }

  lemma MovesJoin(log1: seq<Step>, log2: seq<Step>, n: nat, w: Variant)
    requires n <= |log1| && log1 <= log2 && MovesFrom(log1, n, w) && MovesFrom(log2, |log1|, w)
    ensures MovesFrom(log2, n, w)
  {
    hide MovesRoot;
    forall i | n <= i < |log2|
      ensures MovesRoot(log2[i].cmd, w)
    {
      if i < |log1| { assert log2[i] == log1[i]; }
    }
  }

  /**
    Until `cut` no rule enters a root; from there on generation `w` is complete and
    roots change only by the switch to it.
   */
  ghost predicate Phased(start: Kernel, log: seq<Step>, n: nat, cut: nat, w: Variant, news: seq<RouteBinding>) {
    && n <= cut <= |log| && IdleFrom(log[..cut], n) && MovesFrom(log, cut, w)
    && (cut < |log| ==> AllBuilt(StateAt(start, log, cut), w, news))
  }

  /** Up to `cut` the roots lead at most to what is left of generation `v`. */
  ghost predicate CalmUntil(start: Kernel, log: seq<Step>, n: nat, cut: nat, v: Variant, names: iset<string>) {
    n <= cut <= |log| && Calm(StateAt(start, log, cut), v, names) && CalmSteps(log[..cut], n, v, names)
  }

  lemma CalmCut(start: Kernel, log1: seq<Step>, k1: Kernel, log: seq<Step>, k: Kernel, n: nat, v: Variant, names: iset<string>)
    requires Chained(start, log1, k1) && Chained(start, log, k) && n <= |log1| && log1 <= log
    requires Calm(k1, v, names) && CalmSteps(log1, n, v, names)
    ensures CalmUntil(start, log, n, |log1|, v, names)
  {
    hide Chained, Calm, CalmSteps;
    LogStates(start, log1, k1, log, k);
    assert log[..|log1|] == log1;
  }

  lemma AllSwitched(k: Kernel, w: Variant)
    requires SwitchedUpTo(k, w, |SITES|)
    ensures ReadyUpTo(k, w, |SITES|)
  {
  }

  lemma PhasedEarly(start: Kernel, log: seq<Step>, n: nat, w: Variant, news: seq<RouteBinding>)
    requires n <= |log| && IdleFrom(log, n)
    ensures Phased(start, log, n, |log|, w, news)
  {
    assert log[..|log|] == log;
  }

  lemma PhasedLate(start: Kernel, log1: seq<Step>, k1: Kernel, log: seq<Step>, k: Kernel, n: nat, w: Variant, news: seq<RouteBinding>)
    requires Chained(start, log1, k1) && Chained(start, log, k) && log1 <= log && n <= |log1|
    requires IdleFrom(log1, n) && MovesFrom(log, |log1|, w) && AllBuilt(k1, w, news)
    ensures Phased(start, log, n, |log1|, w, news)
  {
    hide Chained, AllBuilt, IdleCmd, MovesRoot;
    LogStates(start, log1, k1, log, k);
    assert log[..|log1|] == log1;
  }

  lemma ForeignSafeJoin(log1: seq<Step>, log2: seq<Step>, n: nat)
    requires n <= |log1| && log1 <= log2 && ForeignSafeFrom(log1, n) && ForeignSafeFrom(log2, |log1|)
    ensures ForeignSafeFrom(log2, n)
    ensures IdleFrom(log1, n) && IdleFrom(log2, |log1|) ==> IdleFrom(log2, n)
  {
    hide ForeignSafe, IdleCmd;
    forall i | n <= i < |log2|
      ensures ForeignSafe(log2[i].cmd)
      ensures IdleFrom(log1, n) && IdleFrom(log2, |log1|) ==> IdleCmd(log2[i].cmd)
    {
      if i < |log1| { assert log2[i] == log1[i]; }
    }
  }

  /** Reconciles both families. */
  method ReconcileBoth(host: Host, desired: map<nat, int>, ghost v: Variant, ghost olds: seq<RouteBinding>,
                       ghost news: seq<RouteBinding>) returns (ok: bool)
    requires host.Valid() && DesiredManaged(desired)
    modifies host
    ensures host.Valid() && old(host.log) <= host.log && ForeignSafeFrom(host.log, |old(host.log)|)
    ensures forall w :: MovesFrom(host.log, |old(host.log)|, w)
    ensures host.kernel.chains == old(host.kernel).chains && host.kernel.sets == old(host.kernel).sets
    ensures old(Installed(host.kernel, Other(v), news)) ==>
      HitlessSteps(host.log, |old(host.log)|, old(host.kernel).sets, v, olds, news)
    ensures ok && host.listable && old(FewCopies(host.kernel, V4, desired)) && old(FewCopies(host.kernel, V6, desired)) ==>
      RulesReconciled(host.kernel, V4, desired) && RulesReconciled(host.kernel, V6, desired)
    ensures host.Flawless() ==> ok
  {
    hide Chained, Installed, IpRuleStep, HitlessStep, Managed, Wanted, ReconcileSteps, Keeps, ForeignSafe, MovesFrom;
    ghost var k0, log0 := host.kernel, host.log;
    ghost var installed := Installed(k0, Other(v), news);
    ok := Reconcile(host, desired, V4);
    ghost var k1, log1 := host.kernel, host.log;
    IpRulesForeignSafe(log1, |log0|, V4);
    if installed {
      IpRulesSoFar(host.start, log0, k0, log1, k1, V4, v, olds, news);
    }
    if !ok { return; }
    ok := Reconcile(host, desired, V6);
    IpRulesForeignSafe(host.log, |log1|, V6);
    ForeignSafeJoin(log1, host.log, |log0|);
    forall w ensures MovesFrom(host.log, |log0|, w) {
      MovesJoin(log1, host.log, |log0|, w);
    }
    if installed {
      IpRulesSoFar(host.start, log1, k1, host.log, host.kernel, V6, v, olds, news);
      HitlessJoin(log1, host.log, |log0|, k0.sets, v, olds, news);
    }
  }

  datatype NextResult = NextUnprepared | NextUnbuilt | NextReady(desired: map<nat, int>)

  lemma ClearIsIdle(log: seq<Step>, n: nat)
    requires ClearFrom(log, n)
    ensures IdleFrom(log, n)
  {
  }

  lemma ClearJoin(log1: seq<Step>, log2: seq<Step>, n: nat)
    requires n <= |log1| && log1 <= log2 && ClearFrom(log1, n) && ClearFrom(log2, |log1|)
    ensures ClearFrom(log2, n)
  {
    hide ClearCmd;
    forall i | n <= i < |log2|
      ensures ClearCmd(log2[i].cmd)
    {
      if i < |log1| { assert log2[i] == log1[i]; }
    }
  }

  /** A mark root that is calm mentions no generation but `v`. */
  lemma CalmMentions(k: Kernel, v: Variant, names: iset<string>, f: Family, x: Variant)
    requires Calm(k, v, names) && MarkRootMentions(k, f, x)
    ensures x == v
  {
    hide GenCalm;
    assert SiteCalm(k, v, names, f, MarkKind);
  }

  lemma CalmIsReady(k: Kernel, v: Variant, names: iset<string>)
    requires Calm(k, v, names)
    ensures ReadyUpTo(k, Other(v), 0)
  {
    hide GenCalm;
    forall i | 0 <= i < |SITES|
      ensures RootReady(k, SITES[i], Other(v))
    {
      assert SiteCalm(k, v, names, SITES[i].family, SITES[i].kind);
    }
  }

  lemma EmptyIsIdle(k: Kernel)
    requires forall i :: 0 <= i < |SITES| ==> RootIs(k, SITES[i], [])
    ensures AllIdle(k)
  {
    hide SITES;
    forall f: Family, kind: Kind
      ensures RootIdle(k, f, kind)
    {
      var i := SiteIndex(Site(f, kind));
      assert RootIs(k, SITES[i], []);
    }
  }

  /**
    Chooses the generation to build and empties it. `migrating` says that none was
    active; the roots are then emptied as well.
   */
  method PrepareNext(host: Host, ghost v: Variant, ghost names: iset<string>) returns (ok: bool, next: Variant, migrating: bool)
    requires host.Valid()
    modifies host
    ensures host.Valid() && old(host.log) <= host.log && SameSetsAndRules(old(host.kernel), host.kernel)
    ensures ForeignSafeFrom(host.log, |old(host.log)|) && ClearFrom(host.log, |old(host.log)|)
    ensures !migrating ==> QuietRange(host.log, |old(host.log)|, next)
    ensures host.listable && old(ChainIs(host.kernel, RootId(V4, MarkKind), [JumpTo(Gen(MarkKind, v))])) ==> next == Other(v) && !migrating
    ensures old(Calm(host.kernel, v, names)) && !migrating ==> next == Other(v)
    ensures host.listable ==> migrating == old(ActiveVariant(host.kernel)).None?
    ensures host.listable ==> next == (if migrating then A else Other(old(ActiveVariant(host.kernel)).value))
    ensures old(NothingActive(host.kernel)) ==> next == A && migrating
    ensures ok ==> AllPrepared(host.kernel, next) && (migrating ==> AllIdle(host.kernel))
    ensures host.Flawless() && old(ParentsExist(host.kernel)) ==> ok && RootsExist(host.kernel)
  {
    hide Chained, Acceptable, RootsExist, ParentsExist, QuietCmd, ClearCmd, SameButRoots, AllPrepared, ForeignSafe, SITES, MarkRootMentions, Calm, AllIdle, ActiveVariant;
    ghost var k0, log0 := host.kernel, host.log;
    var active := DetectActiveVariant(host);
    next := if active == Some(A) then B else A;
    migrating := active.None?;
    if active.Some? && Calm(k0, v, names) {
      ghost var f :| MarkRootMentions(k0, f, active.value);
      CalmMentions(k0, v, names, f, active.value);
    }
    ok := PrepareAll(host, next);
    ghost var k1, log1 := host.kernel, host.log;
    QuietForeignSafe(log1, |log0|, next);
    if !ok { return; }
    assert AllPrepared(k1, next) by { AllPreparedIntro(k1, next); }
    if migrating {
      ok := FlushRoots(host);
      ForeignSafeJoin(log1, host.log, |log0|);
      ClearJoin(log1, host.log, |log0|);
      SameButRootsSets(k1, host.kernel);
      if !ok { return; }
      PreparedAfterFlush(k1, host.kernel, next);
      EmptyIsIdle(host.kernel);
    }
  }

  /**
    Builds the new ruleset in the generation that is not active, behind roots that
    stay calm if they were.
   */
  method BuildNext(host: Host, sorted: seq<RouteBinding>, ghost v: Variant, ghost olds: seq<RouteBinding>, ghost names: iset<string>)
    returns (r: NextResult, next: Variant, migrating: bool)
    requires host.Valid()
    modifies host
    ensures host.Valid() && old(host.log) <= host.log && SameSetsAndRules(old(host.kernel), host.kernel)
    ensures ForeignSafeFrom(host.log, |old(host.log)|) && IdleFrom(host.log, |old(host.log)|)
    ensures old(Installed(host.kernel, v, olds)) && host.listable ==>
      && next == Other(v) && !migrating && Installed(host.kernel, v, olds)
      && HitlessSteps(host.log, |old(host.log)|, old(host.kernel).sets, v, olds, sorted)
    ensures old(Calm(host.kernel, v, names)) ==>
      CalmSteps(host.log, |old(host.log)|, v, names) && Calm(host.kernel, v, names)
    ensures old(NothingActive(host.kernel)) ==> next == A && migrating
    ensures r.NextReady? ==> AllBuilt(host.kernel, next, sorted) && AllLinked(host.kernel)
    ensures r.NextReady? && (migrating || old(Calm(host.kernel, v, names))) ==> ReadyUpTo(host.kernel, next, 0)
    ensures r.NextReady? ==> r.desired == DesiredTables(sorted) && DesiredManaged(r.desired)
    ensures r.NextReady? ==> Acceptable(sorted)
    ensures host.Flawless() && old(ParentsExist(host.kernel)) ==> RootsExist(host.kernel) && (Acceptable(sorted) ==> r.NextReady?)
  {
    hide Chained, Acceptable, RootsExist, ParentsExist, Installed, HitlessSteps, QuietRange, SameUnowned, AllBuilt, AllPrepared, AllLinked, Calm, CalmSteps, AllIdle,
         ReadyUpTo, ForeignSafeFrom, DesiredTables, DesiredManaged, SITES, NothingActive, IdleFrom, ClearFrom, Ran;
    ghost var k0, log0 := host.kernel, host.log;
    ghost var live, calm := Installed(k0, v, olds) && host.listable, Calm(k0, v, names);
    if live { InstalledRoots(k0, v, olds); }
    var ok;
    ok, next, migrating := PrepareNext(host, v, names);
    ghost var k1, log1 := host.kernel, host.log;
    ClearIsIdle(log1, |log0|);
    if live { QuietSoFar(host.start, log0, k0, log1, k1, v, olds, sorted); }
    if calm { CalmSoFar(host.start, log0, k0, log1, k1, v, names); }
    if !ok { return NextUnprepared, next, migrating; }
    var built := BuildGeneration(host, next, sorted);
    ghost var k2, log2 := host.kernel, host.log;
    SameUnownedSets(k1, k2, next);
    if RootsExist(k1) { UnownedRootsStay(k1, k2, next); }
    QuietForeignSafe(log2, |log1|, next);
    ForeignSafeJoin(log1, log2, |log0|);
    if live {
      QuietSoFar(host.start, log1, k1, log2, k2, v, olds, sorted);
      HitlessJoin(log1, log2, |log0|, k0.sets, v, olds, sorted);
    }
    if calm {
      CalmSoFar(host.start, log1, k1, log2, k2, v, names);
      CalmJoin(log1, log2, |log0|, v, names);
    }
    if built.BuildFailed? { return NextUnbuilt, next, migrating; }
    LinkedAfterBuild(k1, k2, next);
    if migrating {
      UnownedRoots(k1, k2, next);
    } else if calm {
      CalmIsReady(k2, v, names);
    }
    return NextReady(built.desired), next, migrating;
  }

  /**
    Switches the roots to the complete generation `next` and then reconciles the policy
    rules. `live` says that the ruleset `olds` is installed in generation `v`.
   */
  method SwitchAndSync(host: Host, next: Variant, desired: map<nat, int>, ghost news: seq<RouteBinding>,
                       ghost v: Variant, ghost olds: seq<RouteBinding>, ghost live: bool) returns (r: ApplyResult)
    requires host.Valid() && AllBuilt(host.kernel, next, news) && AllLinked(host.kernel) && DesiredManaged(desired)
    requires live ==> next == Other(v) && Installed(host.kernel, v, olds)
    modifies host
    ensures host.Valid() && old(host.log) <= host.log && host.kernel.sets == old(host.kernel).sets
    ensures ForeignSafeFrom(host.log, |old(host.log)|) && MovesFrom(host.log, |old(host.log)|, next)
    ensures r.SwitchFailed? || r.IpRulesFailed? || r.Applied?
    ensures live ==> HitlessSteps(host.log, |old(host.log)|, old(host.kernel).sets, v, olds, news) && EndsOn(r, host.kernel, v, olds, news)
    ensures old(ReadyUpTo(host.kernel, next, 0)) && !r.SwitchFailed? ==> Installed(host.kernel, next, news)
    ensures r.Applied? && host.listable && old(FewCopies(host.kernel, V4, desired)) && old(FewCopies(host.kernel, V6, desired)) ==>
      RulesReconciled(host.kernel, V4, desired) && RulesReconciled(host.kernel, V6, desired)
    ensures host.Flawless() && old(RootsExist(host.kernel)) ==> r.Applied?
  {
    hide Chained, Acceptable, RootsExist, ParentsExist, Installed, HitlessSteps, SameButRoots, AllBuilt, AllLinked, SwitchedUpTo, SwitchingSteps, FewCopies, ReadyUpTo,
         ForeignSafeFrom, RulesReconciled, DesiredManaged, SITES, MovesFrom, Ran;
    ghost var k3, log3 := host.kernel, host.log;
    if live { InstalledRoots(k3, v, olds); }
    var done := SwitchAll(host, next, live);
    ghost var k4, log4 := host.kernel, host.log;
    SameButRootsSets(k3, k4);
    if live {
      AllBuiltFrame(k3, k4, v, olds);
      AllBuiltFrame(k3, k4, next, news);
      SwitchingIsHitless(log4, |log3|, k3, v, olds, news);
    }
    if done < |SITES| { return SwitchFailed(done); }
    if live { AllSwitched(k4, next); }
    ghost var complete := ReadyUpTo(k4, next, |SITES|);
    if complete {
      LinkedElim(k3);
      SwitchedInstalled(k3, k4, next, news);
    }
    var ok := ReconcileBoth(host, desired, v, olds, news);
    ForeignSafeJoin(log4, host.log, |log3|);
    MovesJoin(log4, host.log, |log3|, next);
    if live { HitlessJoin(log4, host.log, |log3|, k3.sets, v, olds, news); }
    if complete { SameChainsInstalled(k4, host.kernel, next, news); }
    if FewCopies(k3, V4, desired) && FewCopies(k3, V6, desired) {
      FewCopiesSame(k3, k4, V4, desired);
      FewCopiesSame(k3, k4, V6, desired);
    }
    r := if ok then Applied else IpRulesFailed;
  }

  /**
    Refreshes the packet filter and the policy rules from the bindings. If the six
    roots jump to generation `v` with the ruleset `olds`, then for every pattern of
    failures each command is hitless, an error before the first switch leaves the
    old ruleset installed, a failed switch leaves each hook on one of the two, and
    success installs the new ruleset in the other generation, ready for the next
    apply. From a filter without an active generation, success installs it in `A`.
    Roots that lead at most to what is left of generation `v` lead nowhere else until
    `cut`, and from there on also to the complete new ruleset.
   */
  method ApplyRules(host: Host, bindings: seq<RouteBinding>, ghost v: Variant, ghost olds: seq<RouteBinding>, ghost names: iset<string>)
    returns (r: ApplyResult, ghost cut: nat, ghost w: Variant)
    requires host.Valid()
    modifies host
    ensures host.Valid() && old(host.log) <= host.log && host.kernel.sets == old(host.kernel).sets
    ensures ForeignSafeFrom(host.log, |old(host.log)|)
    ensures old(Installed(host.kernel, v, olds)) && host.listable ==>
      HitlessSteps(host.log, |old(host.log)|, old(host.kernel).sets, v, olds, SortBindings(bindings))
      && EndsOn(r, host.kernel, v, olds, SortBindings(bindings))
    ensures old(Installed(host.kernel, v, olds)) && host.listable && AllNormalized(olds) && AllNormalized(bindings) ==>
      PacketsHitless(host.log, |old(host.log)|, olds, SortBindings(bindings))
    ensures old(Installed(host.kernel, v, olds)) && host.listable ==> w == Other(v)
    ensures old(NothingActive(host.kernel)) ==> w == A
    ensures (old(NothingActive(host.kernel)) || old(Calm(host.kernel, v, names))) && (r.Applied? || r.IpRulesFailed?) ==>
      Installed(host.kernel, w, SortBindings(bindings))
    ensures old(Calm(host.kernel, v, names)) ==> CalmUntil(host.start, host.log, |old(host.log)|, cut, v, names)
    ensures Phased(host.start, host.log, |old(host.log)|, cut, w, SortBindings(bindings))
    ensures r.PrepareFailed? || r.BindingsFailed? ==> cut == |host.log|
    ensures r.Applied? && host.listable
            && old(FewCopies(host.kernel, V4, DesiredTables(SortBindings(bindings))))
            && old(FewCopies(host.kernel, V6, DesiredTables(SortBindings(bindings)))) ==>
      RulesServe(host.kernel, V4, bindings) && RulesServe(host.kernel, V6, bindings)
    ensures !(r.PrepareFailed? || r.BindingsFailed?) ==> Acceptable(bindings)
    ensures host.Flawless() && old(ParentsExist(host.kernel)) ==> (r.Applied? <==> Acceptable(bindings))
  {
    hide Chained, Acceptable, RootsExist, ParentsExist, RulesServe, Installed, AllBuilt, AllLinked, FewCopies, ForeignSafeFrom, SortBindings, RulesReconciled, DesiredTables,
         DesiredManaged, NothingActive, HitlessSteps, Phased, IdleFrom, MovesFrom, PacketsHitless, AllNormalized, ReadyUpTo,
         Calm, CalmSteps, CalmUntil, Ran, SITES, SwitchedUpTo;
    var sorted := SortBindings(bindings);
    AcceptableSorted(bindings);
    ghost var k0, log0 := host.kernel, host.log;
    ghost var live, calm := Installed(k0, v, olds) && host.listable, Calm(k0, v, names);
    ghost var normal := live && AllNormalized(olds) && AllNormalized(bindings);
    if normal { SortBindingsNormalized(bindings); }
    var built, next, migrating := BuildNext(host, sorted, v, olds, names);
    ghost var k1, log1 := host.kernel, host.log;
    cut, w := |log1|, next;
    PhasedEarly(host.start, log1, |log0|, w, sorted);
    if calm { CalmCut(host.start, log1, k1, log1, k1, |log0|, v, names); }
    if normal { HitlessPackets(log1, |log0|, k0.sets, v, olds, sorted); }
    if built.NextUnprepared? { return PrepareFailed, cut, w; }
    if built.NextUnbuilt? { return BindingsFailed, cut, w; }
    r := SwitchAndSync(host, next, built.desired, sorted, v, olds, live);
    ForeignSafeJoin(log1, host.log, |log0|);
    PhasedLate(host.start, log1, k1, host.log, host.kernel, |log0|, w, sorted);
    if calm { CalmCut(host.start, log1, k1, host.log, host.kernel, |log0|, v, names); }
    if live { HitlessJoin(log1, host.log, |log0|, k0.sets, v, olds, sorted); }
    if normal { HitlessPackets(host.log, |log0|, k0.sets, v, olds, sorted); }
    if FewCopies(k0, V4, built.desired) && FewCopies(k0, V6, built.desired) {
      FewCopiesSame(k0, k1, V4, built.desired);
      FewCopiesSame(k0, k1, V6, built.desired);
      if r.Applied? && host.listable {
        ReconciledServes(host.kernel, V4, sorted);
        ReconciledServes(host.kernel, V6, sorted);
        ServesSorted(host.kernel, V4, bindings);
        ServesSorted(host.kernel, V6, bindings);
      }
    }
  }
}
