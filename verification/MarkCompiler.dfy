/**
  The rule compiler: one binding becomes an ordered chain of RETURN and MARK
  rules, one block for each combination of source interface, source MAC and
  destination port. MARK does not end the traversal of a chain and RETURN leaves
  the chain, so the meaning of the chain depends on the order of its rules.
 */
module MarkCompiler {
  import opened Netfilter
  import opened Hosts
  import opened Bindings
  import opened Ordering

  const ANY_PORT := PortRange(AnyProtocol, 0, 0)

  // ---- Expansion of selectors -----------------------------------------------

  function ExpandPort(port: PortRange): seq<PortRange> {
    if port.protocol.Both?
    then [port.(protocol := TcpOnly), port.(protocol := UdpOnly)]
    else [port]
  }

  function ExpandAll(ports: seq<PortRange>): seq<PortRange> {
    if ports == [] then []
    else ExpandAll(ports[..|ports| - 1]) + ExpandPort(ports[|ports| - 1])
  }

  function ExpandedPorts(ports: seq<PortRange>): seq<PortRange> {
    if ports == [] then [ANY_PORT] else ExpandAll(ports)
  }

  /** A `both` selector becomes a tcp and a udp selector; no selector becomes "any". */
  method ExpandPortSelectors(ports: seq<PortRange>) returns (expanded: seq<PortRange>)
    ensures expanded == ExpandedPorts(ports)
  {
    if |ports| == 0 {
      return [ANY_PORT];
    }
    expanded := [];
    for i := 0 to |ports|
      invariant expanded == ExpandAll(ports[..i])
    {
      assert ports[..i + 1][..i] == ports[..i];
      if ports[i].protocol.Both? {
        expanded := expanded + [ports[i].(protocol := TcpOnly), ports[i].(protocol := UdpOnly)];
      } else {
        expanded := expanded + [ports[i]];
      }
    }
    assert ports[..|ports|] == ports;
  }

  function ExpandedValues(values: seq<string>): seq<string> {
    if values == [] then [""] else SortStrings(values)
  }

  /** Expanding port selectors changes no verdict. */
  lemma {:induction false} ExpandAllMatches(ports: seq<PortRange>, l4: L4)
    ensures SomePort(ExpandAll(ports), l4) <==> SomePort(ports, l4)
  {
    if ports != [] {
      var front, last := ports[..|ports| - 1], ports[|ports| - 1];
      ExpandAllMatches(front, l4);
      SomePortConcat(ExpandAll(front), ExpandPort(last), l4);
      SomePortConcat(front, [last], l4);
      assert ports == front + [last];
      assert SomePort([last], l4) <==> PortMatches(last, l4) by {
        assert [last][0] == last;
      }
      var e := ExpandPort(last);
      assert SomePort(e, l4) <==> PortMatches(last, l4) by {
        assert PortMatches(e[0], l4) ==> SomePort(e, l4);
        assert last.protocol.Both? ==> (PortMatches(e[1], l4) ==> SomePort(e, l4));
      }
    }
  }

  lemma SomePortConcat(a: seq<PortRange>, b: seq<PortRange>, l4: L4)
    ensures SomePort(a + b, l4) <==> SomePort(a, l4) || SomePort(b, l4)
  {
    if SomePort(a, l4) {
      var i :| 0 <= i < |a| && PortMatches(a[i], l4);
      assert (a + b)[i] == a[i];
    }
    if SomePort(b, l4) {
      var i :| 0 <= i < |b| && PortMatches(b[i], l4);
      assert (a + b)[|a| + i] == b[i];
    }
  }

  lemma {:induction false} ExpandAllNormal(ports: seq<PortRange>)
    requires NormalPorts(ports)
    ensures NormalPorts(ExpandAll(ports))
    ensures forall i :: 0 <= i < |ExpandAll(ports)| ==> !ExpandAll(ports)[i].protocol.Both?
  {
    if ports != [] {
      ExpandAllNormal(ports[..|ports| - 1]);
    }
  }

  // ---- The emitted rules ----------------------------------------------------

  /** The upper end of `--dport`, as the port range is printed. */
  function DportHigh(port: PortRange): int {
    if port.end <= 0 || port.end == port.start then port.start else port.end
  }

  function BaseMatches(b: RouteBinding, family: Family, iface: string, mac: string, port: PortRange): seq<Match> {
    (if b.hasSource then [SrcSet(NameFor(b.source, family))] else []) +
    (if b.hasDestination then [DstSet(NameFor(b.destination, family))] else []) +
    (if iface != "" then [InIface(iface)] else []) +
    (if mac != "" then [SrcMac(mac)] else []) +
    (if !port.protocol.AnyProtocol? then [ProtocolIs(port.protocol), DstPort(port.start, DportHigh(port))] else [])
  }

  function PortBoundsEnd(port: PortRange): int {
    if port.end <= 0 then port.start else port.end
  }

  /** Whether an excluded port can concern packets of an included port. */
  predicate PortsOverlap(includePort: PortRange, excludedPort: PortRange) {
    if excludedPort.protocol.AnyProtocol? then false
    else if !includePort.protocol.AnyProtocol? && includePort.protocol != excludedPort.protocol then false
    else if includePort.protocol.AnyProtocol? then true
    else includePort.start <= PortBoundsEnd(excludedPort) && excludedPort.start <= PortBoundsEnd(includePort)
  }

  function PortExclusion(base: seq<Match>, includePort: PortRange, excludedPort: PortRange): Rule {
    Rule(base + (if includePort.protocol.AnyProtocol? then [ProtocolIs(excludedPort.protocol)] else [])
              + [DstPort(excludedPort.start, DportHigh(excludedPort))], Return)
  }

  function PortExclusions(base: seq<Match>, includePort: PortRange, excluded: seq<PortRange>): seq<Rule> {
    if excluded == [] then []
    else
      var last := excluded[|excluded| - 1];
      PortExclusions(base, includePort, excluded[..|excluded| - 1]) +
      (if PortsOverlap(includePort, last) then [PortExclusion(base, includePort, last)] else [])
  }

  function MulticastExclusion(b: RouteBinding, family: Family, base: seq<Match>): seq<Rule> {
    if b.excludeMulticast then [Rule(base + [DstIn(MulticastRange(family))], Return)] else []
  }

  function SourceExclusion(b: RouteBinding, family: Family, base: seq<Match>): seq<Rule> {
    if b.hasExcludedSource then [Rule(base + [SrcSet(NameFor(b.excludedSource, family))], Return)] else []
  }

  function DestinationExclusion(b: RouteBinding, family: Family, base: seq<Match>): seq<Rule> {
    if b.hasExcludedDestination then [Rule(base + [DstSet(NameFor(b.excludedDestination, family))], Return)] else []
  }

  function Exclusions(b: RouteBinding, family: Family, port: PortRange, excluded: seq<PortRange>,
                      base: seq<Match>): seq<Rule> {
    MulticastExclusion(b, family, base) + SourceExclusion(b, family, base) +
    DestinationExclusion(b, family, base) + PortExclusions(base, port, excluded)
  }

  function Block(b: RouteBinding, family: Family, iface: string, mac: string, port: PortRange): seq<Rule> {
    var base := BaseMatches(b, family, iface, mac, port);
    Exclusions(b, family, port, ExpandedPorts(b.excludedDestinationPorts), base) + [Rule(base, SetMark(b.mark))]
  }

  function PortBlocks(b: RouteBinding, family: Family, iface: string, mac: string, ports: seq<PortRange>): seq<Rule> {
    if ports == [] then []
    else PortBlocks(b, family, iface, mac, ports[..|ports| - 1]) + Block(b, family, iface, mac, ports[|ports| - 1])
  }

  function MacBlocks(b: RouteBinding, family: Family, iface: string, macs: seq<string>): seq<Rule> {
    if macs == [] then []
    else
      MacBlocks(b, family, iface, macs[..|macs| - 1]) +
      PortBlocks(b, family, iface, macs[|macs| - 1], ExpandedPorts(b.destinationPorts))
  }

  function IfaceBlocks(b: RouteBinding, family: Family, ifaces: seq<string>): seq<Rule> {
    if ifaces == [] then []
    else
      IfaceBlocks(b, family, ifaces[..|ifaces| - 1]) +
      MacBlocks(b, family, ifaces[|ifaces| - 1], ExpandedValues(b.sourceMacs))
  }

  /** The whole chain of one binding. */
  function Compiled(b: RouteBinding, family: Family): seq<Rule> {
    IfaceBlocks(b, family, ExpandedValues(b.sourceInterfaces))
  }

  // ---- Writing the chain ----------------------------------------------------

  /** The step touched one of the chains `ids` and nothing else. */
  predicate Touches(s: Step, ids: set<ChainId>) {
    IsChainCmd(s.cmd) && s.cmd.id in ids && Ran(s)
  }

  /** A step that appends to one of the chains `ids`. */
  predicate Appends(s: Step, ids: set<ChainId>) {
    s.cmd.AppendRule? && s.cmd.id in ids && Ran(s)
  }

  /** The kernels agree on everything but the chains `ids`. */
  ghost predicate SameBut(k: Kernel, k': Kernel, ids: set<ChainId>) {
    SameSetsAndRules(k, k') && forall id :: id !in ids ==> SameChain(k, k', id)
  }

  /** `k` with `rules` appended to chain `id`. */
  function AppendTo(k: Kernel, id: ChainId, rules: seq<Rule>): (k': Kernel)
    requires id in k.chains
    ensures id in k'.chains
  {
    k.(chains := k.chains[id := k.chains[id] + rules])
  }

  lemma AppendNothing(k: Kernel, id: ChainId)
    requires id in k.chains
    ensures AppendTo(k, id, []) == k
  {
    assert k.chains[id] + [] == k.chains[id];
    assert k.chains[id := k.chains[id]] == k.chains;
  }

  lemma AppendTwice(k: Kernel, id: ChainId, a: seq<Rule>, b: seq<Rule>)
    requires id in k.chains
    ensures AppendTo(AppendTo(k, id, a), id, b) == AppendTo(k, id, a + b)
  {
    assert k.chains[id] + a + b == k.chains[id] + (a + b);
  }

  lemma AppendToSameBut(k: Kernel, id: ChainId, rules: seq<Rule>)
    requires id in k.chains
    ensures SameBut(k, AppendTo(k, id, rules), {id})
  {
  }

  ghost predicate AppendedSteps(log: seq<Step>, n: nat, id: ChainId) {
    forall i :: n <= i < |log| ==> Appends(log[i], {id})
  }

  method AddRule(host: Host, id: ChainId, rule: Rule) returns (ok: bool, ghost added: seq<Rule>)
    requires id in host.kernel.chains
    requires host.Valid()
    modifies host
    ensures host.Valid()
    ensures old(host.log) <= host.log && AppendedSteps(host.log, |old(host.log)|, id)
    ensures host.kernel == AppendTo(old(host.kernel), id, added)
    ensures ok ==> added == [rule]
    ensures host.Flawless() ==> ok
  {
    ok := host.Run(AppendRule(id, rule));
    added := if ok then [rule] else [];
    AppendNothing(old(host.kernel), id);
  }

  /** Adds `rule` when `wanted`, after the rules `done` that were added to `k0` so far. */
  method AddRuleIf(host: Host, id: ChainId, wanted: bool, rule: Rule, ghost k0: Kernel, ghost done: seq<Rule>)
    returns (ok: bool, ghost added: seq<Rule>)
    requires id in k0.chains && host.kernel == AppendTo(k0, id, done)
    requires host.Valid()
    modifies host
    ensures host.Valid()
    ensures old(host.log) <= host.log && AppendedSteps(host.log, |old(host.log)|, id)
    ensures host.kernel == AppendTo(k0, id, added)
    ensures ok ==> added == done + (if wanted then [rule] else [])
    ensures host.Flawless() ==> ok
  {
    ok, added := true, done;
    assert done == done + [];
    if wanted {
      ghost var last;
      ok, last := AddRule(host, id, rule);
      AppendTwice(k0, id, done, last);
      added := done + last;
    }
  }

  method AddPortExclusions(host: Host, id: ChainId, port: PortRange, excluded: seq<PortRange>, base: seq<Match>,
                           ghost k0: Kernel, ghost done: seq<Rule>)
    returns (ok: bool, ghost added: seq<Rule>)
    requires id in k0.chains && host.kernel == AppendTo(k0, id, done)
    requires host.Valid()
    modifies host
    ensures host.Valid()
    ensures old(host.log) <= host.log && AppendedSteps(host.log, |old(host.log)|, id)
    ensures host.kernel == AppendTo(k0, id, added)
    ensures ok ==> added == done + PortExclusions(base, port, excluded)
    ensures host.Flawless() ==> ok
  {
    hide Chained, AppendTo, PortExclusion, PortsOverlap, Ran;
    ok, added := true, done;
    for i := 0 to |excluded|
      invariant host.Valid() && old(host.log) <= host.log && AppendedSteps(host.log, |old(host.log)|, id)
      invariant ok && host.kernel == AppendTo(k0, id, added)
      invariant added == done + PortExclusions(base, port, excluded[..i])
    {
      assert excluded[..i + 1][..i] == excluded[..i];
      ok, added := AddRuleIf(host, id, PortsOverlap(port, excluded[i]), PortExclusion(base, port, excluded[i]), k0, added);
      if !ok { return; }
    }
    assert excluded[..|excluded|] == excluded;
  }

  method AddExclusionRulesByFamily(host: Host, id: ChainId, b: RouteBinding, port: PortRange,
                                   excluded: seq<PortRange>, base: seq<Match>)
    returns (ok: bool, ghost added: seq<Rule>)
    requires id in host.kernel.chains
    requires host.Valid()
    modifies host
    ensures host.Valid()
    ensures old(host.log) <= host.log && AppendedSteps(host.log, |old(host.log)|, id)
    ensures host.kernel == AppendTo(old(host.kernel), id, added)
    ensures ok ==> added == Exclusions(b, id.family, port, excluded, base)
    ensures host.Flawless() ==> ok
  {
    hide Chained, AppendTo, MulticastRange, NameFor, PortExclusions, Ran;
    ghost var k0 := host.kernel;
    AppendNothing(k0, id);
    ok, added := AddRuleIf(host, id, b.excludeMulticast,
                           Rule(base + [DstIn(MulticastRange(id.family))], Return), k0, []);
    if !ok { return; }
    ok, added := AddRuleIf(host, id, b.hasExcludedSource,
                           Rule(base + [SrcSet(NameFor(b.excludedSource, id.family))], Return), k0, added);
    if !ok { return; }
    ok, added := AddRuleIf(host, id, b.hasExcludedDestination,
                           Rule(base + [DstSet(NameFor(b.excludedDestination, id.family))], Return), k0, added);
    if !ok { return; }
    ok, added := AddPortExclusions(host, id, port, excluded, base, k0, added);
  }

  method AddBlock(host: Host, id: ChainId, b: RouteBinding, iface: string, mac: string, port: PortRange,
                  excluded: seq<PortRange>) returns (ok: bool, ghost added: seq<Rule>)
    requires id in host.kernel.chains && excluded == ExpandedPorts(b.excludedDestinationPorts)
    requires host.Valid()
    modifies host
    ensures host.Valid()
    ensures old(host.log) <= host.log && AppendedSteps(host.log, |old(host.log)|, id)
    ensures host.kernel == AppendTo(old(host.kernel), id, added)
    ensures ok ==> added == Block(b, id.family, iface, mac, port)
    ensures host.Flawless() ==> ok
  {
    hide Chained, AppendTo, BaseMatches, Exclusions, ExpandedPorts, Ran;
    var base := BaseMatches(b, id.family, iface, mac, port);
    ok, added := AddExclusionRulesByFamily(host, id, b, port, excluded, base);
    if ok {
      ok, added := AddRuleIf(host, id, true, Rule(base, SetMark(b.mark)), old(host.kernel), added);
    }
  }

  method AddPortBlocks(host: Host, id: ChainId, b: RouteBinding, iface: string, mac: string,
                       ports: seq<PortRange>, excluded: seq<PortRange>) returns (ok: bool, ghost added: seq<Rule>)
    requires id in host.kernel.chains && excluded == ExpandedPorts(b.excludedDestinationPorts)
    requires host.Valid()
    modifies host
    ensures host.Valid()
    ensures old(host.log) <= host.log && AppendedSteps(host.log, |old(host.log)|, id)
    ensures host.kernel == AppendTo(old(host.kernel), id, added)
    ensures ok ==> added == PortBlocks(b, id.family, iface, mac, ports)
    ensures host.Flawless() ==> ok
  {
    hide Chained, AppendTo, Block, ExpandedPorts, Ran;
    ghost var k0 := host.kernel;
    ok, added := true, [];
    AppendNothing(k0, id);
    for q := 0 to |ports|
      invariant host.Valid() && old(host.log) <= host.log && AppendedSteps(host.log, |old(host.log)|, id)
      invariant ok && host.kernel == AppendTo(k0, id, added)
      invariant added == PortBlocks(b, id.family, iface, mac, ports[..q])
    {
      assert ports[..q + 1][..q] == ports[..q];
      ghost var more;
      ok, more := AddBlock(host, id, b, iface, mac, ports[q], excluded);
      AppendTwice(k0, id, added, more);
      added := added + more;
      if !ok { return; }
    }
    assert ports[..|ports|] == ports;
  }

  method AddMacBlocks(host: Host, id: ChainId, b: RouteBinding, iface: string, macs: seq<string>,
                      ports: seq<PortRange>, excluded: seq<PortRange>) returns (ok: bool, ghost added: seq<Rule>)
    requires id in host.kernel.chains
    requires ports == ExpandedPorts(b.destinationPorts) && excluded == ExpandedPorts(b.excludedDestinationPorts)
    requires host.Valid()
    modifies host
    ensures host.Valid()
    ensures old(host.log) <= host.log && AppendedSteps(host.log, |old(host.log)|, id)
    ensures host.kernel == AppendTo(old(host.kernel), id, added)
    ensures ok ==> added == MacBlocks(b, id.family, iface, macs)
    ensures host.Flawless() ==> ok
  {
    hide Chained, AppendTo, PortBlocks, ExpandedPorts, Ran;
    ghost var k0 := host.kernel;
    ok, added := true, [];
    AppendNothing(k0, id);
    for j := 0 to |macs|
      invariant host.Valid() && old(host.log) <= host.log && AppendedSteps(host.log, |old(host.log)|, id)
      invariant ok && host.kernel == AppendTo(k0, id, added)
      invariant added == MacBlocks(b, id.family, iface, macs[..j])
    {
      assert macs[..j + 1][..j] == macs[..j];
      ghost var more;
      ok, more := AddPortBlocks(host, id, b, iface, macs[j], ports, excluded);
      AppendTwice(k0, id, added, more);
      added := added + more;
      if !ok { return; }
    }
    assert macs[..|macs|] == macs;
  }

  /** The loop over interfaces around the loops over MACs and ports. */
  method AddBlocks(host: Host, id: ChainId, b: RouteBinding) returns (ok: bool, ghost added: seq<Rule>)
    requires id in host.kernel.chains
    requires host.Valid()
    modifies host
    ensures host.Valid()
    ensures old(host.log) <= host.log && AppendedSteps(host.log, |old(host.log)|, id)
    ensures host.kernel == AppendTo(old(host.kernel), id, added)
    ensures ok ==> added == Compiled(b, id.family)
    ensures host.Flawless() ==> ok
  {
    hide Chained, AppendTo, MacBlocks, ExpandedPorts, ExpandedValues, Ran;
    var ports := ExpandPortSelectors(b.destinationPorts);
    var excluded := ExpandPortSelectors(b.excludedDestinationPorts);
    var ifaces, macs := ExpandedValues(b.sourceInterfaces), ExpandedValues(b.sourceMacs);
    ghost var k0 := host.kernel;
    ok, added := true, [];
    AppendNothing(k0, id);
    for i := 0 to |ifaces|
      invariant host.Valid() && old(host.log) <= host.log && AppendedSteps(host.log, |old(host.log)|, id)
      invariant ok && host.kernel == AppendTo(k0, id, added)
      invariant added == IfaceBlocks(b, id.family, ifaces[..i])
    {
      assert ifaces[..i + 1][..i] == ifaces[..i];
      ghost var more;
      ok, more := AddMacBlocks(host, id, b, ifaces[i], macs, ports, excluded);
      AppendTwice(k0, id, added, more);
      added := added + more;
      if !ok { return; }
    }
    assert ifaces[..|ifaces|] == ifaces;
  }

  ghost predicate TouchedSteps(log: seq<Step>, n: nat, ids: set<ChainId>) {
    forall i :: n <= i < |log| ==> Touches(log[i], ids) && !log[i].cmd.DeleteRule?
  }

  /** Creates the chain, or empties it when it exists. */
  method EmptyChain(host: Host, id: ChainId) returns (ok: bool)
    requires host.Valid()
    modifies host
    ensures host.Valid()
    ensures old(host.log) <= host.log && TouchedSteps(host.log, |old(host.log)|, {id})
    ensures SameBut(old(host.kernel), host.kernel, {id})
    ensures ok ==> id in host.kernel.chains && host.kernel.chains[id] == []
    ensures host.Flawless() ==> ok
  {
    hide Chained;
    ok := host.Run(NewChain(id));
    if !ok {
      var _ := host.Run(FlushChain(id));
    }
    ok := host.Run(FlushChain(id));
  }

  lemma SameButTransitive(k: Kernel, k': Kernel, k'': Kernel, a: set<ChainId>, b: set<ChainId>, c: set<ChainId>)
    requires SameBut(k, k', a) && SameBut(k', k'', b) && a + b <= c
    ensures SameBut(k, k'', c)
  {
    forall id | id !in c
      ensures SameChain(k, k'', id)
    {
      assert SameChain(k, k', id) && SameChain(k', k'', id);
    }
  }

  /**
    Creates (or empties) the chain of a binding, links it into its generation and
    fills it.
   */
  method AddMarkRulesByFamily(host: Host, family: Family, variant: Variant, b: RouteBinding, index: nat)
    returns (ok: bool)
    requires host.Valid()
    modifies host
    ensures host.Valid()
    ensures old(host.log) <= host.log
    ensures TouchedSteps(host.log, |old(host.log)|, {RuleChainId(variant, index, family), MarkGenId(variant, family)})
    ensures SameBut(old(host.kernel), host.kernel, {RuleChainId(variant, index, family), MarkGenId(variant, family)})
    ensures ok ==>
      && RuleChainId(variant, index, family) in host.kernel.chains
      && host.kernel.chains[RuleChainId(variant, index, family)] == Compiled(b, family)
      && MarkGenId(variant, family) in old(host.kernel).chains
      && MarkGenId(variant, family) in host.kernel.chains
      && host.kernel.chains[MarkGenId(variant, family)]
         == old(host.kernel).chains[MarkGenId(variant, family)] + [JumpTo(RuleChain(variant, index, family))]
    ensures host.Flawless() && MarkGenId(variant, family) in old(host.kernel).chains ==> ok
  {
    hide Chained, Compiled, SameBut;
    var id, gen := RuleChainId(variant, index, family), MarkGenId(variant, family);
    ghost var k0 := host.kernel;
    ok := EmptyChain(host, id);
    ghost var k1 := host.kernel;
    assert SameChain(k0, k1, gen) by { SameButElsewhere(k0, k1, {id}, gen); }
    SameButItself(k1);
    SameButTransitive(k0, k1, k1, {id}, {}, {id, gen});
    if !ok { return; }
    ok := host.Run(AppendRule(gen, JumpTo(RuleChain(variant, index, family))));
    if !ok { return; }
    ghost var k2 := host.kernel;
    assert k2 == AppendTo(k1, gen, [JumpTo(RuleChain(variant, index, family))]);
    AppendToSameBut(k1, gen, [JumpTo(RuleChain(variant, index, family))]);
    SameButTransitive(k0, k1, k2, {id}, {gen}, {id, gen});
    ghost var added;
    ok, added := AddBlocks(host, id, b);
    AppendToSameBut(k2, id, added);
    SameButTransitive(k0, k2, host.kernel, {id, gen}, {id}, {id, gen});
    assert [] + added == added;
  }

  lemma SameButItself(k: Kernel)
    ensures SameBut(k, k, {})
  {
  }

  lemma SameButElsewhere(k: Kernel, k': Kernel, ids: set<ChainId>, id: ChainId)
    requires SameBut(k, k', ids) && id !in ids
    ensures SameChain(k, k', id)
  {
  }

  function RuleChainId(variant: Variant, index: nat, family: Family): ChainId {
    ChainId(family, Mangle, RuleChain(variant, index, family))
  }

  function MarkGenId(variant: Variant, family: Family): ChainId {
    ChainId(family, Mangle, Gen(MarkKind, variant))
  }
}
