/**
  Compiler correctness: running the chain emitted for a binding marks exactly the
  packets that the binding routes, and leaves the state of every other packet alone.
 */
module MarkCorrectness {
  import opened Netfilter
  import opened Bindings
  import opened MarkCompiler

  // ---- Segments of a chain --------------------------------------------------

  /** Rules that only return, exactly when `c` and `x` hold. */
  ghost predicate Guards(k: Kernel, rules: seq<Rule>, p: Packet, c: bool, x: bool) {
    forall st, depth :: RunRules(k, p.family, Mangle, rules, p, st, depth) == if c && x then Back(st) else Next(st)
  }

  /** Rules that, when `c` holds, return if `x` holds and mark the packet otherwise. */
  ghost predicate Selects(k: Kernel, rules: seq<Rule>, p: Packet, c: bool, x: bool, mark: nat) {
    forall st, depth :: RunRules(k, p.family, Mangle, rules, p, st, depth)
                     == if !c then Next(st) else if x then Back(st) else Next(st.(mark := mark))
  }

  lemma GuardsConcat(k: Kernel, a: seq<Rule>, b: seq<Rule>, p: Packet, c: bool, x: bool, y: bool)
    requires Guards(k, a, p, c, x) && Guards(k, b, p, c, y)
    ensures Guards(k, a + b, p, c, x || y)
  {
    forall st, depth
      ensures RunRules(k, p.family, Mangle, a + b, p, st, depth) == if c && (x || y) then Back(st) else Next(st)
    {
      RunAppend(k, p.family, Mangle, a, b, p, st, depth);
    }
  }

  lemma SelectsConcat(k: Kernel, a: seq<Rule>, b: seq<Rule>, p: Packet, c: bool, d: bool, x: bool, mark: nat)
    requires Selects(k, a, p, c, x, mark) && Selects(k, b, p, d, x, mark)
    ensures Selects(k, a + b, p, c || d, x, mark)
  {
    forall st, depth
      ensures RunRules(k, p.family, Mangle, a + b, p, st, depth)
           == if !(c || d) then Next(st) else if x then Back(st) else Next(st.(mark := mark))
    {
      RunAppend(k, p.family, Mangle, a, b, p, st, depth);
    }
  }

  lemma AllHoldConcat(a: seq<Match>, b: seq<Match>, sets: map<string, IpSet>, p: Packet, st: PacketState)
    ensures AllHold(a + b, sets, p, st) <==> AllHold(a, sets, p, st) && AllHold(b, sets, p, st)
  {
    if AllHold(a + b, sets, p, st) {
      forall i | 0 <= i < |a| ensures Holds(a[i], sets, p, st) { assert (a + b)[i] == a[i]; }
      forall i | 0 <= i < |b| ensures Holds(b[i], sets, p, st) { assert (a + b)[|a| + i] == b[i]; }
    }
  }

  lemma AllHoldOne(m: Match, sets: map<string, IpSet>, p: Packet, st: PacketState)
    ensures AllHold([m], sets, p, st) <==> Holds(m, sets, p, st)
  {
    assert [m][0] == m;
  }

  // ---- The condition of one block -------------------------------------------

  ghost predicate SetsHold(b: RouteBinding, sets: map<string, IpSet>, p: Packet) {
    && (b.hasSource ==> InSet(sets, NameFor(b.source, p.family), p.src))
    && (b.hasDestination ==> InSet(sets, NameFor(b.destination, p.family), p.dst))
  }

  predicate IfaceOk(iface: string, p: Packet) {
    iface == "" || IfaceMatches(iface, p.inIface)
  }

  predicate MacOk(mac: string, p: Packet) {
    mac == "" || mac == p.mac
  }

  predicate PortOk(port: PortRange, p: Packet) {
    port.protocol.AnyProtocol? ||
    (ProtocolMatches(port.protocol, p.l4) && !p.l4.OtherL4? && port.start <= p.l4.port <= DportHigh(port))
  }

  ghost predicate BaseHolds(b: RouteBinding, sets: map<string, IpSet>, p: Packet,
                            iface: string, mac: string, port: PortRange) {
    SetsHold(b, sets, p) && IfaceOk(iface, p) && MacOk(mac, p) && PortOk(port, p)
  }

  lemma BaseMeaning(b: RouteBinding, sets: map<string, IpSet>, p: Packet, st: PacketState,
                    iface: string, mac: string, port: PortRange)
    ensures AllHold(BaseMatches(b, p.family, iface, mac, port), sets, p, st)
       <==> BaseHolds(b, sets, p, iface, mac, port)
  {
    hide AllHold, InSet, IfaceMatches, NameFor;
    var s := if b.hasSource then [SrcSet(NameFor(b.source, p.family))] else [];
    var d := if b.hasDestination then [DstSet(NameFor(b.destination, p.family))] else [];
    var i := if iface != "" then [InIface(iface)] else [];
    var m := if mac != "" then [SrcMac(mac)] else [];
    var q := if !port.protocol.AnyProtocol? then [ProtocolIs(port.protocol), DstPort(port.start, DportHigh(port))] else [];
    AllHoldConcat(s + d + i + m, q, sets, p, st);
    AllHoldConcat(s + d + i, m, sets, p, st);
    AllHoldConcat(s + d, i, sets, p, st);
    AllHoldConcat(s, d, sets, p, st);
    AllHoldNone(sets, p, st);
    AllHoldOne(SrcSet(NameFor(b.source, p.family)), sets, p, st);
    AllHoldOne(DstSet(NameFor(b.destination, p.family)), sets, p, st);
    AllHoldOne(InIface(iface), sets, p, st);
    AllHoldOne(SrcMac(mac), sets, p, st);
    PortMeaning(port, sets, p, st);
  }

  lemma AllHoldNone(sets: map<string, IpSet>, p: Packet, st: PacketState)
    ensures AllHold([], sets, p, st)
  {
  }

  lemma PortMeaning(port: PortRange, sets: map<string, IpSet>, p: Packet, st: PacketState)
    ensures !port.protocol.AnyProtocol? ==>
      (AllHold([ProtocolIs(port.protocol), DstPort(port.start, DportHigh(port))], sets, p, st) <==> PortOk(port, p))
  {
    var a, b := ProtocolIs(port.protocol), DstPort(port.start, DportHigh(port));
    AllHoldConcat([a], [b], sets, p, st);
    assert [a, b] == [a] + [b];
    AllHoldOne(a, sets, p, st);
    AllHoldOne(b, sets, p, st);
  }

  /** A RETURN rule that adds `extra` to the matches of its block. */
  lemma ReturnGuards(k: Kernel, b: RouteBinding, p: Packet, iface: string, mac: string, port: PortRange,
                     extra: seq<Match>, x: bool)
    requires forall st :: AllHold(extra, k.sets, p, st) <==> x
    ensures Guards(k, [Rule(BaseMatches(b, p.family, iface, mac, port) + extra, Return)], p,
                   BaseHolds(b, k.sets, p, iface, mac, port), x)
  {
    var base := BaseMatches(b, p.family, iface, mac, port);
    var r := Rule(base + extra, Return);
    forall st, depth
      ensures RunRules(k, p.family, Mangle, [r], p, st, depth)
           == if BaseHolds(b, k.sets, p, iface, mac, port) && x then Back(st) else Next(st)
    {
      RunOne(k, p.family, Mangle, r, p, st, depth);
      BaseMeaning(b, k.sets, p, st, iface, mac, port);
      AllHoldConcat(base, extra, k.sets, p, st);
    }
  }

  lemma NoGuards(k: Kernel, p: Packet, c: bool)
    ensures Guards(k, [], p, c, false)
  {
  }

  // ---- Excluded ports -------------------------------------------------------

  /**
    The RETURN rule emitted for an excluded port fires exactly on the packets of
    that port, and a RETURN rule that the overlap test drops could not have fired.
   */
  lemma PortExclusionFires(port: PortRange, e: PortRange, p: Packet)
    requires NormalPort(e) && !e.protocol.Both?
    requires PortOk(port, p)
    requires port == ANY_PORT || (NormalPort(port) && !port.protocol.Both?)
    ensures PortMatches(e, p.l4) ==> PortsOverlap(port, e)
    ensures PortsOverlap(port, e) ==>
      (PortMatches(e, p.l4) <==>
        (port.protocol.AnyProtocol? ==> ProtocolMatches(e.protocol, p.l4))
        && !p.l4.OtherL4? && e.start <= p.l4.port <= DportHigh(e))
  {
  }

  lemma {:induction false} PortExclusionsGuard(k: Kernel, b: RouteBinding, p: Packet, iface: string, mac: string,
                                               port: PortRange, excluded: seq<PortRange>)
    requires port == ANY_PORT || (NormalPort(port) && !port.protocol.Both?)
    requires NormalPorts(excluded) && forall i :: 0 <= i < |excluded| ==> !excluded[i].protocol.Both?
    ensures Guards(k, PortExclusions(BaseMatches(b, p.family, iface, mac, port), port, excluded), p,
                   BaseHolds(b, k.sets, p, iface, mac, port), SomePort(excluded, p.l4))
  {
    var base, c := BaseMatches(b, p.family, iface, mac, port), BaseHolds(b, k.sets, p, iface, mac, port);
    if excluded == [] {
      NoGuards(k, p, c);
    } else {
      var front, e := excluded[..|excluded| - 1], excluded[|excluded| - 1];
      PortExclusionsGuard(k, b, p, iface, mac, port, front);
      assert excluded == front + [e];
      SomePortConcat(front, [e], p.l4);
      assert SomePort([e], p.l4) <==> PortMatches(e, p.l4) by { assert [e][0] == e; }
      if c {
        PortExclusionFires(port, e, p);
      }
      if PortsOverlap(port, e) {
        var pre := if port.protocol.AnyProtocol? then [ProtocolIs(e.protocol)] else [];
        var dport := DstPort(e.start, DportHigh(e));
        var x := (port.protocol.AnyProtocol? ==> ProtocolMatches(e.protocol, p.l4))
                 && !p.l4.OtherL4? && e.start <= p.l4.port <= DportHigh(e);
        forall st
          ensures AllHold(pre + [dport], k.sets, p, st) <==> x
        {
          AllHoldConcat(pre, [dport], k.sets, p, st);
          AllHoldOne(ProtocolIs(e.protocol), k.sets, p, st);
          AllHoldOne(dport, k.sets, p, st);
        }
        ReturnGuards(k, b, p, iface, mac, port, pre + [dport], x);
        assert base + pre + [dport] == base + (pre + [dport]);
        GuardsConcat(k, PortExclusions(base, port, front), [PortExclusion(base, port, e)], p, c,
                     SomePort(front, p.l4), x);
      } else {
        assert PortExclusions(base, port, front) + [] == PortExclusions(base, port, front);
      }
    }
  }

  lemma ExcludedPortsGuard(k: Kernel, b: RouteBinding, p: Packet, iface: string, mac: string, port: PortRange)
    requires Normalized(b)
    requires port == ANY_PORT || (NormalPort(port) && !port.protocol.Both?)
    ensures Guards(k, PortExclusions(BaseMatches(b, p.family, iface, mac, port), port,
                                     ExpandedPorts(b.excludedDestinationPorts)), p,
                   BaseHolds(b, k.sets, p, iface, mac, port), SomePort(b.excludedDestinationPorts, p.l4))
  {
    var excluded := b.excludedDestinationPorts;
    if excluded == [] {
      assert [ANY_PORT][..0] == [];
      assert PortExclusions(BaseMatches(b, p.family, iface, mac, port), port, [ANY_PORT]) == [];
      NoGuards(k, p, BaseHolds(b, k.sets, p, iface, mac, port));
    } else {
      ExpandAllNormal(excluded);
      ExpandAllMatches(excluded, p.l4);
      PortExclusionsGuard(k, b, p, iface, mac, port, ExpandAll(excluded));
    }
  }

  // ---- Blocks ---------------------------------------------------------------

  lemma ExclusionsGuard(k: Kernel, b: RouteBinding, p: Packet, iface: string, mac: string, port: PortRange)
    requires Normalized(b) && WellFormed(p)
    requires port == ANY_PORT || (NormalPort(port) && !port.protocol.Both?)
    ensures Guards(k, Exclusions(b, p.family, port, ExpandedPorts(b.excludedDestinationPorts),
                                 BaseMatches(b, p.family, iface, mac, port)), p,
                   BaseHolds(b, k.sets, p, iface, mac, port), ExcludedBy(b, k.sets, p))
  {
    var base, c := BaseMatches(b, p.family, iface, mac, port), BaseHolds(b, k.sets, p, iface, mac, port);
    var xm := b.excludeMulticast && IsMulticast(p.dst);
    var xs := b.hasExcludedSource && InSet(k.sets, NameFor(b.excludedSource, p.family), p.src);
    var xd := b.hasExcludedDestination && InSet(k.sets, NameFor(b.excludedDestination, p.family), p.dst);
    var m, s, d := MulticastExclusion(b, p.family, base), SourceExclusion(b, p.family, base),
                   DestinationExclusion(b, p.family, base);
    NoGuards(k, p, c);
    assert Guards(k, m, p, c, xm) by {
      MulticastRangeIsMulticast(p.dst);
      forall st { AllHoldOne(DstIn(MulticastRange(p.family)), k.sets, p, st); }
      ReturnGuards(k, b, p, iface, mac, port, [DstIn(MulticastRange(p.family))], IsMulticast(p.dst));
    }
    assert Guards(k, s, p, c, xs) by {
      forall st { AllHoldOne(SrcSet(NameFor(b.excludedSource, p.family)), k.sets, p, st); }
      ReturnGuards(k, b, p, iface, mac, port, [SrcSet(NameFor(b.excludedSource, p.family))],
                   InSet(k.sets, NameFor(b.excludedSource, p.family), p.src));
    }
    assert Guards(k, d, p, c, xd) by {
      forall st { AllHoldOne(DstSet(NameFor(b.excludedDestination, p.family)), k.sets, p, st); }
      ReturnGuards(k, b, p, iface, mac, port, [DstSet(NameFor(b.excludedDestination, p.family))],
                   InSet(k.sets, NameFor(b.excludedDestination, p.family), p.dst));
    }
    ExcludedPortsGuard(k, b, p, iface, mac, port);
    GuardsConcat(k, m, s, p, c, xm, xs);
    GuardsConcat(k, m + s, d, p, c, xm || xs, xd);
    GuardsConcat(k, m + s + d, PortExclusions(base, port, ExpandedPorts(b.excludedDestinationPorts)), p, c,
                 xm || xs || xd, SomePort(b.excludedDestinationPorts, p.l4));
  }

  /** One block marks its packets unless the binding excludes them; then it returns. */
  lemma BlockSelects(k: Kernel, b: RouteBinding, p: Packet, iface: string, mac: string, port: PortRange)
    requires Normalized(b) && WellFormed(p)
    requires port == ANY_PORT || (NormalPort(port) && !port.protocol.Both?)
    ensures Selects(k, Block(b, p.family, iface, mac, port), p,
                    BaseHolds(b, k.sets, p, iface, mac, port), ExcludedBy(b, k.sets, p), b.mark)
  {
    var base := BaseMatches(b, p.family, iface, mac, port);
    var ex := Exclusions(b, p.family, port, ExpandedPorts(b.excludedDestinationPorts), base);
    var r := Rule(base, SetMark(b.mark));
    ExclusionsGuard(k, b, p, iface, mac, port);
    forall st, depth
      ensures RunRules(k, p.family, Mangle, Block(b, p.family, iface, mac, port), p, st, depth)
           == if !BaseHolds(b, k.sets, p, iface, mac, port) then Next(st)
              else if ExcludedBy(b, k.sets, p) then Back(st) else Next(st.(mark := b.mark))
    {
      RunAppend(k, p.family, Mangle, ex, [r], p, st, depth);
      RunOne(k, p.family, Mangle, r, p, st, depth);
      BaseMeaning(b, k.sets, p, st, iface, mac, port);
    }
  }

  // ---- The triple loop ------------------------------------------------------

  predicate SomePortOk(ports: seq<PortRange>, p: Packet) {
    exists i :: 0 <= i < |ports| && PortOk(ports[i], p)
  }

  predicate SomeMacOk(macs: seq<string>, p: Packet) {
    exists i :: 0 <= i < |macs| && MacOk(macs[i], p)
  }

  predicate SomeIfaceOk(ifaces: seq<string>, p: Packet) {
    exists i :: 0 <= i < |ifaces| && IfaceOk(ifaces[i], p)
  }

  lemma SomePortSnoc(ports: seq<PortRange>, p: Packet)
    ensures SomePortOk(ports, p) <==> ports != [] && (SomePortOk(ports[..|ports| - 1], p) || PortOk(ports[|ports| - 1], p))
  {
    hide PortOk;
    if ports != [] && SomePortOk(ports[..|ports| - 1], p) {
      var i :| 0 <= i < |ports| - 1 && PortOk(ports[..|ports| - 1][i], p);
      assert PortOk(ports[i], p);
    }
    if i :| 0 <= i < |ports| && PortOk(ports[i], p) {
      assert i < |ports| - 1 ==> ports[..|ports| - 1][i] == ports[i];
    }
  }

  lemma SomeMacSnoc(macs: seq<string>, p: Packet)
    ensures SomeMacOk(macs, p) <==> macs != [] && (SomeMacOk(macs[..|macs| - 1], p) || MacOk(macs[|macs| - 1], p))
  {
    hide MacOk;
    if macs != [] && SomeMacOk(macs[..|macs| - 1], p) {
      var i :| 0 <= i < |macs| - 1 && MacOk(macs[..|macs| - 1][i], p);
      assert MacOk(macs[i], p);
    }
    if i :| 0 <= i < |macs| && MacOk(macs[i], p) {
      assert i < |macs| - 1 ==> macs[..|macs| - 1][i] == macs[i];
    }
  }

  lemma SomeIfaceSnoc(ifaces: seq<string>, p: Packet)
    ensures SomeIfaceOk(ifaces, p) <==> ifaces != [] && (SomeIfaceOk(ifaces[..|ifaces| - 1], p) || IfaceOk(ifaces[|ifaces| - 1], p))
  {
    hide IfaceOk;
    if ifaces != [] && SomeIfaceOk(ifaces[..|ifaces| - 1], p) {
      var i :| 0 <= i < |ifaces| - 1 && IfaceOk(ifaces[..|ifaces| - 1][i], p);
      assert IfaceOk(ifaces[i], p);
    }
    if i :| 0 <= i < |ifaces| && IfaceOk(ifaces[i], p) {
      assert i < |ifaces| - 1 ==> ifaces[..|ifaces| - 1][i] == ifaces[i];
    }
  }

  lemma SelectsNothing(k: Kernel, p: Packet, x: bool, mark: nat)
    ensures Selects(k, [], p, false, x, mark)
  {
  }

  lemma {:induction false} PortBlocksSelect(k: Kernel, b: RouteBinding, p: Packet, iface: string, mac: string,
                                            ports: seq<PortRange>)
    requires Normalized(b) && WellFormed(p)
    requires forall i :: 0 <= i < |ports| ==>
      ports[i] == ANY_PORT || (NormalPort(ports[i]) && !ports[i].protocol.Both?)
    ensures Selects(k, PortBlocks(b, p.family, iface, mac, ports), p,
                    SetsHold(b, k.sets, p) && IfaceOk(iface, p) && MacOk(mac, p) && SomePortOk(ports, p),
                    ExcludedBy(b, k.sets, p), b.mark)
  {
    hide Selects, SetsHold, ExcludedBy, Normalized, WellFormed, PortOk, MacOk, IfaceOk, SomePortOk, SomeMacOk, SomeIfaceOk, Block;
    SomePortSnoc(ports, p);
    SelectsNothing(k, p, ExcludedBy(b, k.sets, p), b.mark);
    if ports != [] {
      var front, last := ports[..|ports| - 1], ports[|ports| - 1];
      PortBlocksSelect(k, b, p, iface, mac, front);
      BlockSelects(k, b, p, iface, mac, last);
      SelectsConcat(k, PortBlocks(b, p.family, iface, mac, front), Block(b, p.family, iface, mac, last), p,
                    SetsHold(b, k.sets, p) && IfaceOk(iface, p) && MacOk(mac, p) && SomePortOk(front, p),
                    BaseHolds(b, k.sets, p, iface, mac, last), ExcludedBy(b, k.sets, p), b.mark);
    }
  }

  lemma ExpandedPortsShape(b: RouteBinding)
    requires Normalized(b)
    ensures forall i :: 0 <= i < |ExpandedPorts(b.destinationPorts)| ==>
      var port := ExpandedPorts(b.destinationPorts)[i];
      port == ANY_PORT || (NormalPort(port) && !port.protocol.Both?)
  {
    ExpandAllNormal(b.destinationPorts);
  }

  lemma {:induction false} MacBlocksSelect(k: Kernel, b: RouteBinding, p: Packet, iface: string, macs: seq<string>)
    requires Normalized(b) && WellFormed(p)
    ensures Selects(k, MacBlocks(b, p.family, iface, macs), p,
                    SetsHold(b, k.sets, p) && IfaceOk(iface, p) && SomeMacOk(macs, p)
                    && SomePortOk(ExpandedPorts(b.destinationPorts), p),
                    ExcludedBy(b, k.sets, p), b.mark)
  {
    hide Selects, SetsHold, ExcludedBy, Normalized, WellFormed, PortOk, MacOk, IfaceOk, SomePortOk, SomeMacOk, SomeIfaceOk, PortBlocks;
    SomeMacSnoc(macs, p);
    SelectsNothing(k, p, ExcludedBy(b, k.sets, p), b.mark);
    if macs != [] {
      var ports := ExpandedPorts(b.destinationPorts);
      var front, last := macs[..|macs| - 1], macs[|macs| - 1];
      MacBlocksSelect(k, b, p, iface, front);
      ExpandedPortsShape(b);
      PortBlocksSelect(k, b, p, iface, last, ports);
      var rest := SetsHold(b, k.sets, p) && IfaceOk(iface, p) && SomePortOk(ports, p);
      SelectsConcat(k, MacBlocks(b, p.family, iface, front), PortBlocks(b, p.family, iface, last, ports), p,
                    rest && SomeMacOk(front, p), rest && MacOk(last, p), ExcludedBy(b, k.sets, p), b.mark);
    }
  }

  lemma {:induction false} IfaceBlocksSelect(k: Kernel, b: RouteBinding, p: Packet, ifaces: seq<string>)
    requires Normalized(b) && WellFormed(p)
    ensures Selects(k, IfaceBlocks(b, p.family, ifaces), p,
                    SetsHold(b, k.sets, p) && SomeIfaceOk(ifaces, p)
                    && SomeMacOk(ExpandedValues(b.sourceMacs), p)
                    && SomePortOk(ExpandedPorts(b.destinationPorts), p),
                    ExcludedBy(b, k.sets, p), b.mark)
  {
    hide Selects, SetsHold, ExcludedBy, Normalized, WellFormed, PortOk, MacOk, IfaceOk, SomePortOk, SomeMacOk, SomeIfaceOk, MacBlocks;
    SomeIfaceSnoc(ifaces, p);
    SelectsNothing(k, p, ExcludedBy(b, k.sets, p), b.mark);
    if ifaces != [] {
      var macs := ExpandedValues(b.sourceMacs);
      var front, last := ifaces[..|ifaces| - 1], ifaces[|ifaces| - 1];
      IfaceBlocksSelect(k, b, p, front);
      MacBlocksSelect(k, b, p, last, macs);
      var rest := SetsHold(b, k.sets, p) && SomeMacOk(macs, p) && SomePortOk(ExpandedPorts(b.destinationPorts), p);
      SelectsConcat(k, IfaceBlocks(b, p.family, front), MacBlocks(b, p.family, last, macs), p,
                    rest && SomeIfaceOk(front, p), rest && IfaceOk(last, p), ExcludedBy(b, k.sets, p), b.mark);
    }
  }

  // ---- The combinations are the selectors -----------------------------------

  lemma IfacesAreSelectors(b: RouteBinding, p: Packet)
    requires Normalized(b)
    ensures SomeIfaceOk(ExpandedValues(b.sourceInterfaces), p)
       <==> (b.sourceInterfaces == [] || p.inIface in b.sourceInterfaces)
  {
    var values := ExpandedValues(b.sourceInterfaces);
    if b.sourceInterfaces == [] {
      assert IfaceOk(values[0], p);
    } else {
      forall i | 0 <= i < |values|
        ensures IfaceOk(values[i], p) <==> values[i] == p.inIface
      {
        assert values[i] in b.sourceInterfaces;
        var j :| 0 <= j < |b.sourceInterfaces| && b.sourceInterfaces[j] == values[i];
        assert PlainIface(b.sourceInterfaces[j]);
      }
      if p.inIface in b.sourceInterfaces {
        assert p.inIface in values;
      }
    }
  }

  lemma MacsAreSelectors(b: RouteBinding, p: Packet)
    requires Normalized(b)
    ensures SomeMacOk(ExpandedValues(b.sourceMacs), p) <==> (b.sourceMacs == [] || p.mac in b.sourceMacs)
  {
    var values := ExpandedValues(b.sourceMacs);
    if b.sourceMacs == [] {
      assert MacOk(values[0], p);
    } else {
      forall i | 0 <= i < |values|
        ensures MacOk(values[i], p) <==> values[i] == p.mac
      {
        assert values[i] in b.sourceMacs;
      }
      if p.mac in b.sourceMacs {
        assert p.mac in values;
      }
    }
  }

  lemma PortsAreSelectors(b: RouteBinding, p: Packet)
    requires Normalized(b)
    ensures SomePortOk(ExpandedPorts(b.destinationPorts), p)
       <==> (b.destinationPorts == [] || SomePort(b.destinationPorts, p.l4))
  {
    var ports := ExpandedPorts(b.destinationPorts);
    if b.destinationPorts == [] {
      assert PortOk(ports[0], p);
    } else {
      ExpandAllNormal(b.destinationPorts);
      ExpandAllMatches(b.destinationPorts, p.l4);
      assert forall i :: 0 <= i < |ports| ==> (PortOk(ports[i], p) <==> PortMatches(ports[i], p.l4));
    }
  }

  /**
    Compiler correctness. For every normalized binding, every packet and every
    incoming state, jumping into a chain that holds the compiled rules gives the
    packet the mark of the binding when the binding routes the packet, and the
    incoming state otherwise; in no case does the traversal end there.
   */
  lemma CompiledChainIsCorrect(k: Kernel, id: ChainId, b: RouteBinding, p: Packet, st: PacketState, depth: nat)
    requires Normalized(b) && WellFormed(p)
    requires id.family == p.family && id.table == Mangle && depth >= 1
    requires id in k.chains && k.chains[id] == Compiled(b, p.family)
    ensures RunChain(k, id, p, st, depth) == Next(if Routes(b, k.sets, p) then st.(mark := b.mark) else st)
  {
    IfaceBlocksSelect(k, b, p, ExpandedValues(b.sourceInterfaces));
    IfacesAreSelectors(b, p);
    MacsAreSelectors(b, p);
    PortsAreSelectors(b, p);
    assert RunRules(k, p.family, Mangle, k.chains[id], p, st, depth - 1) ==
      if !SelectedBy(b, k.sets, p) then Next(st)
      else if ExcludedBy(b, k.sets, p) then Back(st) else Next(st.(mark := b.mark));
  }
}
