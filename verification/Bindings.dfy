/** The routing data: port selectors and the bindings that the routing manager derives from rules. */
module Bindings {
  import opened Netfilter

  /** A destination port or port range; an `end` of zero or less means a single port. */
  datatype PortRange = PortRange(protocol: Protocol, start: int, end: int)

  datatype SetPair = SetPair(v4: string, v6: string)

  function NameFor(pair: SetPair, family: Family): string {
    if family.V4? then pair.v4 else pair.v6
  }

  /** MSS clamp setting of a tunnel for one family. */
  datatype Clamp = NoClamp | ClampTo(limit: MssLimit)

  datatype RouteBinding = RouteBinding(
    groupName: string, ruleIndex: nat,
    sourceInterfaces: seq<string>, sourceMacs: seq<string>,
    source: SetPair, excludedSource: SetPair, destination: SetPair, excludedDestination: SetPair,
    hasSource: bool, hasExcludedSource: bool, hasDestination: bool, hasExcludedDestination: bool,
    destinationPorts: seq<PortRange>, excludedDestinationPorts: seq<PortRange>,
    excludeMulticast: bool,
    mark: nat, routeTable: int, iface: string, egressVpn: string,
    clampV4: Clamp, clampV6: Clamp)

  predicate NormalPort(p: PortRange) {
    !p.protocol.AnyProtocol? && 1 <= p.start <= p.end <= 65535
  }

  predicate NormalPorts(ports: seq<PortRange>) {
    forall i :: 0 <= i < |ports| ==> NormalPort(ports[i])
  }

  /** An interface name as the rule normalizer accepts it: not empty, no wildcard. */
  predicate PlainIface(name: string) {
    name != "" && name[|name| - 1] != '+'
  }

  /** What rule normalization guarantees of a binding. */
  predicate Normalized(b: RouteBinding) {
    && NormalPorts(b.destinationPorts)
    && NormalPorts(b.excludedDestinationPorts)
    && (forall i :: 0 <= i < |b.sourceInterfaces| ==> PlainIface(b.sourceInterfaces[i]))
    && (forall i :: 0 <= i < |b.sourceMacs| ==> b.sourceMacs[i] != "")
  }

  // ---- What a binding means -------------------------------------------------

  predicate PortMatches(port: PortRange, l4: L4) {
    !l4.OtherL4? && ProtocolMatches(port.protocol, l4) && port.start <= l4.port <= port.end
  }

  predicate SomePort(ports: seq<PortRange>, l4: L4) {
    exists i :: 0 <= i < |ports| && PortMatches(ports[i], l4)
  }

  /** The packet is one of those the rule leaves alone although its selectors match. */
  ghost predicate ExcludedBy(b: RouteBinding, sets: map<string, IpSet>, p: Packet) {
    || (b.excludeMulticast && IsMulticast(p.dst))
    || (b.hasExcludedSource && InSet(sets, NameFor(b.excludedSource, p.family), p.src))
    || (b.hasExcludedDestination && InSet(sets, NameFor(b.excludedDestination, p.family), p.dst))
    || SomePort(b.excludedDestinationPorts, p.l4)
  }

  /** The packet satisfies every selector of the rule. */
  ghost predicate SelectedBy(b: RouteBinding, sets: map<string, IpSet>, p: Packet) {
    && (b.hasSource ==> InSet(sets, NameFor(b.source, p.family), p.src))
    && (b.hasDestination ==> InSet(sets, NameFor(b.destination, p.family), p.dst))
    && (b.sourceInterfaces == [] || p.inIface in b.sourceInterfaces)
    && (b.sourceMacs == [] || p.mac in b.sourceMacs)
    && (b.destinationPorts == [] || SomePort(b.destinationPorts, p.l4))
  }

  /** The rule routes the packet through its VPN. */
  ghost predicate Routes(b: RouteBinding, sets: map<string, IpSet>, p: Packet) {
    SelectedBy(b, sets, p) && !ExcludedBy(b, sets, p)
  }

  predicate WellFormed(p: Packet) {
    p.src.family == p.family && p.dst.family == p.family
  }

  /** The ipsets the chain of the binding refers to. */
  ghost predicate UsesSet(b: RouteBinding, family: Family, name: string) {
    || (b.hasSource && name == NameFor(b.source, family))
    || (b.hasExcludedSource && name == NameFor(b.excludedSource, family))
    || (b.hasDestination && name == NameFor(b.destination, family))
    || (b.hasExcludedDestination && name == NameFor(b.excludedDestination, family))
  }
}
