/**
  The flow inspector decides for itself, from the rules and the listed ipset
  members, which VPN a tracked connection belongs to. Its matcher is a second
  semantics of a routing rule, and it agrees with the compiled chains.
 */
module FlowMatcher {
  import opened Text
  import opened Netfilter
  import opened Bindings
  import opened SetNames
  import opened RoutingPlan

  datatype FlowProtocol = FlowTcp | FlowUdp | FlowOther

  datatype Flow = Flow(protocol: FlowProtocol, destinationPort: int)

  datatype FlowRule = FlowRule(
    sourcePrefixes: seq<Prefix>, excludedSourcePrefixes: seq<Prefix>,
    destinationPrefixes: seq<Prefix>, excludedDestinationPrefixes: seq<Prefix>,
    sourceInterfaces: set<string>, sourceMacs: set<string>,
    destinationPorts: seq<PortRange>, excludedDestinationPorts: seq<PortRange>,
    excludeMulticast: bool,
    requiresSource: bool, requiresExcludedSource: bool,
    requiresDestination: bool, requiresExcludedDestination: bool)

  // ---- Matching -------------------------------------------------------------

  predicate SomeContains(prefixes: seq<Prefix>, a: Addr) {
    exists i :: 0 <= i < |prefixes| && Netfilter.Contains(prefixes[i], a)
  }

  method PrefixContains(prefixes: seq<Prefix>, a: Addr) returns (found: bool)
    ensures found <==> SomeContains(prefixes, a)
  {
    for i := 0 to |prefixes|
      invariant forall j :: 0 <= j < i ==> !Netfilter.Contains(prefixes[j], a)
    {
      if Netfilter.Contains(prefixes[i], a) {
        return true;
      }
    }
    return false;
  }

  predicate ProtocolAgrees(protocol: Protocol, flow: FlowProtocol) {
    protocol.AnyProtocol? || protocol.Both? || (protocol.TcpOnly? && flow.FlowTcp?) || (protocol.UdpOnly? && flow.FlowUdp?)
  }

  predicate PortAgrees(port: PortRange, flow: Flow) {
    ProtocolAgrees(port.protocol, flow.protocol)
    && port.start <= flow.destinationPort <= (if port.end <= 0 then port.start else port.end)
  }

  predicate SomePortAgrees(ports: seq<PortRange>, flow: Flow) {
    flow.destinationPort > 0 && exists i :: 0 <= i < |ports| && PortAgrees(ports[i], flow)
  }

  method MatchDestinationPort(ports: seq<PortRange>, flow: Flow) returns (found: bool)
    ensures found <==> SomePortAgrees(ports, flow)
  {
    if flow.destinationPort <= 0 {
      return false;
    }
    for i := 0 to |ports|
      invariant forall j :: 0 <= j < i ==> !PortAgrees(ports[j], flow)
    {
      if !ProtocolAgrees(ports[i].protocol, flow.protocol) {
        continue;
      }
      var end := ports[i].end;
      if end <= 0 {
        end := ports[i].start;
      }
      if ports[i].start <= flow.destinationPort <= end {
        return true;
      }
    }
    return false;
  }

  /** The rule claims the flow. */
  predicate Claims(rule: FlowRule, flow: Flow, src: Addr, dst: Addr, mac: string, iface: string) {
    && (rule.requiresSource ==> SomeContains(rule.sourcePrefixes, src))
    && (rule.sourceInterfaces != {} ==> iface != "" && iface in rule.sourceInterfaces)
    && (rule.sourceMacs != {} ==> mac != "" && mac in rule.sourceMacs)
    && !(rule.requiresExcludedSource && SomeContains(rule.excludedSourcePrefixes, src))
    && (rule.requiresDestination ==> SomeContains(rule.destinationPrefixes, dst))
    && (rule.destinationPorts != [] ==> SomePortAgrees(rule.destinationPorts, flow))
    && !(rule.requiresExcludedDestination && SomeContains(rule.excludedDestinationPrefixes, dst))
    && !(rule.excludedDestinationPorts != [] && SomePortAgrees(rule.excludedDestinationPorts, flow))
    && !(rule.excludeMulticast && IsMulticast(dst))
  }

  method RuleClaims(rule: FlowRule, flow: Flow, src: Addr, dst: Addr, mac: string, iface: string) returns (claims: bool)
    ensures claims <==> Claims(rule, flow, src, dst, mac, iface)
  {
    hide SomeContains, SomePortAgrees, IsMulticast;
    claims := false;
    var sourceIn := PrefixContains(rule.sourcePrefixes, src);
    if rule.requiresSource && !sourceIn { return; }
    if rule.sourceInterfaces != {} && (iface == "" || iface !in rule.sourceInterfaces) { return; }
    if rule.sourceMacs != {} && (mac == "" || mac !in rule.sourceMacs) { return; }
    var sourceOut := PrefixContains(rule.excludedSourcePrefixes, src);
    if rule.requiresExcludedSource && sourceOut { return; }
    var destinationIn := PrefixContains(rule.destinationPrefixes, dst);
    if rule.requiresDestination && !destinationIn { return; }
    var portIn := MatchDestinationPort(rule.destinationPorts, flow);
    if rule.destinationPorts != [] && !portIn { return; }
    var destinationOut := PrefixContains(rule.excludedDestinationPrefixes, dst);
    if rule.requiresExcludedDestination && destinationOut { return; }
    var portOut := MatchDestinationPort(rule.excludedDestinationPorts, flow);
    if rule.excludedDestinationPorts != [] && portOut { return; }
    if rule.excludeMulticast && IsMulticast(dst) { return; }
    claims := true;
  }

  /** No rule before position `n` claims the flow. */
  ghost predicate NoneBefore(rules: seq<FlowRule>, n: nat, flow: Flow, src: Addr, dst: Addr, mac: string, iface: string) {
    forall j :: 0 <= j < n && j < |rules| ==> !Claims(rules[j], flow, src, dst, mac, iface)
  }

  /** The first rule that claims the flow. */
  method MatchFlowRule(rules: seq<FlowRule>, flow: Flow, src: Addr, dst: Addr, rawMac: string, rawIface: string)
    returns (found: Option<nat>)
    ensures found.Some? ==> found.value < |rules|
    ensures found.Some? ==> Claims(rules[found.value], flow, src, dst, ToLower(TrimSpace(rawMac)), ToLower(TrimSpace(rawIface)))
    ensures NoneBefore(rules, if found.Some? then found.value else |rules|, flow, src, dst,
                       ToLower(TrimSpace(rawMac)), ToLower(TrimSpace(rawIface)))
  {
    hide Claims, ToLower, TrimSpace;
    var mac, iface := ToLower(TrimSpace(rawMac)), ToLower(TrimSpace(rawIface));
    for i := 0 to |rules|
      invariant NoneBefore(rules, i, flow, src, dst, mac, iface)
    {
      var claims := RuleClaims(rules[i], flow, src, dst, mac, iface);
      if claims {
        return Some(i);
      }
    }
    return None;
  }

  // ---- Compiling the rules of one VPN ---------------------------------------

  datatype Snapshot = Snapshot(
    members: map<string, seq<Prefix>>, resolved: map<Selector, Values>, prewarmed: map<string, Values>)

  function Members(s: Snapshot, group: string, index: nat, kind: SetKind): seq<Prefix> {
    var v4, v6 := SetName(group, index, kind, V4), SetName(group, index, kind, V6);
    (if v4 in s.members then s.members[v4] else []) + (if v6 in s.members then s.members[v6] else [])
  }

  /** The listed members of both families, or the configured entries when nothing is listed. */
  function Candidates(s: Snapshot, group: string, index: nat, kind: SetKind, fallback: seq<Prefix>): seq<Prefix> {
    if Members(s, group, index, kind) == [] then fallback else Members(s, group, index, kind)
  }

  /** The configured entries of one kind of set. */
  function Configured(s: Snapshot, group: string, index: nat, kind: SetKind, r: RoutingRule): seq<Prefix> {
    match kind
    case Source => r.sourceCidrs
    case ExcludedSource => r.excludedSourceCidrs
    case Destination => DestinationEntries(group, index, r, s.resolved, s.prewarmed)
    case ExcludedDestination => ExcludedDestinationEntries(r, s.resolved)
  }

  function PrefixesOf(s: Snapshot, group: string, index: nat, kind: SetKind, r: RoutingRule): seq<Prefix> {
    Candidates(s, group, index, kind, Configured(s, group, index, kind, r))
  }

  function SelectorSet(values: seq<string>): set<string> {
    set v | v in values && TrimSpace(v) != "" :: ToLower(TrimSpace(v))
  }

  function BeforeHash(s: string): string {
    s[..IndexOf(s, '#')]
  }

  function MacSet(values: seq<string>): set<string> {
    set v | v in values && TrimSpace(BeforeHash(v)) != "" :: ToLower(TrimSpace(BeforeHash(v)))
  }

  function CompileFlowRule(s: Snapshot, group: string, index: nat, r: RoutingRule): FlowRule {
    FlowRule(
      PrefixesOf(s, group, index, Source, r), PrefixesOf(s, group, index, ExcludedSource, r),
      PrefixesOf(s, group, index, Destination, r), PrefixesOf(s, group, index, ExcludedDestination, r),
      SelectorSet(r.sourceInterfaces), MacSet(r.sourceMacs),
      r.destinationPorts, r.excludedDestinationPorts, ExcludesMulticast(r),
      NeedsSource(r), NeedsExcludedSource(r), NeedsDestination(r), NeedsExcludedDestination(r))
  }

  function GroupFlowRules(s: Snapshot, g: DomainGroup, n: nat): seq<FlowRule>
    requires n <= |g.rules|
  {
    if n == 0 then []
    else
      GroupFlowRules(s, g, n - 1) +
      (if HasSelectors(g.rules[n - 1]) then [CompileFlowRule(s, g.name, n - 1, g.rules[n - 1])] else [])
  }

  function FlowRules(s: Snapshot, vpn: string, groups: seq<DomainGroup>): seq<FlowRule> {
    if groups == [] then []
    else
      var g := groups[|groups| - 1];
      FlowRules(s, vpn, groups[..|groups| - 1]) +
      (if TrimSpace(g.egressVpn) == TrimSpace(vpn) then GroupFlowRules(s, g, |g.rules|) else [])
  }

  method CompileGroup(s: Snapshot, g: DomainGroup) returns (rules: seq<FlowRule>)
    ensures rules == GroupFlowRules(s, g, |g.rules|)
  {
    hide CompileFlowRule, HasSelectors;
    rules := [];
    for j := 0 to |g.rules|
      invariant rules == GroupFlowRules(s, g, j)
    {
      if HasSelectors(g.rules[j]) {
        rules := rules + [CompileFlowRule(s, g.name, j, g.rules[j])];
      }
    }
  }

  method CompileFlowRules(s: Snapshot, vpn: string, groups: seq<DomainGroup>) returns (rules: seq<FlowRule>)
    ensures rules == FlowRules(s, vpn, groups)
  {
    hide GroupFlowRules, TrimSpace;
    rules := [];
    for i := 0 to |groups|
      invariant rules == FlowRules(s, vpn, groups[..i])
    {
      assert groups[..i + 1][..i] == groups[..i];
      if TrimSpace(groups[i].egressVpn) != TrimSpace(vpn) {
        continue;
      }
      var more := CompileGroup(s, groups[i]);
      rules := rules + more;
    }
    assert groups[..|groups|] == groups;
  }

  /** The rules come in the order of the groups. */
  lemma {:induction false} FlowRulesInOrder(s: Snapshot, vpn: string, a: seq<DomainGroup>, b: seq<DomainGroup>)
    ensures FlowRules(s, vpn, a + b) == FlowRules(s, vpn, a) + FlowRules(s, vpn, b)
  {
    hide GroupFlowRules, TrimSpace;
    if b == [] {
      assert a + b == a;
    } else {
      var n := |b| - 1;
      assert (a + b)[..|a| + n] == a + b[..n] && (a + b)[|a| + n] == b[n];
      FlowRulesInOrder(s, vpn, a, b[..n]);
    }
  }

  /** And within a group in the order of its rules. */
  lemma {:induction false} GroupRulesInOrder(s: Snapshot, g: DomainGroup, m: nat, n: nat)
    requires m <= n <= |g.rules|
    ensures GroupFlowRules(s, g, m) <= GroupFlowRules(s, g, n)
  {
    hide CompileFlowRule, HasSelectors;
    if m < n { GroupRulesInOrder(s, g, m, n - 1); }
  }

  // ---- The two semantics agree ----------------------------------------------

  /** A name that trimming and lower-casing leave alone, as normalization stores it. */
  predicate Canonical(s: string) {
    TrimSpace(s) == s && ToLower(s) == s
  }

  predicate CanonicalRule(r: RoutingRule) {
    && NormalPorts(r.destinationPorts) && NormalPorts(r.excludedDestinationPorts)
    && (forall v :: v in r.sourceInterfaces ==> PlainIface(v) && Canonical(v))
    && (forall v :: v in r.sourceMacs ==> v != "" && NoChar(v, '#') && Canonical(v))
  }

  /** The flow that connection tracking shows for a packet. */
  function FlowOf(p: Packet): Flow {
    match p.l4
    case Tcp(port) => Flow(FlowTcp, port)
    case Udp(port) => Flow(FlowUdp, port)
    case OtherL4 => Flow(FlowOther, 0)
  }

  predicate Trackable(p: Packet) {
    WellFormed(p) && !p.l4.OtherL4? && p.l4.port > 0 && Canonical(p.mac)
  }

  /** The interface name as the matcher compares it. */
  function SeenIface(p: Packet): string {
    ToLower(TrimSpace(p.inIface))
  }

  /** The rule claims the flow of the packet. */
  predicate ClaimsPacket(rule: FlowRule, p: Packet) {
    Claims(rule, FlowOf(p), p.src, p.dst, p.mac, SeenIface(p))
  }

  predicate IfaceAccepts(r: RoutingRule, name: string) {
    r.sourceInterfaces == [] || name in r.sourceInterfaces
  }

  /** The rule lists the interface of the packet only in the matcher's spelling, not in the kernel's. */
  predicate NameFolded(r: RoutingRule, p: Packet) {
    IfaceAccepts(r, SeenIface(p)) && !IfaceAccepts(r, p.inIface)
  }

  /** The inspector's prefixes and the ipset of the packet's family hold the same view of address `a`. */
  ghost predicate SameView(s: Snapshot, sets: map<string, IpSet>, f: Family, a: Addr,
                           group: string, index: nat, kind: SetKind, r: RoutingRule) {
    SomeContains(PrefixesOf(s, group, index, kind, r), a) <==> InSet(sets, SetName(group, index, kind, f), a)
  }

  ghost predicate Faithful(s: Snapshot, sets: map<string, IpSet>, p: Packet, group: string, index: nat, r: RoutingRule) {
    && (NeedsSource(r) ==> SameView(s, sets, p.family, p.src, group, index, Source, r))
    && (NeedsExcludedSource(r) ==> SameView(s, sets, p.family, p.src, group, index, ExcludedSource, r))
    && (NeedsDestination(r) ==> SameView(s, sets, p.family, p.dst, group, index, Destination, r))
    && (NeedsExcludedDestination(r) ==> SameView(s, sets, p.family, p.dst, group, index, ExcludedDestination, r))
  }

  // ---- When the inspector reads the sets faithfully -------------------------

  /** The snapshot lists exactly the members of the two sets of one kind, each of its own family. */
  ghost predicate Listed(s: Snapshot, sets: map<string, IpSet>, group: string, index: nat, kind: SetKind) {
    forall f: Family :: var name := SetName(group, index, kind, f);
      name in sets && name in s.members
      && (forall e :: e in s.members[name] <==> e in sets[name].entries)
      && (forall e :: e in sets[name].entries ==> e.addr.family == f)
  }

  /** The inspector's view of one kind of set at address `a` comes from the configuration and not from the set. */
  predicate Misread(s: Snapshot, group: string, index: nat, kind: SetKind, r: RoutingRule, a: Addr) {
    Members(s, group, index, kind) == [] && SomeContains(Configured(s, group, index, kind, r), a)
  }

  /** With an exact listing the view of an address is right iff the set has a member or the configured entries miss the address. */
  lemma ListedViewIsExact(s: Snapshot, sets: map<string, IpSet>, f: Family, a: Addr,
                          group: string, index: nat, kind: SetKind, r: RoutingRule)
    requires a.family == f && Listed(s, sets, group, index, kind)
    ensures InSet(sets, SetName(group, index, kind, f), a) <==> SomeContains(Members(s, group, index, kind), a)
    ensures SameView(s, sets, f, a, group, index, kind, r) <==> !Misread(s, group, index, kind, r, a)
  {
    hide SetName, Configured;
    var v4, v6 := SetName(group, index, kind, V4), SetName(group, index, kind, V6);
    var mine := if f.V4? then v4 else v6;
    var all := Members(s, group, index, kind);
    assert all == s.members[v4] + s.members[v6];
    if SomeContains(all, a) {
      var i :| 0 <= i < |all| && Netfilter.Contains(all[i], a);
      assert all[i] in s.members[v4] || all[i] in s.members[v6];
      assert all[i] in sets[mine].entries;
    }
    if InSet(sets, mine, a) {
      var e :| e in sets[mine].entries && Netfilter.Contains(e, a);
      assert e in all;
      var i :| 0 <= i < |all| && all[i] == e;
    }
  }

  predicate Needs(r: RoutingRule, kind: SetKind) {
    match kind
    case Source => NeedsSource(r)
    case ExcludedSource => NeedsExcludedSource(r)
    case Destination => NeedsDestination(r)
    case ExcludedDestination => NeedsExcludedDestination(r)
  }

  function SideOf(p: Packet, kind: SetKind): Addr {
    if kind.Source? || kind.ExcludedSource? then p.src else p.dst
  }

  ghost predicate ListedRule(s: Snapshot, sets: map<string, IpSet>, group: string, index: nat, r: RoutingRule) {
    forall kind :: Needs(r, kind) ==> Listed(s, sets, group, index, kind)
  }

  /** The set of one kind has a member for the packet. */
  predicate Held(s: Snapshot, group: string, index: nat, r: RoutingRule, p: Packet, kind: SetKind) {
    Needs(r, kind) && SomeContains(Members(s, group, index, kind), SideOf(p, kind))
  }

  /** Only the configuration, and not the set of this kind, speaks of the packet. */
  predicate Guessed(s: Snapshot, group: string, index: nat, r: RoutingRule, p: Packet, kind: SetKind) {
    Needs(r, kind) && Misread(s, group, index, kind, r, SideOf(p, kind))
  }

  /** What the inspector takes for membership. */
  predicate Viewed(s: Snapshot, group: string, index: nat, r: RoutingRule, p: Packet, kind: SetKind) {
    Held(s, group, index, r, p, kind) || Guessed(s, group, index, r, p, kind)
  }

  /** The selectors that need neither an interface nor an ipset accept the packet. */
  predicate OtherSelectorsAccept(r: RoutingRule, p: Packet) {
    && (r.sourceMacs == [] || p.mac in r.sourceMacs)
    && (r.destinationPorts == [] || SomePort(r.destinationPorts, p.l4))
    && !SomePort(r.excludedDestinationPorts, p.l4)
    && !(ExcludesMulticast(r) && IsMulticast(p.dst))
  }

  /**
    What the inspector can tell from its snapshot and the rule alone: the packet would be
    its, and either it is so only by a guess or by the spelling of an interface, or a
    guess alone excludes it.
   */
  predicate Misjudged(s: Snapshot, group: string, index: nat, r: RoutingRule, p: Packet) {
    var held := (kind: SetKind) => Held(s, group, index, r, p, kind);
    var guessed := (kind: SetKind) => Guessed(s, group, index, r, p, kind);
    var viewed := (kind: SetKind) => Viewed(s, group, index, r, p, kind);
    && OtherSelectorsAccept(r, p) && IfaceAccepts(r, SeenIface(p))
    && (NeedsSource(r) ==> viewed(Source)) && (NeedsDestination(r) ==> viewed(Destination))
    && (if NameFolded(r, p) || guessed(Source) || guessed(Destination)
        then !viewed(ExcludedSource) && !viewed(ExcludedDestination)
        else (guessed(ExcludedSource) || guessed(ExcludedDestination)) && !held(ExcludedSource) && !held(ExcludedDestination))
  }

  lemma SelectorSetMeaning(values: seq<string>, name: string)
    requires forall v :: v in values ==> v != "" && Canonical(v)
    ensures SelectorSet(values) == {} <==> values == []
    ensures name in SelectorSet(values) <==> name in values
  {
    if values != [] {
      assert values[0] in values;
      assert values[0] in SelectorSet(values);
    }
  }

  lemma MacSetMeaning(values: seq<string>, name: string)
    requires forall v :: v in values ==> v != "" && NoChar(v, '#') && Canonical(v)
    ensures MacSet(values) == {} <==> values == []
    ensures name in MacSet(values) <==> name in values
  {
    forall v | v in values
      ensures BeforeHash(v) == v
    {
      assert IndexOf(v, '#') == |v|;
    }
    if values != [] {
      assert values[0] in values;
      assert values[0] in MacSet(values);
    }
  }

  lemma PortsMeaning(ports: seq<PortRange>, p: Packet)
    requires NormalPorts(ports) && !p.l4.OtherL4? && p.l4.port > 0
    ensures SomePortAgrees(ports, FlowOf(p)) <==> SomePort(ports, p.l4)
  {
    forall i | 0 <= i < |ports|
      ensures PortAgrees(ports[i], FlowOf(p)) <==> PortMatches(ports[i], p.l4)
    {
      assert NormalPort(ports[i]);
    }
  }

  /** The matcher in terms of its view of the sets. */
  lemma ClaimsByView(s: Snapshot, g: DomainGroup, r: RoutingRule, i: nat, p: Packet)
    requires CanonicalRule(r) && Trackable(p)
    ensures ClaimsPacket(CompileFlowRule(s, g.name, i, r), p) <==>
      (&& OtherSelectorsAccept(r, p) && IfaceAccepts(r, SeenIface(p))
       && (NeedsSource(r) ==> SomeContains(PrefixesOf(s, g.name, i, Source, r), p.src))
       && (NeedsDestination(r) ==> SomeContains(PrefixesOf(s, g.name, i, Destination, r), p.dst))
       && !(NeedsExcludedSource(r) && SomeContains(PrefixesOf(s, g.name, i, ExcludedSource, r), p.src))
       && !(NeedsExcludedDestination(r) && SomeContains(PrefixesOf(s, g.name, i, ExcludedDestination, r), p.dst)))
  {
    hide PrefixesOf, SetName, SelectorSet, MacSet, SomePortAgrees, SomePort, SomeContains, SeenIface;
    SelectorSetMeaning(r.sourceInterfaces, SeenIface(p));
    MacSetMeaning(r.sourceMacs, p.mac);
    PortsMeaning(r.destinationPorts, p);
    PortsMeaning(r.excludedDestinationPorts, p);
    assert r.excludedDestinationPorts == [] ==> !SomePort(r.excludedDestinationPorts, p.l4) by { NoPorts(p.l4); }
  }

  /** The binding in terms of the sets. */
  lemma RoutesBySets(sets: map<string, IpSet>, g: DomainGroup, r: RoutingRule, i: nat, profile: Profile, p: Packet)
    ensures Routes(BuildBinding(g, r, i, profile), sets, p) <==>
      (&& OtherSelectorsAccept(r, p) && IfaceAccepts(r, p.inIface)
       && (NeedsSource(r) ==> InSet(sets, SetName(g.name, i, Source, p.family), p.src))
       && (NeedsDestination(r) ==> InSet(sets, SetName(g.name, i, Destination, p.family), p.dst))
       && !(NeedsExcludedSource(r) && InSet(sets, SetName(g.name, i, ExcludedSource, p.family), p.src))
       && !(NeedsExcludedDestination(r) && InSet(sets, SetName(g.name, i, ExcludedDestination, p.family), p.dst)))
  {
    hide SetName, SomePort, InSet;
  }

  lemma ListedIsSeen(r: RoutingRule, p: Packet)
    requires CanonicalRule(r) && IfaceAccepts(r, p.inIface)
    ensures IfaceAccepts(r, SeenIface(p))
  {
  }

  /** One rule: the binding routes a packet exactly when the inspector claims its flow without folding the interface name. */
  lemma RuleAgrees(s: Snapshot, sets: map<string, IpSet>, g: DomainGroup, r: RoutingRule, i: nat, profile: Profile, p: Packet)
    requires CanonicalRule(r) && Trackable(p) && Faithful(s, sets, p, g.name, i, r)
    ensures Routes(BuildBinding(g, r, i, profile), sets, p) <==> ClaimsPacket(CompileFlowRule(s, g.name, i, r), p) && !NameFolded(r, p)
  {
    hide ClaimsPacket, Routes, CompileFlowRule, BuildBinding, PrefixesOf, SetName, InSet, SomeContains, CanonicalRule, Trackable,
         OtherSelectorsAccept, IfaceAccepts, SeenIface;
    ClaimsByView(s, g, r, i, p);
    RoutesBySets(sets, g, r, i, profile, p);
    if IfaceAccepts(r, p.inIface) { ListedIsSeen(r, p); }
  }

  /** With exact listings the two disagree about a rule exactly when the inspector misjudges the packet. */
  lemma RuleAgreesExactly(s: Snapshot, sets: map<string, IpSet>, g: DomainGroup, r: RoutingRule, i: nat, profile: Profile, p: Packet)
    requires CanonicalRule(r) && Trackable(p) && ListedRule(s, sets, g.name, i, r)
    ensures
      (ClaimsPacket(CompileFlowRule(s, g.name, i, r), p) <==> Routes(BuildBinding(g, r, i, profile), sets, p))
      <==> !Misjudged(s, g.name, i, r, p)
  {
    hide ClaimsPacket, Routes, CompileFlowRule, BuildBinding, SetName, InSet, SomeContains, CanonicalRule, OtherSelectorsAccept, FlowOf,
         Members, Configured, Listed, IfaceAccepts, SeenIface;
    ClaimsByView(s, g, r, i, p);
    RoutesBySets(sets, g, r, i, profile, p);
    if IfaceAccepts(r, p.inIface) { ListedIsSeen(r, p); }
    forall kind | Needs(r, kind)
      ensures InSet(sets, SetName(g.name, i, kind, p.family), SideOf(p, kind)) <==> Held(s, g.name, i, r, p, kind)
      ensures SomeContains(PrefixesOf(s, g.name, i, kind, r), SideOf(p, kind)) <==> Viewed(s, g.name, i, r, p, kind)
      ensures !(Held(s, g.name, i, r, p, kind) && Guessed(s, g.name, i, r, p, kind))
    {
      ListedViewIsExact(s, sets, p.family, SideOf(p, kind), g.name, i, kind, r);
      NothingHeld(SideOf(p, kind));
    }
    hide Held, Guessed, PrefixesOf;
    NeedsByKind(r);
  }

  lemma NothingHeld(a: Addr)
    ensures !SomeContains([], a)
  {
  }

  lemma NoPorts(l4: L4)
    ensures !SomePort([], l4)
  {
  }

  ghost predicate SomeClaims(rules: seq<FlowRule>, p: Packet) {
    exists i :: 0 <= i < |rules| && ClaimsPacket(rules[i], p)
  }

  /** Some binding of the VPN routes the packet. */
  ghost predicate SomeRoutes(bs: seq<RouteBinding>, vpn: string, sets: map<string, IpSet>, p: Packet) {
    exists i :: 0 <= i < |bs| && TrimSpace(bs[i].egressVpn) == TrimSpace(vpn) && Routes(bs[i], sets, p)
  }

  lemma SomeClaimsConcat(a: seq<FlowRule>, b: seq<FlowRule>, p: Packet)
    ensures SomeClaims(a + b, p) <==> SomeClaims(a, p) || SomeClaims(b, p)
  {
    hide ClaimsPacket;
    if SomeClaims(a, p) {
      var i :| 0 <= i < |a| && ClaimsPacket(a[i], p);
      assert (a + b)[i] == a[i];
    }
    if SomeClaims(b, p) {
      var i :| 0 <= i < |b| && ClaimsPacket(b[i], p);
      assert (a + b)[|a| + i] == b[i];
    }
  }

  lemma SomeRoutesConcat(a: seq<RouteBinding>, b: seq<RouteBinding>, vpn: string, sets: map<string, IpSet>, p: Packet)
    ensures SomeRoutes(a + b, vpn, sets, p) <==> SomeRoutes(a, vpn, sets, p) || SomeRoutes(b, vpn, sets, p)
  {
    hide Routes;
    if SomeRoutes(a, vpn, sets, p) {
      var i :| 0 <= i < |a| && TrimSpace(a[i].egressVpn) == TrimSpace(vpn) && Routes(a[i], sets, p);
      assert (a + b)[i] == a[i];
    }
    if SomeRoutes(b, vpn, sets, p) {
      var i :| 0 <= i < |b| && TrimSpace(b[i].egressVpn) == TrimSpace(vpn) && Routes(b[i], sets, p);
      assert (a + b)[|a| + i] == b[i];
    }
  }

  lemma SingleAgrees(c: FlowRule, b: RouteBinding, vpn: string, sets: map<string, IpSet>, p: Packet)
    ensures SomeClaims([c], p) <==> ClaimsPacket(c, p)
    ensures SomeRoutes([b], vpn, sets, p) <==> TrimSpace(b.egressVpn) == TrimSpace(vpn) && Routes(b, sets, p)
  {
    hide ClaimsPacket, Routes, TrimSpace;
    assert [c][0] == c && [b][0] == b;
  }

  lemma BindingVpn(g: DomainGroup, r: RoutingRule, i: nat, profile: Profile)
    ensures BuildBinding(g, r, i, profile).egressVpn == g.egressVpn
  {
  }

  /**
    The inspector's reading of a rule can be trusted for a packet: its prefixes denote
    what the ipsets hold and it does not claim by a folded interface name, or the ipsets
    are listed exactly and it does not misjudge.
   */
  ghost predicate Trusted(s: Snapshot, sets: map<string, IpSet>, p: Packet, group: string, index: nat, r: RoutingRule) {
    || (Faithful(s, sets, p, group, index, r) && !(NameFolded(r, p) && ClaimsPacket(CompileFlowRule(s, group, index, r), p)))
    || (ListedRule(s, sets, group, index, r) && !Misjudged(s, group, index, r, p))
  }

  lemma TrustedRuleAgrees(s: Snapshot, sets: map<string, IpSet>, g: DomainGroup, r: RoutingRule, i: nat, profile: Profile, p: Packet)
    requires CanonicalRule(r) && Trackable(p) && Trusted(s, sets, p, g.name, i, r)
    ensures ClaimsPacket(CompileFlowRule(s, g.name, i, r), p)
       <==> Routes(BuildBinding(g, r, i, profile), sets, p)
  {
    hide ClaimsPacket, Routes, CompileFlowRule, BuildBinding, CanonicalRule, Trackable, Faithful, ListedRule, Misjudged, NameFolded;
    if ListedRule(s, sets, g.name, i, r) && !Misjudged(s, g.name, i, r, p) {
      RuleAgreesExactly(s, sets, g, r, i, profile, p);
    } else {
      RuleAgrees(s, sets, g, r, i, profile, p);
    }
  }

  ghost predicate TrustedGroup(s: Snapshot, sets: map<string, IpSet>, p: Packet, g: DomainGroup) {
    forall i :: 0 <= i < |g.rules| ==> CanonicalRule(g.rules[i]) && Trusted(s, sets, p, g.name, i, g.rules[i])
  }

  lemma {:induction false} GroupAgrees(s: Snapshot, sets: map<string, IpSet>, vpn: string, g: DomainGroup, n: nat,
                                       profile: Profile, p: Packet)
    requires n <= |g.rules| && Trackable(p) && TrustedGroup(s, sets, p, g)
    ensures TrimSpace(g.egressVpn) == TrimSpace(vpn) ==>
      (SomeClaims(GroupFlowRules(s, g, n), p) <==> SomeRoutes(GroupBindings(g, n, profile), vpn, sets, p))
    ensures TrimSpace(g.egressVpn) != TrimSpace(vpn) ==> !SomeRoutes(GroupBindings(g, n, profile), vpn, sets, p)
  {
    hide ClaimsPacket, Routes, HasSelectors, CanonicalRule, Trusted, CompileFlowRule, TrimSpace, Trackable, BuildBinding, FlowOf;
    if n > 0 {
      GroupAgrees(s, sets, vpn, g, n - 1, profile, p);
      var r := g.rules[n - 1];
      if HasSelectors(r) {
        var c, b := CompileFlowRule(s, g.name, n - 1, r), BuildBinding(g, r, n - 1, profile);
        TrustedRuleAgrees(s, sets, g, r, n - 1, profile, p);
        SomeClaimsConcat(GroupFlowRules(s, g, n - 1), [c], p);
        SomeRoutesConcat(GroupBindings(g, n - 1, profile), [b], vpn, sets, p);
        SingleAgrees(c, b, vpn, sets, p);
        BindingVpn(g, r, n - 1, profile);
      } else {
        assert GroupFlowRules(s, g, n) == GroupFlowRules(s, g, n - 1);
        assert GroupBindings(g, n, profile) == GroupBindings(g, n - 1, profile);
      }
    }
  }

  /**
    The two semantics agree. For every tcp or udp flow with a positive port, the
    matcher finds a rule among the compiled rules of a VPN exactly when some
    binding of that VPN routes the packet, provided each rule's reading can be
    trusted: the prefixes denote the addresses of the ipsets and the interface name is
    not folded, or the sets are listed exactly and the inspector does not misjudge the
    packet.
   */
  lemma {:induction false} MatcherAgreesWithBindings(s: Snapshot, sets: map<string, IpSet>, vpn: string,
                                                     groups: seq<DomainGroup>, profiles: map<string, Profile>, p: Packet)
    requires ProfilesUsable(groups, profiles) && Trackable(p)
    requires forall i :: 0 <= i < |groups| ==> TrustedGroup(s, sets, p, groups[i])
    ensures SomeClaims(FlowRules(s, vpn, groups), p) <==> SomeRoutes(AllBindings(groups, profiles), vpn, sets, p)
  {
    hide ClaimsPacket, Routes, TrustedGroup, TrimSpace, Trackable;
    if groups != [] {
      var front, g := groups[..|groups| - 1], groups[|groups| - 1];
      assert forall i :: 0 <= i < |front| ==> front[i] == groups[i];
      MatcherAgreesWithBindings(s, sets, vpn, front, profiles, p);
      var profile := profiles[g.egressVpn];
      GroupAgrees(s, sets, vpn, g, |g.rules|, profile, p);
      SomeRoutesConcat(AllBindings(front, profiles), GroupBindings(g, |g.rules|, profile), vpn, sets, p);
      if TrimSpace(g.egressVpn) == TrimSpace(vpn) {
        SomeClaimsConcat(FlowRules(s, vpn, front), GroupFlowRules(s, g, |g.rules|), p);
      } else {
        assert FlowRules(s, vpn, groups) == FlowRules(s, vpn, front);
      }
    }
  }

  // ---- Expired sets ---------------------------------------------------------

  /** A rule with one configured prefix of one kind. */
  function OnePrefixRule(kind: SetKind, q: Prefix): RoutingRule {
    var none := RoutingRule([], [], [], [], [], [], [], [], [], [], Some(false), [], []);
    match kind
    case Source => none.(sourceCidrs := [q])
    case ExcludedSource => none.(excludedSourceCidrs := [q])
    case Destination => none.(destinationCidrs := [q])
    case ExcludedDestination => none.(excludedDestinationCidrs := [q])
  }

  /**
    Set entries expire after a day. Once both sets of a kind are empty, the kernel and
    the inspector, which falls back to the configuration, disagree about every packet
    of a configured prefix, whatever the kind of the set.
   */
  lemma ExpiredSetDisagrees(s: Snapshot, sets: map<string, IpSet>, g: DomainGroup, i: nat, kind: SetKind, q: Prefix,
                            profile: Profile, p: Packet)
    requires Trackable(p) && Netfilter.Contains(q, SideOf(p, kind))
    requires Listed(s, sets, g.name, i, kind) && Members(s, g.name, i, kind) == []
    ensures var r := OnePrefixRule(kind, q);
      && CanonicalRule(r)
      && ClaimsPacket(CompileFlowRule(s, g.name, i, r), p) != Routes(BuildBinding(g, r, i, profile), sets, p)
  {
    hide ClaimsPacket, Routes, CompileFlowRule, BuildBinding, SetName, Members, Listed, CanonicalRule, Trackable, Misjudged, OnePrefixRule,
         NeedsSource, NeedsExcludedSource, NeedsDestination, NeedsExcludedDestination;
    OnePrefixAccepts(kind, q, p);
    OnePrefixNeeds(kind, q);
    OnePrefixMisjudged(s, g.name, i, kind, q, p);
    RuleAgreesExactly(s, sets, g, OnePrefixRule(kind, q), i, profile, p);
  }

  lemma OnePrefixNeeds(kind: SetKind, q: Prefix)
    ensures forall other :: Needs(OnePrefixRule(kind, q), other) <==> other == kind
  {
  }

  lemma OnePrefixGuessed(s: Snapshot, group: string, i: nat, kind: SetKind, q: Prefix, p: Packet)
    requires Netfilter.Contains(q, SideOf(p, kind)) && Members(s, group, i, kind) == []
    ensures var r := OnePrefixRule(kind, q);
      forall other :: !Held(s, group, i, r, p, other) && (Guessed(s, group, i, r, p, other) <==> other == kind)
  {
    hide Members, Needs, Configured, SomeContains, OnePrefixRule, Netfilter.Contains;
    OnePrefixEntries(s, group, i, kind, q, SideOf(p, kind));
    NothingHeld(SideOf(p, kind));
    OnePrefixNeeds(kind, q);
  }

  lemma OnePrefixEntries(s: Snapshot, group: string, i: nat, kind: SetKind, q: Prefix, a: Addr)
    requires Netfilter.Contains(q, a)
    ensures SomeContains(Configured(s, group, i, kind, OnePrefixRule(kind, q)), a)
  {
    hide Netfilter.Contains, SetName;
    var entries := Configured(s, group, i, kind, OnePrefixRule(kind, q));
    assert entries != [] && entries[0] == q;
  }

  lemma OnePrefixMisjudged(s: Snapshot, group: string, i: nat, kind: SetKind, q: Prefix, p: Packet)
    requires Netfilter.Contains(q, SideOf(p, kind)) && Members(s, group, i, kind) == []
    ensures Misjudged(s, group, i, OnePrefixRule(kind, q), p)
  {
    hide Members, OtherSelectorsAccept, IfaceAccepts, Needs, Held, Guessed, OnePrefixRule, Netfilter.Contains,
         NeedsSource, NeedsExcludedSource, NeedsDestination, NeedsExcludedDestination;
    OnePrefixGuessed(s, group, i, kind, q, p);
    OnePrefixAccepts(kind, q, p);
    OnePrefixNeeds(kind, q);
    NeedsByKind(OnePrefixRule(kind, q));
  }

  lemma NeedsByKind(r: RoutingRule)
    ensures Needs(r, Source) == NeedsSource(r) && Needs(r, ExcludedSource) == NeedsExcludedSource(r)
    ensures Needs(r, Destination) == NeedsDestination(r) && Needs(r, ExcludedDestination) == NeedsExcludedDestination(r)
  {
  }

  lemma OnePrefixAccepts(kind: SetKind, q: Prefix, p: Packet)
    ensures var r := OnePrefixRule(kind, q);
      CanonicalRule(r) && OtherSelectorsAccept(r, p) && forall name :: IfaceAccepts(r, name)
  {
    NoPorts(p.l4);
  }

  // ---- Interface names with capitals ----------------------------------------

  /** A rule for all packets of one interface. */
  function IfaceRule(name: string): RoutingRule {
    RoutingRule([name], [], [], [], [], [], [], [], [], [], Some(false), [], [])
  }

  /**
    The matcher and the rule normalizer compare interface names in lower case, the
    kernel as they stand: a rule for br0 never routes what comes in on Br0, but the
    inspector claims it.
   */
  lemma CapitalNameDisagrees(s: Snapshot, sets: map<string, IpSet>, g: DomainGroup, i: nat, profile: Profile, p: Packet)
    requires Trackable(p) && p.inIface == "Br0"
    ensures var r := IfaceRule("br0");
      && CanonicalRule(r) && NameFolded(r, p)
      && ClaimsPacket(CompileFlowRule(s, g.name, i, r), p) && !Routes(BuildBinding(g, r, i, profile), sets, p)
  {
    hide ClaimsPacket, Routes, CompileFlowRule, BuildBinding, SetName, PrefixesOf, CanonicalRule, OtherSelectorsAccept, SeenIface, TrimSpace,
         ToLower, Trackable;
    var r := IfaceRule("br0");
    CapitalFolds(p);
    IfaceRuleIsCanonical(p);
    ClaimsByView(s, g, r, i, p);
    RoutesBySets(sets, g, r, i, profile, p);
  }

  lemma CapitalFolds(p: Packet)
    requires p.inIface == "Br0"
    ensures SeenIface(p) == "br0"
  {
    TrimSpaceFixed("Br0");
    assert ToLower("Br0") == "br0";
  }

  lemma IfaceRuleIsCanonical(p: Packet)
    ensures CanonicalRule(IfaceRule("br0")) && OtherSelectorsAccept(IfaceRule("br0"), p)
  {
    TrimSpaceFixed("br0");
    assert ToLower("br0") == "br0";
    NoPorts(p.l4);
  }
}
