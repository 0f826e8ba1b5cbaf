/**
  From the rules that users write to the bindings that are compiled: what rule
  normalization lets through is what the packet-level results ask for.
 */
module NormalizedPlans {
  import opened Text
  import opened Netfilter
  import opened Bindings
  import opened RoutingPlan
  import opened Rulesets
  import opened RootSwitch
  import opened Requests
  import Matcher = FlowMatcher
  import Ports = PortSelectors
  import Lines = SelectorLines
  import Normalization = RuleNormalization

  // ---- Stored rules as routing rules ----------------------------------------

  function ProtocolOf(text: string): Protocol {
    if text == "tcp" then TcpOnly else if text == "udp" then UdpOnly else if text == "both" then Both else AnyProtocol
  }

  function Ranges(ports: seq<Ports.PortSelector>): (r: seq<PortRange>)
    ensures |r| == |ports|
  {
    seq(|ports|, i requires 0 <= i < |ports| => PortRange(ProtocolOf(ports[i].protocol), ports[i].start, ports[i].end))
  }

  function Prefixes(parse: string -> Prefix, texts: seq<string>): seq<Prefix> {
    seq(|texts|, i requires 0 <= i < |texts| => parse(texts[i]))
  }

  /** A normalized rule as the routing manager uses it; `parse` reads a canonical prefix. */
  function StoredRule(parse: string -> Prefix, r: Normalization.Rule): RoutingRule {
    var s := r.selectors;
    RoutingRule(
      Normalization.Get(s, Normalization.SourceInterfaces), Normalization.Get(s, Normalization.SourceMacs),
      Prefixes(parse, Normalization.Get(s, Normalization.SourceCidrs)),
      Prefixes(parse, Normalization.Get(s, Normalization.ExcludedSourceCidrs)),
      Prefixes(parse, Normalization.Get(s, Normalization.DestinationCidrs)),
      Prefixes(parse, Normalization.Get(s, Normalization.ExcludedDestinationCidrs)),
      Ranges(r.destinationPorts), Ranges(r.excludedDestinationPorts),
      Normalization.Get(s, Normalization.DestinationAsns), Normalization.Get(s, Normalization.ExcludedDestinationAsns),
      r.excludeMulticast,
      Normalization.Get(s, Normalization.Domains), Normalization.Get(s, Normalization.WildcardDomains))
  }

  // ---- Texts ----------------------------------------------------------------

  lemma InterfaceIsCanonical(s: string)
    requires Lines.InterfaceName(s)
    ensures PlainIface(s) && Matcher.Canonical(s)
  {
    assert forall i :: 0 <= i < |s| ==> Lines.InterfaceChar(s[i]);
    assert ToLower(s) == s;
    TrimSpaceFixed(s);
  }

  /** What the network library prints for a hardware address: hexadecimal digits and colons. */
  predicate TidyMac(v: string) {
    v != "" && NoChar(v, '#') && !IsSpace(v[0]) && !IsSpace(v[|v| - 1])
  }

  ghost predicate MacsTidy(ps: Lines.Parsers) {
    forall t :: ps.mac(t).Some? ==> TidyMac(ps.mac(t).value)
  }

  lemma MacIsCanonical(v: string)
    requires TidyMac(v)
    ensures ToLower(v) != "" && NoChar(ToLower(v), '#') && Matcher.Canonical(ToLower(v))
  {
    var s := ToLower(v);
    assert forall i :: 0 <= i < |s| ==> s[i] == LowerChar(v[i]);
    assert ToLower(s) == s;
    TrimSpaceFixed(s);
  }

  lemma InterfacesCanonical(ps: Lines.Parsers, raw: seq<string>, x: string)
    requires Lines.NormalizedList(ps, Lines.InterfaceField, raw).Some? && x in Lines.NormalizedList(ps, Lines.InterfaceField, raw).value
    ensures PlainIface(x) && Matcher.Canonical(x)
  {
    Lines.NormalizedListContents(ps, Lines.InterfaceField, raw);
    var i :| 0 <= i < |raw| && Lines.FormOf(ps, Lines.InterfaceField, raw[i]) == Lines.Valid(x);
    InterfaceIsCanonical(x);
  }

  lemma MacsCanonical(ps: Lines.Parsers, raw: seq<string>, x: string)
    requires MacsTidy(ps) && Lines.NormalizedList(ps, Lines.MacField, raw).Some? && x in Lines.NormalizedList(ps, Lines.MacField, raw).value
    ensures x != "" && NoChar(x, '#') && Matcher.Canonical(x)
  {
    Lines.NormalizedListContents(ps, Lines.MacField, raw);
    var i :| 0 <= i < |raw| && Lines.FormOf(ps, Lines.MacField, raw[i]) == Lines.Valid(x);
    MacIsCanonical(ps.mac(TrimSpace(raw[i])).value);
  }

  lemma PortsNormal(raw: seq<Ports.PortSelector>)
    requires Ports.NormalizedPorts(raw).Some?
    ensures NormalPorts(Ranges(Ports.NormalizedPorts(raw).value))
  {
    Ports.NormalizedShape(raw);
    var ports := Ports.NormalizedPorts(raw).value;
    forall i | 0 <= i < |ports|
      ensures NormalPort(Ranges(ports)[i])
    {
      assert Ports.IsCanonical(ports[i]);
    }
  }

  // ---- Rules ----------------------------------------------------------------

  /** Whatever the normalizer accepts has the form that the matcher and the compiler rely on. */
  lemma NormalizedRuleIsCanonical(ps: Lines.Parsers, parse: string -> Prefix, input: Normalization.Rule, index: nat)
    requires MacsTidy(ps) && Normalization.NormalizeRule(ps, input, index).Some?
    ensures Matcher.CanonicalRule(StoredRule(parse, Normalization.NormalizeRule(ps, input, index).value))
  {
    hide Lines.NormalizedList, Ports.NormalizedPorts, Ports.ParsedPorts, PlainIface, Matcher.Canonical, Normalization.HydratedLines,
         Normalization.Finalized, Normalization.HasAnyLine, Normalization.RuleName, NoChar, NormalPorts, Ranges,
         Normalization.PortFieldLines, MacsTidy, Lines.SelectorValues;
    var rule := Normalization.NormalizeRule(ps, input, index).value;
    var lines := Normalization.Hydrated(Normalization.RawOf(input), input);
    var ifaces := Lines.SelectorValues(Normalization.Get(lines.lines, Normalization.SourceInterfaces));
    var macs := Lines.SelectorValues(Normalization.Get(lines.lines, Normalization.SourceMacs));
    forall x | x in Normalization.Get(rule.selectors, Normalization.SourceInterfaces)
      ensures PlainIface(x) && Matcher.Canonical(x)
    {
      InterfacesCanonical(ps, ifaces, x);
    }
    forall x | x in Normalization.Get(rule.selectors, Normalization.SourceMacs)
      ensures x != "" && NoChar(x, '#') && Matcher.Canonical(x)
    {
      MacsCanonical(ps, macs, x);
    }
    PortValuesNormal(input.destinationPorts, lines.destinationPorts);
    PortValuesNormal(input.excludedDestinationPorts, lines.excludedDestinationPorts);
  }

  lemma PortValuesNormal(ports: seq<Ports.PortSelector>, lines: seq<string>)
    requires Normalization.PortValues(ports, lines).Some?
    ensures NormalPorts(Ranges(Normalization.PortValues(ports, lines).value))
  {
    PortsNormal(if ports == [] then Ports.ParsedPorts(Lines.SelectorValues(lines)).value else ports);
  }

  lemma CanonicalBindingIsNormalized(g: DomainGroup, r: RoutingRule, i: nat, profile: Profile)
    requires Matcher.CanonicalRule(r)
    ensures Normalized(BuildBinding(g, r, i, profile))
  {
    hide NormalPorts, PlainIface, Matcher.Canonical, Pair;
    assert forall j :: 0 <= j < |r.sourceInterfaces| ==> r.sourceInterfaces[j] in r.sourceInterfaces;
    assert forall j :: 0 <= j < |r.sourceMacs| ==> r.sourceMacs[j] in r.sourceMacs;
  }

  // ---- Groups ---------------------------------------------------------------

  datatype UserGroup = UserGroup(name: string, egressVpn: string, rules: seq<Normalization.Rule>)

  function NormalizedRules(ps: Lines.Parsers, parse: string -> Prefix, rules: seq<Normalization.Rule>): Option<seq<RoutingRule>> {
    if rules == [] then Some([])
    else
      var n := |rules| - 1;
      var before, r := NormalizedRules(ps, parse, rules[..n]), Normalization.NormalizeRule(ps, rules[n], n);
      if before.None? || r.None? then None else Some(before.value + [StoredRule(parse, r.value)])
  }

  function NormalizedGroups(ps: Lines.Parsers, parse: string -> Prefix, groups: seq<UserGroup>): Option<seq<DomainGroup>> {
    if groups == [] then Some([])
    else
      var n := |groups| - 1;
      var before, rules := NormalizedGroups(ps, parse, groups[..n]), NormalizedRules(ps, parse, groups[n].rules);
      if before.None? || rules.None? then None
      else Some(before.value + [DomainGroup(groups[n].name, groups[n].egressVpn, rules.value)])
  }

  ghost predicate CanonicalRules(rules: seq<RoutingRule>) {
    forall i :: 0 <= i < |rules| ==> Matcher.CanonicalRule(rules[i])
  }

  ghost predicate CanonicalGroups(groups: seq<DomainGroup>) {
    forall i :: 0 <= i < |groups| ==> CanonicalRules(groups[i].rules)
  }

  lemma {:induction false} RulesCanonical(ps: Lines.Parsers, parse: string -> Prefix, rules: seq<Normalization.Rule>)
    requires MacsTidy(ps) && NormalizedRules(ps, parse, rules).Some?
    ensures CanonicalRules(NormalizedRules(ps, parse, rules).value)
  {
    hide Normalization.NormalizeRule, Matcher.CanonicalRule, StoredRule, MacsTidy;
    if rules != [] {
      var n := |rules| - 1;
      RulesCanonical(ps, parse, rules[..n]);
      NormalizedRuleIsCanonical(ps, parse, rules[n], n);
    }
  }

  lemma {:induction false} GroupsCanonical(ps: Lines.Parsers, parse: string -> Prefix, groups: seq<UserGroup>)
    requires MacsTidy(ps) && NormalizedGroups(ps, parse, groups).Some?
    ensures CanonicalGroups(NormalizedGroups(ps, parse, groups).value)
  {
    hide NormalizedRules, CanonicalRules, MacsTidy;
    if groups != [] {
      var n := |groups| - 1;
      GroupsCanonical(ps, parse, groups[..n]);
      RulesCanonical(ps, parse, groups[n].rules);
    }
  }

  lemma {:induction false} InsertKeepsCanonical(g: DomainGroup, gs: seq<DomainGroup>)
    requires CanonicalRules(g.rules) && CanonicalGroups(gs)
    ensures CanonicalGroups(InsertGroup(g, gs))
  {
    hide CanonicalRules;
    if gs != [] {
      InsertKeepsCanonical(g, gs[1..]);
    }
  }

  lemma {:induction false} SortKeepsCanonical(gs: seq<DomainGroup>)
    requires CanonicalGroups(gs)
    ensures CanonicalGroups(SortGroups(gs))
  {
    hide CanonicalRules;
    if gs != [] {
      SortKeepsCanonical(gs[1..]);
      InsertKeepsCanonical(gs[0], SortGroups(gs[1..]));
    }
  }

  lemma {:induction false} GroupBindingsNormalized(g: DomainGroup, n: nat, profile: Profile)
    requires n <= |g.rules| && CanonicalRules(g.rules)
    ensures AllNormalized(GroupBindings(g, n, profile))
  {
    hide Normalized, BuildBinding, Matcher.CanonicalRule, HasSelectors;
    if n > 0 {
      GroupBindingsNormalized(g, n - 1, profile);
      CanonicalBindingIsNormalized(g, g.rules[n - 1], n - 1, profile);
    }
  }

  lemma {:induction false} BindingsNormalized(groups: seq<DomainGroup>, profiles: map<string, Profile>)
    requires ProfilesUsable(groups, profiles) && CanonicalGroups(groups)
    ensures AllNormalized(AllBindings(groups, profiles))
  {
    hide Normalized, CanonicalRules;
    if groups != [] {
      var g := groups[|groups| - 1];
      BindingsNormalized(groups[..|groups| - 1], profiles);
      GroupBindingsNormalized(g, |g.rules|, profiles[g.egressVpn]);
    }
  }

  /** The ruleset planned from groups that passed normalization meets what the compiler asks for. */
  lemma PlannedIsNormalized(ps: Lines.Parsers, parse: string -> Prefix, groups: seq<UserGroup>, q: Request)
    requires MacsTidy(ps) && NormalizedGroups(ps, parse, groups) == Some(q.groups) && PlanUsable(q)
    ensures AllNormalized(PlannedRuleset(q))
  {
    hide MacsTidy, NormalizedGroups, CanonicalGroups, AllNormalized, AllBindings, SortBindings;
    GroupsCanonical(ps, parse, groups);
    SortKeepsCanonical(q.groups);
    BindingsNormalized(SortGroups(q.groups), q.profiles);
    SortBindingsNormalized(AllBindings(SortGroups(q.groups), q.profiles));
  }
}
