/**
  What one apply of the routing manager wants: the bindings of all rules and the
  contents of all ipsets. The fast refresh computes only the destination sets.
 */
module RoutingPlan {
  import opened Text
  import opened Netfilter
  import opened Bindings
  import opened SetNames

  datatype RoutingRule = RoutingRule(
    sourceInterfaces: seq<string>, sourceMacs: seq<string>,
    sourceCidrs: seq<Prefix>, excludedSourceCidrs: seq<Prefix>,
    destinationCidrs: seq<Prefix>, excludedDestinationCidrs: seq<Prefix>,
    destinationPorts: seq<PortRange>, excludedDestinationPorts: seq<PortRange>,
    destinationAsns: seq<string>, excludedDestinationAsns: seq<string>,
    excludeMulticast: Option<bool>,
    domains: seq<string>, wildcardDomains: seq<string>)

  datatype DomainGroup = DomainGroup(name: string, egressVpn: string, rules: seq<RoutingRule>)

  datatype Selector = Asn(key: string) | Domain(key: string) | Wildcard(key: string)

  datatype Values = Values(v4: seq<Prefix>, v6: seq<Prefix>)

  datatype Profile = Profile(routeTable: int, fwMark: nat, ifaceName: string, clampV4: Clamp, clampV6: Clamp)

  datatype DesiredSet = DesiredSet(family: Family, entries: seq<Prefix>)

  type Desired = map<string, DesiredSet>

  // ---- Rules ----------------------------------------------------------------

  predicate HasSelectors(r: RoutingRule) {
    r.sourceInterfaces != [] || r.sourceCidrs != [] || r.excludedSourceCidrs != [] || r.sourceMacs != [] ||
    r.destinationCidrs != [] || r.excludedDestinationCidrs != [] || r.destinationPorts != [] ||
    r.excludedDestinationPorts != [] || r.destinationAsns != [] || r.excludedDestinationAsns != [] ||
    r.domains != [] || r.wildcardDomains != []
  }

  predicate NeedsSource(r: RoutingRule) { r.sourceCidrs != [] }

  predicate NeedsExcludedSource(r: RoutingRule) { r.excludedSourceCidrs != [] }

  predicate NeedsDestination(r: RoutingRule) {
    r.destinationCidrs != [] || r.destinationAsns != [] || r.domains != [] || r.wildcardDomains != []
  }

  predicate NeedsExcludedDestination(r: RoutingRule) {
    r.excludedDestinationCidrs != [] || r.excludedDestinationAsns != []
  }

  predicate ExcludesMulticast(r: RoutingRule) {
    r.excludeMulticast.None? || r.excludeMulticast.value
  }

  function Pair(group: string, index: nat, kind: SetKind): SetPair {
    SetPair(SetName(group, index, kind, V4), SetName(group, index, kind, V6))
  }

  /** The binding of rule `index` of a group. */
  function BuildBinding(group: DomainGroup, rule: RoutingRule, index: nat, profile: Profile): RouteBinding {
    RouteBinding(
      group.name, index, rule.sourceInterfaces, rule.sourceMacs,
      Pair(group.name, index, Source), Pair(group.name, index, ExcludedSource),
      Pair(group.name, index, Destination), Pair(group.name, index, ExcludedDestination),
      NeedsSource(rule), NeedsExcludedSource(rule), NeedsDestination(rule), NeedsExcludedDestination(rule),
      rule.destinationPorts, rule.excludedDestinationPorts, ExcludesMulticast(rule),
      profile.fwMark, profile.routeTable, profile.ifaceName, group.egressVpn, profile.clampV4, profile.clampV6)
  }

  // ---- Entries of the sets --------------------------------------------------

  function ResolvedEntries(selector: Selector, resolved: map<Selector, Values>): seq<Prefix> {
    if selector in resolved then resolved[selector].v4 + resolved[selector].v6 else []
  }

  function AsnEntries(asns: seq<string>, resolved: map<Selector, Values>): seq<Prefix> {
    if asns == [] then [] else ResolvedEntries(Asn(asns[0]), resolved) + AsnEntries(asns[1..], resolved)
  }

  function DomainEntries(domains: seq<string>, resolved: map<Selector, Values>): seq<Prefix> {
    if domains == [] then [] else ResolvedEntries(Domain(domains[0]), resolved) + DomainEntries(domains[1..], resolved)
  }

  function WildcardEntries(domains: seq<string>, resolved: map<Selector, Values>): seq<Prefix> {
    if domains == [] then [] else ResolvedEntries(Wildcard(domains[0]), resolved) + WildcardEntries(domains[1..], resolved)
  }

  function PrewarmedEntries(name: string, prewarmed: map<string, Values>): seq<Prefix> {
    if name in prewarmed then prewarmed[name].v4 + prewarmed[name].v6 else []
  }

  function DestinationEntries(group: string, index: nat, r: RoutingRule,
                              resolved: map<Selector, Values>, prewarmed: map<string, Values>): seq<Prefix> {
    r.destinationCidrs + AsnEntries(r.destinationAsns, resolved) + DomainEntries(r.domains, resolved)
    + WildcardEntries(r.wildcardDomains, resolved)
    + PrewarmedEntries(SetName(group, index, Destination, V4), prewarmed)
    + PrewarmedEntries(SetName(group, index, Destination, V6), prewarmed)
  }

  function ExcludedDestinationEntries(r: RoutingRule, resolved: map<Selector, Values>): seq<Prefix> {
    r.excludedDestinationCidrs + AsnEntries(r.excludedDestinationAsns, resolved)
  }

  function OfFamily(entries: seq<Prefix>, family: Family): seq<Prefix> {
    if entries == [] then []
    else if entries[0].addr.family == family then [entries[0]] + OfFamily(entries[1..], family)
    else OfFamily(entries[1..], family)
  }

  // ---- Desired sets ---------------------------------------------------------

  /** Appends entries to a desired set, creating it on first use. */
  function Queue(d: Desired, name: string, family: Family, entries: seq<Prefix>): Desired {
    d[name := if name in d then d[name].(entries := d[name].entries + entries) else DesiredSet(family, entries)]
  }

  function QueuePair(d: Desired, group: string, index: nat, kind: SetKind, entries: seq<Prefix>): Desired {
    Queue(Queue(d, SetName(group, index, kind, V4), V4, OfFamily(entries, V4)),
          SetName(group, index, kind, V6), V6, OfFamily(entries, V6))
  }

  function QueueDestinations(d: Desired, group: string, index: nat, r: RoutingRule,
                             resolved: map<Selector, Values>, prewarmed: map<string, Values>): Desired {
    var d1 := if NeedsDestination(r)
              then QueuePair(d, group, index, Destination, DestinationEntries(group, index, r, resolved, prewarmed))
              else d;
    if NeedsExcludedDestination(r)
    then QueuePair(d1, group, index, ExcludedDestination, ExcludedDestinationEntries(r, resolved))
    else d1
  }

  function QueueSources(d: Desired, group: string, index: nat, r: RoutingRule): Desired {
    var d1 := if NeedsSource(r) then QueuePair(d, group, index, Source, r.sourceCidrs) else d;
    if NeedsExcludedSource(r) then QueuePair(d1, group, index, ExcludedSource, r.excludedSourceCidrs) else d1
  }

  /** The sets of the rules before `n` in a group, on the full path. */
  function FullRules(d: Desired, g: DomainGroup, n: nat,
                     resolved: map<Selector, Values>, prewarmed: map<string, Values>): Desired
    requires n <= |g.rules|
  {
    if n == 0 then d
    else
      var d1 := FullRules(d, g, n - 1, resolved, prewarmed);
      if !HasSelectors(g.rules[n - 1]) then d1
      else QueueDestinations(QueueSources(d1, g.name, n - 1, g.rules[n - 1]), g.name, n - 1, g.rules[n - 1], resolved, prewarmed)
  }

  function FastRules(d: Desired, g: DomainGroup, n: nat,
                     resolved: map<Selector, Values>, prewarmed: map<string, Values>): Desired
    requires n <= |g.rules|
  {
    if n == 0 then d
    else QueueDestinations(FastRules(d, g, n - 1, resolved, prewarmed), g.name, n - 1, g.rules[n - 1], resolved, prewarmed)
  }

  function FullDesired(groups: seq<DomainGroup>, resolved: map<Selector, Values>, prewarmed: map<string, Values>): Desired {
    if groups == [] then map[]
    else
      var g := groups[|groups| - 1];
      FullRules(FullDesired(groups[..|groups| - 1], resolved, prewarmed), g, |g.rules|, resolved, prewarmed)
  }

  function FastDesired(groups: seq<DomainGroup>, resolved: map<Selector, Values>, prewarmed: map<string, Values>): Desired {
    if groups == [] then map[]
    else
      var g := groups[|groups| - 1];
      FastRules(FastDesired(groups[..|groups| - 1], resolved, prewarmed), g, |g.rules|, resolved, prewarmed)
  }

  // ---- Fast refresh agrees with full apply ----------------------------------

  /** `name` belongs to a destination or excluded-destination set of some rule. */
  ghost predicate IsDestinationName(name: string) {
    exists g, i, kind, f :: (kind == Destination || kind == ExcludedDestination) && name == SetName(g, i, kind, f)
  }

  /** `fast` is `full` restricted to destination names. */
  ghost predicate Agrees(full: Desired, fast: Desired) {
    forall name :: (name in fast <==> name in full && IsDestinationName(name))
                   && (name in fast ==> fast[name] == full[name])
  }

  lemma SourceNameIsNoDestination(g: string, i: nat, kind: SetKind, f: Family)
    requires kind == Source || kind == ExcludedSource
    ensures !IsDestinationName(SetName(g, i, kind, f))
  {
    if IsDestinationName(SetName(g, i, kind, f)) {
      var g', i', kind', f' :| (kind' == Destination || kind' == ExcludedDestination)
                               && SetName(g, i, kind, f) == SetName(g', i', kind', f');
      SetNameInjective(g, i, kind, f, g', i', kind', f');
    }
  }

  lemma QueueBoth(full: Desired, fast: Desired, name: string, family: Family, entries: seq<Prefix>)
    requires Agrees(full, fast) && IsDestinationName(name)
    ensures Agrees(Queue(full, name, family, entries), Queue(fast, name, family, entries))
  {
  }

  lemma QueueFull(full: Desired, fast: Desired, name: string, family: Family, entries: seq<Prefix>)
    requires Agrees(full, fast) && !IsDestinationName(name)
    ensures Agrees(Queue(full, name, family, entries), fast)
  {
  }

  lemma QueuePairBoth(full: Desired, fast: Desired, g: string, i: nat, kind: SetKind, entries: seq<Prefix>)
    requires Agrees(full, fast) && (kind == Destination || kind == ExcludedDestination)
    ensures Agrees(QueuePair(full, g, i, kind, entries), QueuePair(fast, g, i, kind, entries))
  {
    QueueBoth(full, fast, SetName(g, i, kind, V4), V4, OfFamily(entries, V4));
    QueueBoth(Queue(full, SetName(g, i, kind, V4), V4, OfFamily(entries, V4)),
              Queue(fast, SetName(g, i, kind, V4), V4, OfFamily(entries, V4)),
              SetName(g, i, kind, V6), V6, OfFamily(entries, V6));
  }

  lemma QueuePairFull(full: Desired, fast: Desired, g: string, i: nat, kind: SetKind, entries: seq<Prefix>)
    requires Agrees(full, fast) && (kind == Source || kind == ExcludedSource)
    ensures Agrees(QueuePair(full, g, i, kind, entries), fast)
  {
    SourceNameIsNoDestination(g, i, kind, V4);
    SourceNameIsNoDestination(g, i, kind, V6);
    QueueFull(full, fast, SetName(g, i, kind, V4), V4, OfFamily(entries, V4));
    QueueFull(Queue(full, SetName(g, i, kind, V4), V4, OfFamily(entries, V4)), fast,
              SetName(g, i, kind, V6), V6, OfFamily(entries, V6));
  }

  lemma {:induction false} RulesAgree(full: Desired, fast: Desired, g: DomainGroup, n: nat,
                                      resolved: map<Selector, Values>, prewarmed: map<string, Values>)
    requires n <= |g.rules| && Agrees(full, fast)
    ensures Agrees(FullRules(full, g, n, resolved, prewarmed), FastRules(fast, g, n, resolved, prewarmed))
  {
    hide QueuePair, DestinationEntries, ExcludedDestinationEntries, Agrees;
    if n > 0 {
      RulesAgree(full, fast, g, n - 1, resolved, prewarmed);
      var full1, fast1 := FullRules(full, g, n - 1, resolved, prewarmed), FastRules(fast, g, n - 1, resolved, prewarmed);
      var r, i := g.rules[n - 1], n - 1;
      if HasSelectors(r) {
        var full2 := full1;
        if NeedsSource(r) {
          QueuePairFull(full2, fast1, g.name, i, Source, r.sourceCidrs);
          full2 := QueuePair(full2, g.name, i, Source, r.sourceCidrs);
        }
        if NeedsExcludedSource(r) {
          QueuePairFull(full2, fast1, g.name, i, ExcludedSource, r.excludedSourceCidrs);
          full2 := QueuePair(full2, g.name, i, ExcludedSource, r.excludedSourceCidrs);
        }
        assert full2 == QueueSources(full1, g.name, i, r);
        var fast2 := fast1;
        if NeedsDestination(r) {
          var entries := DestinationEntries(g.name, i, r, resolved, prewarmed);
          QueuePairBoth(full2, fast2, g.name, i, Destination, entries);
          full2, fast2 := QueuePair(full2, g.name, i, Destination, entries), QueuePair(fast2, g.name, i, Destination, entries);
        }
        if NeedsExcludedDestination(r) {
          QueuePairBoth(full2, fast2, g.name, i, ExcludedDestination, ExcludedDestinationEntries(r, resolved));
        }
      }
    }
  }

  /**
    For the same groups and the same snapshots, the fast refresh wants exactly the
    destination and excluded-destination sets that a full apply wants, with the
    same entries, even when set names of different groups coincide.
   */
  lemma {:induction false} FastRefreshAgrees(groups: seq<DomainGroup>, resolved: map<Selector, Values>,
                                             prewarmed: map<string, Values>)
    ensures Agrees(FullDesired(groups, resolved, prewarmed), FastDesired(groups, resolved, prewarmed))
  {
    if groups != [] {
      var front, g := groups[..|groups| - 1], groups[|groups| - 1];
      FastRefreshAgrees(front, resolved, prewarmed);
      RulesAgree(FullDesired(front, resolved, prewarmed), FastDesired(front, resolved, prewarmed), g, |g.rules|, resolved, prewarmed);
    }
  }

  // ---- The loops ------------------------------------------------------------

  /** The loop of the fast refresh over groups and rules. */
  method DesiredDestinations(groups: seq<DomainGroup>, resolved: map<Selector, Values>, prewarmed: map<string, Values>)
    returns (desired: Desired)
    ensures desired == FastDesired(groups, resolved, prewarmed)
  {
    hide QueuePair, DestinationEntries, ExcludedDestinationEntries;
    desired := map[];
    for i := 0 to |groups|
      invariant desired == FastDesired(groups[..i], resolved, prewarmed)
    {
      assert groups[..i + 1][..i] == groups[..i];
      var g := groups[i];
      ghost var before := desired;
      for j := 0 to |g.rules|
        invariant desired == FastRules(before, g, j, resolved, prewarmed)
      {
        if !NeedsDestination(g.rules[j]) && !NeedsExcludedDestination(g.rules[j]) {
          continue;
        }
        if NeedsDestination(g.rules[j]) {
          desired := QueuePair(desired, g.name, j, Destination, DestinationEntries(g.name, j, g.rules[j], resolved, prewarmed));
        }
        if NeedsExcludedDestination(g.rules[j]) {
          desired := QueuePair(desired, g.name, j, ExcludedDestination, ExcludedDestinationEntries(g.rules[j], resolved));
        }
      }
    }
    assert groups[..|groups|] == groups;
  }

  datatype Plan = Refused(group: string) | Planned(bindings: seq<RouteBinding>, desired: Desired)

  /** A profile that a group may egress through. */
  predicate Usable(p: Profile) {
    p.routeTable >= 200 && p.fwMark >= 200 && TrimSpace(p.ifaceName) != ""
  }

  /** The bindings of the first `n` rules of a group. */
  function GroupBindings(g: DomainGroup, n: nat, profile: Profile): seq<RouteBinding>
    requires n <= |g.rules|
  {
    if n == 0 then []
    else
      GroupBindings(g, n - 1, profile) +
      (if HasSelectors(g.rules[n - 1]) then [BuildBinding(g, g.rules[n - 1], n - 1, profile)] else [])
  }

  predicate ProfilesUsable(groups: seq<DomainGroup>, profiles: map<string, Profile>) {
    forall i :: 0 <= i < |groups| ==> groups[i].egressVpn in profiles && Usable(profiles[groups[i].egressVpn])
  }

  function AllBindings(groups: seq<DomainGroup>, profiles: map<string, Profile>): seq<RouteBinding>
    requires ProfilesUsable(groups, profiles)
  {
    if groups == [] then []
    else
      var g := groups[|groups| - 1];
      AllBindings(groups[..|groups| - 1], profiles) + GroupBindings(g, |g.rules|, profiles[g.egressVpn])
  }

  /** Queues the sets of one rule. */
  method QueueRuleSets(desired0: Desired, group: string, index: nat, r: RoutingRule,
                       resolved: map<Selector, Values>, prewarmed: map<string, Values>) returns (desired: Desired)
    ensures desired == QueueDestinations(QueueSources(desired0, group, index, r), group, index, r, resolved, prewarmed)
  {
    hide QueuePair, DestinationEntries, ExcludedDestinationEntries;
    desired := desired0;
    if NeedsSource(r) {
      desired := QueuePair(desired, group, index, Source, r.sourceCidrs);
    }
    if NeedsExcludedSource(r) {
      desired := QueuePair(desired, group, index, ExcludedSource, r.excludedSourceCidrs);
    }
    if NeedsDestination(r) {
      desired := QueuePair(desired, group, index, Destination, DestinationEntries(group, index, r, resolved, prewarmed));
    }
    if NeedsExcludedDestination(r) {
      desired := QueuePair(desired, group, index, ExcludedDestination, ExcludedDestinationEntries(r, resolved));
    }
  }

  /** The loop of the full apply over groups and rules. */
  method BuildPlan(groups: seq<DomainGroup>, profiles: map<string, Profile>,
                   resolved: map<Selector, Values>, prewarmed: map<string, Values>) returns (plan: Plan)
    ensures plan.Planned? <==> ProfilesUsable(groups, profiles)
    ensures plan.Planned? ==> plan.desired == FullDesired(groups, resolved, prewarmed)
                              && plan.bindings == AllBindings(groups, profiles)
  {
    hide QueueDestinations, QueueSources, BuildBinding, HasSelectors, Usable;
    var desired, bindings: seq<RouteBinding> := map[], [];
    for i := 0 to |groups|
      invariant ProfilesUsable(groups[..i], profiles)
      invariant desired == FullDesired(groups[..i], resolved, prewarmed)
      invariant bindings == AllBindings(groups[..i], profiles)
    {
      assert groups[..i + 1][..i] == groups[..i];
      var g := groups[i];
      if g.egressVpn !in profiles || !Usable(profiles[g.egressVpn]) {
        return Refused(g.name);
      }
      var profile := profiles[g.egressVpn];
      ghost var desired0, bindings0 := desired, bindings;
      for j := 0 to |g.rules|
        invariant desired == FullRules(desired0, g, j, resolved, prewarmed)
        invariant bindings == bindings0 + GroupBindings(g, j, profile)
      {
        var r := g.rules[j];
        if !HasSelectors(r) {
          continue;
        }
        desired := QueueRuleSets(desired, g.name, j, r, resolved, prewarmed);
        bindings := bindings + [BuildBinding(g, r, j, profile)];
      }
    }
    assert groups[..|groups|] == groups;
    plan := Planned(bindings, desired);
  }

  // ---- Every set a binding uses is desired ----------------------------------

  predicate InDesired(d: Desired, pair: SetPair) {
    pair.v4 in d && pair.v6 in d
  }

  /** All sets the binding refers to are among the desired sets. */
  predicate SetsDesired(b: RouteBinding, d: Desired) {
    && (b.hasSource ==> InDesired(d, b.source))
    && (b.hasExcludedSource ==> InDesired(d, b.excludedSource))
    && (b.hasDestination ==> InDesired(d, b.destination))
    && (b.hasExcludedDestination ==> InDesired(d, b.excludedDestination))
  }

  predicate AllSetsDesired(bs: seq<RouteBinding>, d: Desired) {
    forall i :: 0 <= i < |bs| ==> SetsDesired(bs[i], d)
  }

  lemma StillDesired(bs: seq<RouteBinding>, d: Desired, d': Desired)
    requires AllSetsDesired(bs, d) && d.Keys <= d'.Keys
    ensures AllSetsDesired(bs, d')
  {
    forall i | 0 <= i < |bs|
      ensures SetsDesired(bs[i], d')
    {
      assert SetsDesired(bs[i], d);
    }
  }

  lemma QueueGrows(d: Desired, g: string, i: nat, kind: SetKind, entries: seq<Prefix>)
    ensures d.Keys <= QueuePair(d, g, i, kind, entries).Keys
    ensures InDesired(QueuePair(d, g, i, kind, entries), Pair(g, i, kind))
  {
  }

  lemma RuleSetsDesired(d: Desired, g: DomainGroup, i: nat, r: RoutingRule, profile: Profile,
                        resolved: map<Selector, Values>, prewarmed: map<string, Values>)
    ensures var d' := QueueDestinations(QueueSources(d, g.name, i, r), g.name, i, r, resolved, prewarmed);
      d.Keys <= d'.Keys && SetsDesired(BuildBinding(g, r, i, profile), d')
  {
    hide QueuePair, DestinationEntries, ExcludedDestinationEntries, Pair;
    var d1 := if NeedsSource(r) then QueuePair(d, g.name, i, Source, r.sourceCidrs) else d;
    var d2 := QueueSources(d, g.name, i, r);
    var entries := DestinationEntries(g.name, i, r, resolved, prewarmed);
    var d3 := if NeedsDestination(r) then QueuePair(d2, g.name, i, Destination, entries) else d2;
    QueueGrows(d, g.name, i, Source, r.sourceCidrs);
    QueueGrows(d1, g.name, i, ExcludedSource, r.excludedSourceCidrs);
    QueueGrows(d2, g.name, i, Destination, entries);
    QueueGrows(d3, g.name, i, ExcludedDestination, ExcludedDestinationEntries(r, resolved));
  }

  lemma {:induction false} GroupSetsDesired(d: Desired, g: DomainGroup, n: nat, profile: Profile,
                                            resolved: map<Selector, Values>, prewarmed: map<string, Values>)
    requires n <= |g.rules|
    ensures d.Keys <= FullRules(d, g, n, resolved, prewarmed).Keys
    ensures AllSetsDesired(GroupBindings(g, n, profile), FullRules(d, g, n, resolved, prewarmed))
  {
    hide QueueDestinations, QueueSources, BuildBinding, SetsDesired;
    if n > 0 {
      GroupSetsDesired(d, g, n - 1, profile, resolved, prewarmed);
      var d1, bs := FullRules(d, g, n - 1, resolved, prewarmed), GroupBindings(g, n - 1, profile);
      RuleSetsDesired(d1, g, n - 1, g.rules[n - 1], profile, resolved, prewarmed);
      StillDesired(bs, d1, FullRules(d, g, n, resolved, prewarmed));
    }
  }

  /** Full apply creates every set that the rules of its bindings will name. */
  lemma {:induction false} BindingSetsDesired(groups: seq<DomainGroup>, profiles: map<string, Profile>,
                                              resolved: map<Selector, Values>, prewarmed: map<string, Values>)
    requires ProfilesUsable(groups, profiles)
    ensures AllSetsDesired(AllBindings(groups, profiles), FullDesired(groups, resolved, prewarmed))
  {
    if groups != [] {
      var front, g := groups[..|groups| - 1], groups[|groups| - 1];
      assert forall i :: 0 <= i < |front| ==> front[i] == groups[i];
      BindingSetsDesired(front, profiles, resolved, prewarmed);
      GroupSetsDesired(FullDesired(front, resolved, prewarmed), g, |g.rules|, profiles[g.egressVpn], resolved, prewarmed);
    }
  }
}
