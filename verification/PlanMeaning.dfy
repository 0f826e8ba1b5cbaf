/**
  What a plan collects, in terms of the rules as they are written: which sets there
  are, which prefixes they hold, and which packets a rule then routes.
 */
module PlanMeaning {
  import opened Text
  import opened Netfilter
  import opened Bindings
  import opened SetNames
  import opened RoutingPlan
  import opened SetStaging

  // ---- What a rule lists ----------------------------------------------------

  /** The rule restricts packets by this kind of address list. */
  predicate Restricts(r: RoutingRule, kind: SetKind) {
    match kind
    case Source => r.sourceCidrs != []
    case ExcludedSource => r.excludedSourceCidrs != []
    case Destination => r.destinationCidrs != [] || r.destinationAsns != [] || r.domains != [] || r.wildcardDomains != []
    case ExcludedDestination => r.excludedDestinationCidrs != [] || r.excludedDestinationAsns != []
  }

  predicate Among(x: Prefix, v: Values) {
    x in v.v4 || x in v.v6
  }

  predicate ResolvedTo(resolved: map<Selector, Values>, s: Selector, x: Prefix) {
    s in resolved && Among(x, resolved[s])
  }

  predicate PrewarmedTo(prewarmed: map<string, Values>, name: string, x: Prefix) {
    name in prewarmed && Among(x, prewarmed[name])
  }

  /** Rule `i` of a group lists the prefix, resolves to it, or was prewarmed with it. */
  ghost predicate Lists(group: string, i: nat, r: RoutingRule, kind: SetKind, x: Prefix,
                        resolved: map<Selector, Values>, prewarmed: map<string, Values>) {
    match kind
    case Source => x in r.sourceCidrs
    case ExcludedSource => x in r.excludedSourceCidrs
    case Destination =>
      || x in r.destinationCidrs
      || (exists a :: a in r.destinationAsns && ResolvedTo(resolved, Asn(a), x))
      || (exists d :: d in r.domains && ResolvedTo(resolved, Domain(d), x))
      || (exists d :: d in r.wildcardDomains && ResolvedTo(resolved, Wildcard(d), x))
      || PrewarmedTo(prewarmed, SetName(group, i, Destination, V4), x)
      || PrewarmedTo(prewarmed, SetName(group, i, Destination, V6), x)
    case ExcludedDestination =>
      || x in r.excludedDestinationCidrs
      || (exists a :: a in r.excludedDestinationAsns && ResolvedTo(resolved, Asn(a), x))
  }

  // ---- Membership in the collected entries ----------------------------------

  lemma {:induction false} OfFamilyHas(entries: seq<Prefix>, f: Family, x: Prefix)
    ensures x in OfFamily(entries, f) <==> x in entries && x.addr.family == f
  {
    if entries != [] {
      OfFamilyHas(entries[1..], f, x);
      assert entries == [entries[0]] + entries[1..];
    }
  }

  lemma {:induction false} AsnsHave(asns: seq<string>, resolved: map<Selector, Values>, x: Prefix)
    ensures x in AsnEntries(asns, resolved) <==> exists a :: a in asns && ResolvedTo(resolved, Asn(a), x)
  {
    if asns != [] {
      AsnsHave(asns[1..], resolved, x);
      assert asns == [asns[0]] + asns[1..];
    }
  }

  lemma {:induction false} DomainsHave(domains: seq<string>, resolved: map<Selector, Values>, x: Prefix)
    ensures x in DomainEntries(domains, resolved) <==> exists d :: d in domains && ResolvedTo(resolved, Domain(d), x)
  {
    if domains != [] {
      DomainsHave(domains[1..], resolved, x);
      assert domains == [domains[0]] + domains[1..];
    }
  }

  lemma {:induction false} WildcardsHave(domains: seq<string>, resolved: map<Selector, Values>, x: Prefix)
    ensures x in WildcardEntries(domains, resolved) <==> exists d :: d in domains && ResolvedTo(resolved, Wildcard(d), x)
  {
    if domains != [] {
      WildcardsHave(domains[1..], resolved, x);
      assert domains == [domains[0]] + domains[1..];
    }
  }

  /** The entries that the plan queues for one kind of set of a rule. */
  function Collected(group: string, i: nat, r: RoutingRule, kind: SetKind,
                     resolved: map<Selector, Values>, prewarmed: map<string, Values>): seq<Prefix> {
    match kind
    case Source => r.sourceCidrs
    case ExcludedSource => r.excludedSourceCidrs
    case Destination => DestinationEntries(group, i, r, resolved, prewarmed)
    case ExcludedDestination => ExcludedDestinationEntries(r, resolved)
  }

  lemma CollectedIsListed(group: string, i: nat, r: RoutingRule, kind: SetKind, x: Prefix,
                          resolved: map<Selector, Values>, prewarmed: map<string, Values>)
    ensures x in Collected(group, i, r, kind, resolved, prewarmed) <==> Lists(group, i, r, kind, x, resolved, prewarmed)
  {
    hide SetName, AsnEntries, DomainEntries, WildcardEntries;
    AsnsHave(r.destinationAsns, resolved, x);
    AsnsHave(r.excludedDestinationAsns, resolved, x);
    DomainsHave(r.domains, resolved, x);
    WildcardsHave(r.wildcardDomains, resolved, x);
  }

  // ---- Membership in the desired sets ---------------------------------------

  predicate Has(d: Desired, name: string, x: Prefix) {
    name in d && x in d[name].entries
  }

  predicate IsName(g: string, i: nat, kind: SetKind, n: string) {
    n == SetName(g, i, kind, V4) || n == SetName(g, i, kind, V6)
  }

  /** A set name tells the family of its set. */
  ghost predicate FamiliesRight(d: Desired) {
    forall name, g, i, kind, f :: name in d && name == SetName(g, i, kind, f) ==> d[name].family == f
  }

  lemma QueueHas(d: Desired, name: string, f: Family, entries: seq<Prefix>, n: string, x: Prefix)
    ensures n in Queue(d, name, f, entries) <==> n in d || n == name
    ensures Has(Queue(d, name, f, entries), n, x) <==> Has(d, n, x) || (n == name && x in entries)
    ensures n in d ==> Queue(d, name, f, entries)[n].family == d[n].family
    ensures n == name && n !in d ==> Queue(d, name, f, entries)[n].family == f
  {
  }

  lemma QueuePairHas(d: Desired, g: string, i: nat, kind: SetKind, entries: seq<Prefix>, n: string, x: Prefix)
    ensures n in QueuePair(d, g, i, kind, entries) <==> n in d || IsName(g, i, kind, n)
    ensures Has(QueuePair(d, g, i, kind, entries), n, x) <==>
      Has(d, n, x) || (x in entries && n == SetName(g, i, kind, x.addr.family))
  {
    hide SetName, Queue, Has;
    var n4, n6 := SetName(g, i, kind, V4), SetName(g, i, kind, V6);
    var d4 := Queue(d, n4, V4, OfFamily(entries, V4));
    QueueHas(d, n4, V4, OfFamily(entries, V4), n, x);
    QueueHas(d4, n6, V6, OfFamily(entries, V6), n, x);
    OfFamilyHas(entries, V4, x);
    OfFamilyHas(entries, V6, x);
  }

  lemma QueueFamilies(d: Desired, g: string, i: nat, kind: SetKind, f: Family, entries: seq<Prefix>)
    requires FamiliesRight(d)
    ensures FamiliesRight(Queue(d, SetName(g, i, kind, f), f, entries))
  {
    hide SetName;
    var d' := Queue(d, SetName(g, i, kind, f), f, entries);
    forall name, g', i', kind', f' | name in d' && name == SetName(g', i', kind', f')
      ensures d'[name].family == f'
    {
      if name !in d {
        SetNameInjective(g, i, kind, f, g', i', kind', f');
      }
    }
  }

  lemma QueuePairFamilies(d: Desired, g: string, i: nat, kind: SetKind, entries: seq<Prefix>)
    requires FamiliesRight(d)
    ensures FamiliesRight(QueuePair(d, g, i, kind, entries))
  {
    hide SetName, Queue, FamiliesRight;
    QueueFamilies(d, g, i, kind, V4, OfFamily(entries, V4));
    QueueFamilies(Queue(d, SetName(g, i, kind, V4), V4, OfFamily(entries, V4)), g, i, kind, V6, OfFamily(entries, V6));
  }

  /** One kind of set of a rule, if the rule has it. */
  function QueueKind(d: Desired, g: string, i: nat, r: RoutingRule, kind: SetKind,
                     resolved: map<Selector, Values>, prewarmed: map<string, Values>): Desired {
    if Restricts(r, kind) then QueuePair(d, g, i, kind, Collected(g, i, r, kind, resolved, prewarmed)) else d
  }

  /** Set `n` is one that rule `i` of the group needs. */
  ghost predicate Needed(g: string, i: nat, r: RoutingRule, n: string) {
    exists kind :: Restricts(r, kind) && IsName(g, i, kind, n)
  }

  /** The rule puts the prefix into set `n`. */
  ghost predicate Puts(g: string, i: nat, r: RoutingRule, n: string, x: Prefix,
                       resolved: map<Selector, Values>, prewarmed: map<string, Values>) {
    exists kind :: Restricts(r, kind) && n == SetName(g, i, kind, x.addr.family) && Lists(g, i, r, kind, x, resolved, prewarmed)
  }

  lemma QueueKindHas(d: Desired, g: string, i: nat, r: RoutingRule, kind: SetKind, n: string, x: Prefix,
                     resolved: map<Selector, Values>, prewarmed: map<string, Values>)
    ensures var d' := QueueKind(d, g, i, r, kind, resolved, prewarmed);
      && (n in d' <==> n in d || (Restricts(r, kind) && IsName(g, i, kind, n)))
      && (Has(d', n, x) <==>
          (Has(d, n, x) || (Restricts(r, kind) && n == SetName(g, i, kind, x.addr.family) && Lists(g, i, r, kind, x, resolved, prewarmed))))
      && (FamiliesRight(d) ==> FamiliesRight(d'))
  {
    hide SetName, Restricts, Lists, Collected, QueuePair, Has, FamiliesRight;
    var entries := Collected(g, i, r, kind, resolved, prewarmed);
    QueuePairHas(d, g, i, kind, entries, n, x);
    CollectedIsListed(g, i, r, kind, x, resolved, prewarmed);
    if FamiliesRight(d) { QueuePairFamilies(d, g, i, kind, entries); }
  }

  lemma RuleByKind(d: Desired, g: string, i: nat, r: RoutingRule, resolved: map<Selector, Values>, prewarmed: map<string, Values>)
    ensures QueueDestinations(QueueSources(d, g, i, r), g, i, r, resolved, prewarmed)
         == QueueKind(QueueKind(QueueKind(QueueKind(d, g, i, r, Source, resolved, prewarmed), g, i, r, ExcludedSource, resolved, prewarmed),
                                g, i, r, Destination, resolved, prewarmed), g, i, r, ExcludedDestination, resolved, prewarmed)
  {
    hide QueuePair, DestinationEntries, ExcludedDestinationEntries;
  }

  lemma RuleHas(d: Desired, g: string, i: nat, r: RoutingRule, n: string, x: Prefix,
                resolved: map<Selector, Values>, prewarmed: map<string, Values>)
    ensures var d' := QueueDestinations(QueueSources(d, g, i, r), g, i, r, resolved, prewarmed);
      && (n in d' <==> n in d || Needed(g, i, r, n))
      && (Has(d', n, x) <==> Has(d, n, x) || Puts(g, i, r, n, x, resolved, prewarmed))
      && (FamiliesRight(d) ==> FamiliesRight(d'))
  {
    hide SetName, Restricts, Lists, QueueKind, Has, FamiliesRight, QueueDestinations, QueueSources, IsName;
    RuleByKind(d, g, i, r, resolved, prewarmed);
    var d1 := QueueKind(d, g, i, r, Source, resolved, prewarmed);
    var d2 := QueueKind(d1, g, i, r, ExcludedSource, resolved, prewarmed);
    var d3 := QueueKind(d2, g, i, r, Destination, resolved, prewarmed);
    QueueKindHas(d, g, i, r, Source, n, x, resolved, prewarmed);
    QueueKindHas(d1, g, i, r, ExcludedSource, n, x, resolved, prewarmed);
    QueueKindHas(d2, g, i, r, Destination, n, x, resolved, prewarmed);
    QueueKindHas(d3, g, i, r, ExcludedDestination, n, x, resolved, prewarmed);
    if Needed(g, i, r, n) {
      var kind :| Restricts(r, kind) && IsName(g, i, kind, n);
      assert kind == Source || kind == ExcludedSource || kind == Destination || kind == ExcludedDestination;
    }
    if Puts(g, i, r, n, x, resolved, prewarmed) {
      var kind :| Restricts(r, kind) && n == SetName(g, i, kind, x.addr.family) && Lists(g, i, r, kind, x, resolved, prewarmed);
      assert kind == Source || kind == ExcludedSource || kind == Destination || kind == ExcludedDestination;
    }
  }

  lemma NoSelectorsNoSets(g: string, i: nat, r: RoutingRule, n: string)
    requires !HasSelectors(r)
    ensures !Needed(g, i, r, n)
  {
    hide SetName;
  }

  lemma PutIsNeeded(g: string, i: nat, r: RoutingRule, n: string, x: Prefix, resolved: map<Selector, Values>, prewarmed: map<string, Values>)
    requires Puts(g, i, r, n, x, resolved, prewarmed)
    ensures Needed(g, i, r, n)
  {
    hide SetName, Restricts, Lists;
    var kind :| Restricts(r, kind) && n == SetName(g, i, kind, x.addr.family) && Lists(g, i, r, kind, x, resolved, prewarmed);
    NameOfFamily(g, i, kind, x.addr.family);
  }

  lemma NameOfFamily(g: string, i: nat, kind: SetKind, f: Family)
    ensures IsName(g, i, kind, SetName(g, i, kind, f))
  {
    hide SetName;
    assert f == V4 || f == V6;
  }

  ghost predicate NeededIn(g: DomainGroup, m: nat, n: string) {
    exists i: nat :: i < m && i < |g.rules| && Needed(g.name, i, g.rules[i], n)
  }

  ghost predicate PutIn(g: DomainGroup, m: nat, n: string, x: Prefix, resolved: map<Selector, Values>, prewarmed: map<string, Values>) {
    exists i: nat :: i < m && i < |g.rules| && Puts(g.name, i, g.rules[i], n, x, resolved, prewarmed)
  }

  lemma {:induction false} RulesHave(d: Desired, g: DomainGroup, m: nat, n: string, x: Prefix,
                                     resolved: map<Selector, Values>, prewarmed: map<string, Values>)
    requires m <= |g.rules|
    ensures var d' := FullRules(d, g, m, resolved, prewarmed);
      && (n in d' <==> n in d || NeededIn(g, m, n))
      && (Has(d', n, x) <==> Has(d, n, x) || PutIn(g, m, n, x, resolved, prewarmed))
      && (FamiliesRight(d) ==> FamiliesRight(d'))
  {
    hide Needed, Puts, Has, FamiliesRight, QueueDestinations, QueueSources, HasSelectors;
    if m > 0 {
      RulesHave(d, g, m - 1, n, x, resolved, prewarmed);
      var r := g.rules[m - 1];
      RuleHas(FullRules(d, g, m - 1, resolved, prewarmed), g.name, m - 1, r, n, x, resolved, prewarmed);
      if !HasSelectors(r) { NoSelectorsNoSets(g.name, m - 1, r, n); }
      if Puts(g.name, m - 1, r, n, x, resolved, prewarmed) { PutIsNeeded(g.name, m - 1, r, n, x, resolved, prewarmed); }
      assert NeededIn(g, m, n) <==> NeededIn(g, m - 1, n) || Needed(g.name, m - 1, r, n);
      assert PutIn(g, m, n, x, resolved, prewarmed) <==>
        PutIn(g, m - 1, n, x, resolved, prewarmed) || Puts(g.name, m - 1, r, n, x, resolved, prewarmed);
    }
  }

  /** Some rule of the groups needs the set. */
  ghost predicate NeededBySome(groups: seq<DomainGroup>, n: string) {
    exists a: nat, i: nat :: a < |groups| && i < |groups[a].rules| && Needed(groups[a].name, i, groups[a].rules[i], n)
  }

  /** Some rule of the groups puts the prefix into the set. */
  ghost predicate PutBySome(groups: seq<DomainGroup>, n: string, x: Prefix, resolved: map<Selector, Values>, prewarmed: map<string, Values>) {
    exists a: nat, i: nat :: a < |groups| && i < |groups[a].rules| && Puts(groups[a].name, i, groups[a].rules[i], n, x, resolved, prewarmed)
  }

  lemma NeededSplit(groups: seq<DomainGroup>, n: string)
    requires groups != []
    ensures var m := |groups| - 1;
      NeededBySome(groups, n) <==> NeededBySome(groups[..m], n) || NeededIn(groups[m], |groups[m].rules|, n)
  {
    hide Needed;
    var m := |groups| - 1;
    if NeededBySome(groups[..m], n) {
      var a: nat, i: nat :| a < m && i < |groups[..m][a].rules| && Needed(groups[..m][a].name, i, groups[..m][a].rules[i], n);
      assert groups[..m][a] == groups[a];
    }
    if NeededBySome(groups, n) {
      var a: nat, i: nat :| a < |groups| && i < |groups[a].rules| && Needed(groups[a].name, i, groups[a].rules[i], n);
      if a < m { assert groups[..m][a] == groups[a]; }
    }
  }

  lemma PutSplit(groups: seq<DomainGroup>, n: string, x: Prefix, resolved: map<Selector, Values>, prewarmed: map<string, Values>)
    requires groups != []
    ensures var m := |groups| - 1;
      PutBySome(groups, n, x, resolved, prewarmed) <==>
        PutBySome(groups[..m], n, x, resolved, prewarmed) || PutIn(groups[m], |groups[m].rules|, n, x, resolved, prewarmed)
  {
    hide Puts;
    var m := |groups| - 1;
    if PutBySome(groups[..m], n, x, resolved, prewarmed) {
      var a: nat, i: nat :| a < m && i < |groups[..m][a].rules|
                            && Puts(groups[..m][a].name, i, groups[..m][a].rules[i], n, x, resolved, prewarmed);
      assert groups[..m][a] == groups[a];
    }
    if PutBySome(groups, n, x, resolved, prewarmed) {
      var a: nat, i: nat :| a < |groups| && i < |groups[a].rules| && Puts(groups[a].name, i, groups[a].rules[i], n, x, resolved, prewarmed);
      if a < m { assert groups[..m][a] == groups[a]; }
    }
  }

  /**
    The plan wants exactly the sets that its rules need, and a set of the plan holds
    exactly the prefixes of its family that the rules with that set name list, resolve
    to or were prewarmed with.
   */
  lemma {:induction false} PlannedEntries(groups: seq<DomainGroup>, n: string, x: Prefix,
                                          resolved: map<Selector, Values>, prewarmed: map<string, Values>)
    ensures var d := FullDesired(groups, resolved, prewarmed);
      && (n in d <==> NeededBySome(groups, n))
      && (Has(d, n, x) <==> PutBySome(groups, n, x, resolved, prewarmed))
      && FamiliesRight(d)
  {
    hide FullRules, NeededIn, PutIn;
    if groups != [] {
      var m := |groups| - 1;
      PlannedEntries(groups[..m], n, x, resolved, prewarmed);
      RulesHave(FullDesired(groups[..m], resolved, prewarmed), groups[m], |groups[m].rules|, n, x, resolved, prewarmed);
      NeededSplit(groups, n);
      PutSplit(groups, n, x, resolved, prewarmed);
    }
  }

  // ---- What the kernel then does --------------------------------------------

  /** The rule lists a prefix with the address. */
  ghost predicate Matches(group: string, i: nat, r: RoutingRule, kind: SetKind, a: Addr,
                          resolved: map<Selector, Values>, prewarmed: map<string, Values>) {
    exists x :: Lists(group, i, r, kind, x, resolved, prewarmed) && Netfilter.Contains(x, a)
  }

  /** No rule of another group has the set names of rule `i` of group `a`. */
  ghost predicate OwnsNames(groups: seq<DomainGroup>, a: nat, i: nat) {
    forall b: nat, kind, f :: b < |groups| && a < |groups| && b != a ==> SetName(groups[b].name, i, kind, f) != SetName(groups[a].name, i, kind, f)
  }

  /** A set of a rule matches exactly the addresses that the rule lists. */
  lemma SetMatches(k: Kernel, groups: seq<DomainGroup>, a: nat, i: nat, kind: SetKind, addr: Addr,
                   resolved: map<Selector, Values>, prewarmed: map<string, Values>)
    requires a < |groups| && i < |groups[a].rules| && Restricts(groups[a].rules[i], kind) && OwnsNames(groups, a, i)
    requires SetsCover(k, FullDesired(groups, resolved, prewarmed))
    ensures InSet(k.sets, SetName(groups[a].name, i, kind, addr.family), addr)
       <==> Matches(groups[a].name, i, groups[a].rules[i], kind, addr, resolved, prewarmed)
  {
    hide SetName, Lists, Restricts, FullDesired, Netfilter.Contains, OwnsNames;
    var d, n := FullDesired(groups, resolved, prewarmed), SetName(groups[a].name, i, kind, addr.family);
    var r := groups[a].rules[i];
    NameOfFamily(groups[a].name, i, kind, addr.family);
    assert Needed(groups[a].name, i, r, n);
    PlannedEntries(groups, n, SOME_PREFIX, resolved, prewarmed);
    assert n in d;
    forall x
      ensures (x in d[n].entries <==> PutBySome(groups, n, x, resolved, prewarmed))
    {
      PlannedEntries(groups, n, x, resolved, prewarmed);
    }
    forall x | Netfilter.Contains(x, addr)
      ensures PutBySome(groups, n, x, resolved, prewarmed) <==> Lists(groups[a].name, i, r, kind, x, resolved, prewarmed)
    {
      ContainsFamily(x, addr);
      PutByOwner(groups, a, i, kind, x, resolved, prewarmed);
    }
    assert InSet(k.sets, n, addr) <==> Covered(EntrySet(d[n].entries), addr);
  }

  const SOME_PREFIX := Prefix(Addr(V4, 0), 0)

  lemma ContainsFamily(x: Prefix, a: Addr)
    requires Netfilter.Contains(x, a)
    ensures x.addr.family == a.family
  {
  }

  lemma PutByOwner(groups: seq<DomainGroup>, a: nat, i: nat, kind: SetKind, x: Prefix,
                   resolved: map<Selector, Values>, prewarmed: map<string, Values>)
    requires a < |groups| && i < |groups[a].rules| && Restricts(groups[a].rules[i], kind) && OwnsNames(groups, a, i)
    ensures PutBySome(groups, SetName(groups[a].name, i, kind, x.addr.family), x, resolved, prewarmed)
       <==> Lists(groups[a].name, i, groups[a].rules[i], kind, x, resolved, prewarmed)
  {
    hide SetName, Lists, Restricts;
    var n := SetName(groups[a].name, i, kind, x.addr.family);
    if Lists(groups[a].name, i, groups[a].rules[i], kind, x, resolved, prewarmed) {
      assert Puts(groups[a].name, i, groups[a].rules[i], n, x, resolved, prewarmed);
    }
    if PutBySome(groups, n, x, resolved, prewarmed) {
      var b: nat, i': nat :| b < |groups| && i' < |groups[b].rules| && Puts(groups[b].name, i', groups[b].rules[i'], n, x, resolved, prewarmed);
      var kind' :| Restricts(groups[b].rules[i'], kind') && n == SetName(groups[b].name, i', kind', x.addr.family)
                   && Lists(groups[b].name, i', groups[b].rules[i'], kind', x, resolved, prewarmed);
      SetNameInjective(groups[a].name, i, kind, x.addr.family, groups[b].name, i', kind', x.addr.family);
    }
  }

  /** What the user means by a rule. */
  ghost predicate Intended(group: string, i: nat, r: RoutingRule, p: Packet, resolved: map<Selector, Values>, prewarmed: map<string, Values>) {
    && (Restricts(r, Source) ==> Matches(group, i, r, Source, p.src, resolved, prewarmed))
    && (Restricts(r, Destination) ==> Matches(group, i, r, Destination, p.dst, resolved, prewarmed))
    && (r.sourceInterfaces != [] ==> p.inIface in r.sourceInterfaces)
    && (r.sourceMacs != [] ==> p.mac in r.sourceMacs)
    && (r.destinationPorts != [] ==> SomePort(r.destinationPorts, p.l4))
    && !(Restricts(r, ExcludedSource) && Matches(group, i, r, ExcludedSource, p.src, resolved, prewarmed))
    && !(Restricts(r, ExcludedDestination) && Matches(group, i, r, ExcludedDestination, p.dst, resolved, prewarmed))
    && !SomePort(r.excludedDestinationPorts, p.l4)
    && !(r.excludeMulticast != Some(false) && IsMulticast(p.dst))
  }

  /** The binding of a rule asks for the rule's sets exactly where the rule restricts. */
  lemma BindingRoutes(sets: map<string, IpSet>, g: DomainGroup, r: RoutingRule, i: nat, profile: Profile, p: Packet)
    ensures Routes(BuildBinding(g, r, i, profile), sets, p) <==>
      (&& (Restricts(r, Source) ==> InSet(sets, SetName(g.name, i, Source, p.family), p.src))
       && (Restricts(r, Destination) ==> InSet(sets, SetName(g.name, i, Destination, p.family), p.dst))
       && (r.sourceInterfaces != [] ==> p.inIface in r.sourceInterfaces)
       && (r.sourceMacs != [] ==> p.mac in r.sourceMacs)
       && (r.destinationPorts != [] ==> SomePort(r.destinationPorts, p.l4))
       && !(Restricts(r, ExcludedSource) && InSet(sets, SetName(g.name, i, ExcludedSource, p.family), p.src))
       && !(Restricts(r, ExcludedDestination) && InSet(sets, SetName(g.name, i, ExcludedDestination, p.family), p.dst))
       && !SomePort(r.excludedDestinationPorts, p.l4)
       && !(r.excludeMulticast != Some(false) && IsMulticast(p.dst)))
  {
    hide SetName, SomePort, InSet, IsMulticast;
  }

  /** With the planned sets in place, the binding of a rule routes exactly the packets that the rule means. */
  lemma RuleIsEnforced(k: Kernel, groups: seq<DomainGroup>, a: nat, i: nat, profile: Profile, p: Packet,
                       resolved: map<Selector, Values>, prewarmed: map<string, Values>)
    requires a < |groups| && i < |groups[a].rules| && OwnsNames(groups, a, i) && WellFormed(p)
    requires SetsCover(k, FullDesired(groups, resolved, prewarmed))
    ensures Routes(BuildBinding(groups[a], groups[a].rules[i], i, profile), k.sets, p)
       <==> Intended(groups[a].name, i, groups[a].rules[i], p, resolved, prewarmed)
  {
    hide SetName, Matches, InSet, SomePort, IsMulticast, FullDesired, SetsCover, OwnsNames, Restricts, Routes, BuildBinding;
    var r := groups[a].rules[i];
    BindingRoutes(k.sets, groups[a], r, i, profile, p);
    if Restricts(r, Source) { SetMatches(k, groups, a, i, Source, p.src, resolved, prewarmed); }
    if Restricts(r, Destination) { SetMatches(k, groups, a, i, Destination, p.dst, resolved, prewarmed); }
    if Restricts(r, ExcludedSource) { SetMatches(k, groups, a, i, ExcludedSource, p.src, resolved, prewarmed); }
    if Restricts(r, ExcludedDestination) { SetMatches(k, groups, a, i, ExcludedDestination, p.dst, resolved, prewarmed); }
  }

  // ---- The bindings ---------------------------------------------------------

  /** Comments or nothing: no list of the rule has an item. */
  predicate IsEmpty(r: RoutingRule) {
    r == RoutingRule([], [], [], [], [], [], [], [], [], [], r.excludeMulticast, [], [])
  }

  lemma SelectorsOrEmpty(r: RoutingRule)
    ensures HasSelectors(r) <==> !IsEmpty(r)
  {
  }

  /** The binding of rule `i` of group `a`. */
  ghost predicate BindingOf(b: RouteBinding, groups: seq<DomainGroup>, profiles: map<string, Profile>, a: nat, i: nat) {
    && a < |groups| && i < |groups[a].rules| && !IsEmpty(groups[a].rules[i]) && groups[a].egressVpn in profiles
    && b == BuildBinding(groups[a], groups[a].rules[i], i, profiles[groups[a].egressVpn])
  }

  ghost predicate BindingIn(b: RouteBinding, g: DomainGroup, m: nat, profile: Profile) {
    exists i: nat :: i < m && i < |g.rules| && !IsEmpty(g.rules[i]) && b == BuildBinding(g, g.rules[i], i, profile)
  }

  lemma {:induction false} GroupBindingsAre(g: DomainGroup, m: nat, profile: Profile, b: RouteBinding)
    requires m <= |g.rules|
    ensures b in GroupBindings(g, m, profile) <==> BindingIn(b, g, m, profile)
  {
    hide BuildBinding, HasSelectors, IsEmpty;
    if m > 0 {
      GroupBindingsAre(g, m - 1, profile, b);
      SelectorsOrEmpty(g.rules[m - 1]);
      assert BindingIn(b, g, m, profile) <==>
        (BindingIn(b, g, m - 1, profile) || (!IsEmpty(g.rules[m - 1]) && b == BuildBinding(g, g.rules[m - 1], m - 1, profile)));
    }
  }

  lemma BindingSplit(groups: seq<DomainGroup>, profiles: map<string, Profile>, b: RouteBinding)
    requires groups != [] && groups[|groups| - 1].egressVpn in profiles
    ensures var m := |groups| - 1;
      BindingOfSome(b, groups, profiles) <==>
        (BindingOfSome(b, groups[..m], profiles) || BindingIn(b, groups[m], |groups[m].rules|, profiles[groups[m].egressVpn]))
  {
    hide BuildBinding, IsEmpty;
    var m := |groups| - 1;
    if BindingOfSome(b, groups, profiles) {
      var a: nat, i: nat :| BindingOf(b, groups, profiles, a, i);
      if a < m { assert BindingOf(b, groups[..m], profiles, a, i); }
    }
    if BindingOfSome(b, groups[..m], profiles) {
      var a: nat, i: nat :| BindingOf(b, groups[..m], profiles, a, i);
      assert BindingOf(b, groups, profiles, a, i);
    }
    if BindingIn(b, groups[m], |groups[m].rules|, profiles[groups[m].egressVpn]) {
      var i: nat :| i < |groups[m].rules| && !IsEmpty(groups[m].rules[i])
                    && b == BuildBinding(groups[m], groups[m].rules[i], i, profiles[groups[m].egressVpn]);
      assert BindingOf(b, groups, profiles, m, i);
    }
  }

  ghost predicate BindingOfSome(b: RouteBinding, groups: seq<DomainGroup>, profiles: map<string, Profile>) {
    exists a: nat, i: nat :: BindingOf(b, groups, profiles, a, i)
  }

  /** There is a binding for every rule with selectors, and for nothing else. */
  lemma {:induction false} BindingsAre(groups: seq<DomainGroup>, profiles: map<string, Profile>, b: RouteBinding)
    requires ProfilesUsable(groups, profiles)
    ensures b in AllBindings(groups, profiles) <==> BindingOfSome(b, groups, profiles)
  {
    hide BindingIn, Usable, GroupBindings;
    if groups != [] {
      var m := |groups| - 1;
      BindingsAre(groups[..m], profiles, b);
      GroupBindingsAre(groups[m], |groups[m].rules|, profiles[groups[m].egressVpn], b);
      BindingSplit(groups, profiles, b);
    }
  }

  /** A binding carries the values of the VPN profile of its group and its own place. */
  lemma BindingCarries(b: RouteBinding, groups: seq<DomainGroup>, profiles: map<string, Profile>, a: nat, i: nat)
    requires BindingOf(b, groups, profiles, a, i)
    ensures var p := profiles[groups[a].egressVpn];
      && b.mark == p.fwMark && b.routeTable == p.routeTable && b.iface == p.ifaceName && b.clampV4 == p.clampV4 && b.clampV6 == p.clampV6
      && b.groupName == groups[a].name && b.ruleIndex == i && b.egressVpn == groups[a].egressVpn
  {
  }
}
