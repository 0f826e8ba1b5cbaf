/**
  One request to the routing manager: the groups in name order, the ruleset and the
  sets planned for them, and when the ruleset can be installed.
 */
module Requests {
  import opened Text
  import opened Bindings
  import opened Ordering
  import opened SetNames
  import opened RoutingPlan
  import opened PlanMeaning
  import opened Generations
  import opened RootSwitch

  function InsertGroup(g: DomainGroup, gs: seq<DomainGroup>): seq<DomainGroup> {
    if gs == [] || Leq(g.name, gs[0].name) then [g] + gs else [gs[0]] + InsertGroup(g, gs[1..])
  }

  /** The groups in name order. */
  function SortGroups(gs: seq<DomainGroup>): seq<DomainGroup> {
    if gs == [] then [] else InsertGroup(gs[0], SortGroups(gs[1..]))
  }

  datatype Request = Request(groups: seq<DomainGroup>, profiles: map<string, Profile>,
                             resolved: map<Selector, Values>, prewarmed: map<string, Values>)

  predicate PlanUsable(q: Request) {
    ProfilesUsable(SortGroups(q.groups), q.profiles)
  }

  /** The sorted bindings of a plan. */
  function PlannedRuleset(q: Request): seq<RouteBinding>
    requires PlanUsable(q)
  {
    SortBindings(AllBindings(SortGroups(q.groups), q.profiles))
  }

  /** The sets of a plan. */
  function PlannedSets(q: Request): Desired {
    FullDesired(SortGroups(q.groups), q.resolved, q.prewarmed)
  }

  /** Two groups with rules whose VPNs share a mark share the route table. */
  ghost predicate NoMarkClash(q: Request) {
    forall g, h | Routed(q, g) && Routed(q, h) && q.profiles[g.egressVpn].fwMark == q.profiles[h.egressVpn].fwMark ::
      q.profiles[g.egressVpn].routeTable == q.profiles[h.egressVpn].routeTable
  }

  ghost predicate HasRules(g: DomainGroup) {
    exists i :: 0 <= i < |g.rules| && !IsEmpty(g.rules[i])
  }

  /** A group of the request that has rules, and a profile to route them by. */
  ghost predicate Routed(q: Request, g: DomainGroup) {
    g in q.groups && HasRules(g) && g.egressVpn in q.profiles
  }

  predicate VpnUsable(q: Request, g: DomainGroup) {
    g.egressVpn in q.profiles
    && q.profiles[g.egressVpn].routeTable >= 200 && q.profiles[g.egressVpn].fwMark >= 200
    && TrimSpace(q.profiles[g.egressVpn].ifaceName) != ""
  }

  lemma {:induction false} InsertGroupIs(g: DomainGroup, gs: seq<DomainGroup>)
    ensures multiset(InsertGroup(g, gs)) == multiset(gs) + multiset{g}
  {
    if gs != [] && !Leq(g.name, gs[0].name) {
      InsertGroupIs(g, gs[1..]);
      assert gs == [gs[0]] + gs[1..];
    }
  }

  lemma {:induction false} SortGroupsIs(gs: seq<DomainGroup>)
    ensures multiset(SortGroups(gs)) == multiset(gs)
  {
    if gs != [] {
      SortGroupsIs(gs[1..]);
      InsertGroupIs(gs[0], SortGroups(gs[1..]));
      assert gs == [gs[0]] + gs[1..];
    }
  }

  lemma SortedGroup(gs: seq<DomainGroup>, g: DomainGroup)
    ensures g in SortGroups(gs) <==> g in gs
  {
    SortGroupsIs(gs);
    assert g in SortGroups(gs) <==> g in multiset(SortGroups(gs));
    assert g in gs <==> g in multiset(gs);
  }

  ghost predicate NamesInOrder(gs: seq<DomainGroup>) {
    forall i, j :: 0 <= i < j < |gs| ==> Leq(gs[i].name, gs[j].name)
  }

  lemma {:induction false} InsertGroupInOrder(g: DomainGroup, gs: seq<DomainGroup>)
    requires NamesInOrder(gs)
    ensures NamesInOrder(InsertGroup(g, gs))
  {
    hide Leq;
    if gs == [] {
    } else if Leq(g.name, gs[0].name) {
      forall j | 0 <= j < |gs| ensures Leq(g.name, gs[j].name) {
        if j > 0 { LeqTransitive(g.name, gs[0].name, gs[j].name); }
      }
    } else {
      InsertGroupInOrder(g, gs[1..]);
      InsertGroupIs(g, gs[1..]);
      LeqTotal(g.name, gs[0].name);
      var rest := InsertGroup(g, gs[1..]);
      forall j | 0 <= j < |rest| ensures Leq(gs[0].name, rest[j].name) {
        assert rest[j] in multiset(gs[1..]) + multiset{g};
        if rest[j] != g {
          assert rest[j] in gs[1..];
          var i :| 0 <= i < |gs[1..]| && gs[1..][i] == rest[j];
        }
      }
    }
  }

  /** The groups are planned in name order, and none is lost or repeated. */
  lemma {:induction false} SortGroupsInOrder(gs: seq<DomainGroup>)
    ensures NamesInOrder(SortGroups(gs)) && multiset(SortGroups(gs)) == multiset(gs)
  {
    SortGroupsIs(gs);
    if gs != [] {
      SortGroupsInOrder(gs[1..]);
      InsertGroupInOrder(gs[0], SortGroups(gs[1..]));
    }
  }

  /** A plan is made iff every group's VPN has a usable profile. */
  lemma PlanUsableIff(q: Request)
    ensures PlanUsable(q) <==> forall g :: g in q.groups ==> VpnUsable(q, g)
  {
    var gs := SortGroups(q.groups);
    forall g ensures g in gs <==> g in q.groups { SortedGroup(q.groups, g); }
    if PlanUsable(q) {
      forall g | g in q.groups
        ensures VpnUsable(q, g)
      {
        assert g in gs;
        var i :| 0 <= i < |gs| && gs[i] == g;
      }
    } else {
      var i :| 0 <= i < |gs| && !(gs[i].egressVpn in q.profiles && Usable(q.profiles[gs[i].egressVpn]));
      assert gs[i] in gs;
    }
  }

  lemma BindingIsOk(b: RouteBinding, groups: seq<DomainGroup>, profiles: map<string, Profile>, a: nat, i: nat)
    requires BindingOf(b, groups, profiles, a, i) && ProfilesUsable(groups, profiles)
    ensures BindingOk(b)
  {
    hide SetName, TrimSpace;
    forall kind, f ensures !Blank(SetName(groups[a].name, i, kind, f)) {
      SetNameHasPrefix(groups[a].name, i, kind, f);
      PrefixedIsNotBlank(SetName(groups[a].name, i, kind, f));
    }
  }

  lemma PrefixedIsNotBlank(s: string)
    requires SET_PREFIX <= s
    ensures !Blank(s)
  {
    var t := TrimLeft(s);
    assert s[0] == 's' && t == s;
    TrimRightKeeps(s);
  }

  lemma {:induction false} TrimRightKeeps(s: string)
    requires s != "" && !IsSpace(s[0])
    ensures TrimRight(s) != ""
    decreases |s|
  {
    if IsSpace(s[|s| - 1]) {
      assert |s| > 1;
      TrimRightKeeps(s[..|s| - 1]);
    }
  }

  /** The bindings of a plan can be installed together iff no marks clash. */
  lemma PlanAcceptableIff(q: Request)
    requires PlanUsable(q)
    ensures Acceptable(AllBindings(SortGroups(q.groups), q.profiles)) <==> NoMarkClash(q)
  {
    hide SortGroups, AllBindings, Usable, BindingOk, IsEmpty, BuildBinding;
    var gs := SortGroups(q.groups);
    var bs := AllBindings(gs, q.profiles);
    forall g ensures g in gs <==> g in q.groups { SortedGroup(q.groups, g); }
    forall b ensures b in bs <==> BindingOfSome(b, gs, q.profiles) { BindingsAre(gs, q.profiles, b); }
    forall i | 0 <= i < |bs| ensures BindingOk(bs[i]) && FromGroup(bs[i], q) {
      assert bs[i] in bs;
      var a: nat, j: nat :| BindingOf(bs[i], gs, q.profiles, a, j);
      BindingIsOk(bs[i], gs, q.profiles, a, j);
      BindingCarries(bs[i], gs, q.profiles, a, j);
      assert gs[a] in gs && HasRules(gs[a]) && Routed(q, gs[a]);
    }
    if Acceptable(bs) {
      forall g, h | Routed(q, g) && Routed(q, h) && q.profiles[g.egressVpn].fwMark == q.profiles[h.egressVpn].fwMark
        ensures q.profiles[g.egressVpn].routeTable == q.profiles[h.egressVpn].routeTable
      {
        var x := SomeBinding(q, gs, g);
        var y := SomeBinding(q, gs, h);
      }
    }
  }

  /** The binding stems from a group of the request. */
  ghost predicate FromGroup(b: RouteBinding, q: Request) {
    exists g :: Routed(q, g) && b.mark == q.profiles[g.egressVpn].fwMark && b.routeTable == q.profiles[g.egressVpn].routeTable
  }

  lemma SomeBinding(q: Request, gs: seq<DomainGroup>, g: DomainGroup) returns (x: nat)
    requires ProfilesUsable(gs, q.profiles) && g in gs && HasRules(g) && g.egressVpn in q.profiles
    ensures var bs := AllBindings(gs, q.profiles);
      x < |bs| && bs[x].mark == q.profiles[g.egressVpn].fwMark && bs[x].routeTable == q.profiles[g.egressVpn].routeTable
  {
    hide AllBindings, Usable, IsEmpty, BuildBinding;
    var a: nat :| a < |gs| && gs[a] == g;
    var i: nat :| i < |g.rules| && !IsEmpty(g.rules[i]);
    var b := BuildBinding(g, g.rules[i], i, q.profiles[g.egressVpn]);
    assert BindingOf(b, gs, q.profiles, a, i);
    BindingCarries(b, gs, q.profiles, a, i);
    BindingsAre(gs, q.profiles, b);
    x :| x < |AllBindings(gs, q.profiles)| && AllBindings(gs, q.profiles)[x] == b;
  }
}
