/**
  One apply of a list of bindings to the packet filter. At every command, on every
  pattern of failures, each packet meets the complete old ruleset or the complete
  new one at each of the six hooks.
 */
module RootSwitch {
  import opened Text
  import opened Netfilter
  import opened Hosts
  import opened Bindings
  import opened MarkCompiler
  import opened Ordering
  import opened Rulesets
  import opened IpRulesSync
  import opened Generations

  // ---- Order of the bindings ------------------------------------------------

  /** Group name first, then rule index. */
  predicate Before(a: RouteBinding, b: RouteBinding) {
    if a.groupName == b.groupName then a.ruleIndex <= b.ruleIndex else Leq(a.groupName, b.groupName)
  }

  lemma BeforeTotal(a: RouteBinding, b: RouteBinding)
    ensures Before(a, b) || Before(b, a)
  {
    LeqTotal(a.groupName, b.groupName);
  }

  lemma BeforeTransitive(a: RouteBinding, b: RouteBinding, c: RouteBinding)
    requires Before(a, b) && Before(b, c)
    ensures Before(a, c)
  {
    LeqReflexive(a.groupName);
    LeqReflexive(b.groupName);
    LeqTransitive(a.groupName, b.groupName, c.groupName);
    if a.groupName == c.groupName && a.groupName != b.groupName {
      LeqAntisymmetric(a.groupName, b.groupName);
    }
  }

  ghost predicate InOrder(bs: seq<RouteBinding>) {
    forall i, j :: 0 <= i < j < |bs| ==> Before(bs[i], bs[j])
  }

  function Insert(b: RouteBinding, bs: seq<RouteBinding>): (r: seq<RouteBinding>)
    ensures multiset(r) == multiset(bs) + multiset{b}
  {
    if bs == [] || Before(b, bs[0]) then [b] + bs
    else
      assert [bs[0]] + bs[1..] == bs;
      [bs[0]] + Insert(b, bs[1..])
  }

  function SortBindings(bs: seq<RouteBinding>): (r: seq<RouteBinding>)
    ensures multiset(r) == multiset(bs)
  {
    if bs == [] then []
    else
      assert [bs[0]] + bs[1..] == bs;
      Insert(bs[0], SortBindings(bs[1..]))
  }

  lemma {:induction false} InsertInOrder(b: RouteBinding, bs: seq<RouteBinding>)
    requires InOrder(bs)
    ensures InOrder(Insert(b, bs))
  {
    hide Before;
    if bs == [] {
    } else if Before(b, bs[0]) {
      forall j | 0 <= j < |bs| ensures Before(b, bs[j]) {
        if j > 0 { BeforeTransitive(b, bs[0], bs[j]); }
      }
    } else {
      var rest := Insert(b, bs[1..]);
      InsertInOrder(b, bs[1..]);
      BeforeTotal(b, bs[0]);
      forall j | 0 <= j < |rest| ensures Before(bs[0], rest[j]) {
        assert rest[j] in multiset(rest);
        assert rest[j] == b || rest[j] in multiset(bs[1..]);
        if rest[j] != b {
          var i :| 0 <= i < |bs[1..]| && bs[1..][i] == rest[j];
        }
      }
    }
  }

  /** The bindings end up in (group, rule index) order, and none is lost or repeated. */
  lemma {:induction false} SortBindingsInOrder(bs: seq<RouteBinding>)
    ensures InOrder(SortBindings(bs)) && multiset(SortBindings(bs)) == multiset(bs)
  {
    if bs != [] {
      SortBindingsInOrder(bs[1..]);
      InsertInOrder(bs[0], SortBindings(bs[1..]));
    }
  }

  lemma SortBindingsNormalized(bs: seq<RouteBinding>)
    requires AllNormalized(bs)
    ensures AllNormalized(SortBindings(bs))
  {
    hide Normalized;
    var r := SortBindings(bs);
    forall i | 0 <= i < |r| ensures Normalized(r[i]) {
      assert r[i] in multiset(bs);
    }
  }

  // ---- The active generation ------------------------------------------------

  predicate IsVariantJump(r: Rule) {
    r.matches == [] && r.target.Jump? && r.target.chain.Gen? && r.target.chain.kind.MarkKind?
  }

  /** The generation of the first jump to one. */
  function FirstVariant(rules: seq<Rule>): Option<Variant> {
    if rules == [] then None
    else if IsVariantJump(rules[0]) then Some(rules[0].target.chain.variant)
    else FirstVariant(rules[1..])
  }

  function RootVariant(k: Kernel, f: Family): Option<Variant> {
    if RootId(f, MarkKind) in k.chains then FirstVariant(k.chains[RootId(f, MarkKind)]) else None
  }

  /** The active generation: that of the IPv4 mark root, or else that of the IPv6 one. */
  function ActiveVariant(k: Kernel): Option<Variant> {
    if RootVariant(k, V4).Some? then RootVariant(k, V4) else RootVariant(k, V6)
  }

  lemma OneJumpIsFirst(v: Variant)
    ensures FirstVariant([JumpTo(Gen(MarkKind, v))]) == Some(v)
  {
  }

  /** The generation that the mark root of one family jumps to first. */
  method DetectActiveGeneration(host: Host, f: Family) returns (active: Option<Variant>)
    requires host.Valid()
    modifies host`turn
    ensures host.Valid()
    ensures active.Some? ==> MarkRootMentions(host.kernel, f, active.value)
    ensures host.listable ==> active == RootVariant(host.kernel, f)
  {
    hide Chained;
    var ok, rules := host.ListRules(RootId(f, MarkKind));
    active := None;
    if !ok {
      return;
    }
    for i := 0 to |rules|
      invariant FirstVariant(rules) == FirstVariant(rules[i..])
    {
      if IsVariantJump(rules[i]) {
        return Some(rules[i].target.chain.variant);
      }
    }
  }

  method DetectActiveVariant(host: Host) returns (active: Option<Variant>)
    requires host.Valid()
    modifies host`turn
    ensures host.Valid()
    ensures active.Some? ==> exists f :: MarkRootMentions(host.kernel, f, active.value)
    ensures host.listable ==> active == ActiveVariant(host.kernel)
    ensures host.listable ==>
      forall v :: ChainIs(host.kernel, RootId(V4, MarkKind), [JumpTo(Gen(MarkKind, v))]) ==> active == Some(v)
  {
    hide Chained, FirstVariant;
    active := DetectActiveGeneration(host, V4);
    forall v | ChainIs(host.kernel, RootId(V4, MarkKind), [JumpTo(Gen(MarkKind, v))])
      ensures RootVariant(host.kernel, V4) == Some(v)
    {
      OneJumpIsFirst(v);
    }
    if active.Some? {
      assert MarkRootMentions(host.kernel, V4, active.value);
    } else {
      active := DetectActiveGeneration(host, V6);
      assert active.Some? ==> MarkRootMentions(host.kernel, V6, active.value);
    }
  }

  predicate MarkRootMentions(k: Kernel, f: Family, v: Variant) {
    RootId(f, MarkKind) in k.chains && JumpTo(Gen(MarkKind, v)) in k.chains[RootId(f, MarkKind)]
  }

  // ---- Clamp rules ----------------------------------------------------------

  ghost predicate ClampsBuilt(k: Kernel, w: Variant, ifaces: seq<string>, clamps: map<string, ClampPair>) {
    ChainIs(k, GenId(V4, MssKind, w), MssRulesFor(ifaces, clamps, V4))
    && ChainIs(k, GenId(V6, MssKind, w), MssRulesFor(ifaces, clamps, V6))
  }

  method AddMssRuleIf(host: Host, w: Variant, f: Family, iface: string, clamp: Clamp) returns (ok: bool)
    requires host.Valid() && GenId(f, MssKind, w) in host.kernel.chains
    modifies host
    ensures host.Valid()
    ensures old(host.log) <= host.log && QuietRange(host.log, |old(host.log)|, w)
    ensures SameBut(old(host.kernel), host.kernel, {GenId(f, MssKind, w)})
    ensures ok ==> ChainIs(host.kernel, GenId(f, MssKind, w), old(host.kernel).chains[GenId(f, MssKind, w)] +
      (if clamp.ClampTo? then [MssRule(iface, clamp.limit)] else []))
    ensures host.Flawless() ==> ok
  {
    hide Chained, Ran;
    ok := true;
    if clamp.ClampTo? {
      ok := Append(host, GenId(f, MssKind, w), MssRule(iface, clamp.limit));
    }
  }

  lemma MssRulesNext(ifaces: seq<string>, j: nat, clamps: map<string, ClampPair>, f: Family)
    requires j < |ifaces| && ifaces[j] in clamps
    ensures MssRulesFor(ifaces[..j + 1], clamps, f) == MssRulesFor(ifaces[..j], clamps, f) +
      (if ClampFor(clamps[ifaces[j]], f).ClampTo? then [MssRule(ifaces[j], ClampFor(clamps[ifaces[j]], f).limit)] else [])
  {
    assert ifaces[..j + 1][..j] == ifaces[..j] && ifaces[..j + 1][j] == ifaces[j];
  }

  method AddMssRules(host: Host, w: Variant, clamps: map<string, ClampPair>) returns (ok: bool)
    requires host.Valid() && ClampsBuilt(host.kernel, w, [], clamps)
    modifies host
    ensures host.Valid()
    ensures old(host.log) <= host.log && QuietRange(host.log, |old(host.log)|, w)
    ensures SameBut(old(host.kernel), host.kernel, {GenId(V4, MssKind, w), GenId(V6, MssKind, w)})
    ensures ok ==> ClampsBuilt(host.kernel, w, Sorted(clamps.Keys), clamps)
    ensures host.Flawless() ==> ok
  {
    hide Chained, MssRulesFor, ClampFor, SameBut, QuietCmd, MssRule;
    var ifaces := Sorted(clamps.Keys);
    ghost var k0, id4, id6 := host.kernel, GenId(V4, MssKind, w), GenId(V6, MssKind, w);
    SameButItself(k0);
    SameButTransitive(k0, k0, k0, {}, {}, {id4, id6});
    assert ifaces[..0] == [];
    for j := 0 to |ifaces|
      invariant host.Valid() && old(host.log) <= host.log && QuietRange(host.log, |old(host.log)|, w)
      invariant SameBut(k0, host.kernel, {id4, id6})
      invariant ClampsBuilt(host.kernel, w, ifaces[..j], clamps)
    {
      var c := clamps[ifaces[j]];
      MssRulesNext(ifaces, j, clamps, V4);
      MssRulesNext(ifaces, j, clamps, V6);
      ghost var k1 := host.kernel;
      ok := AddMssRuleIf(host, w, V4, ifaces[j], ClampFor(c, V4));
      ghost var k2 := host.kernel;
      SameButTransitive(k0, k1, k2, {id4, id6}, {id4}, {id4, id6});
      SameButElsewhere(k1, k2, {id4}, id6);
      if !ok { return; }
      ok := AddMssRuleIf(host, w, V6, ifaces[j], ClampFor(c, V6));
      SameButTransitive(k0, k2, host.kernel, {id4, id6}, {id6}, {id4, id6});
      SameButElsewhere(k2, host.kernel, {id6}, id4);
      if !ok { return; }
    }
    assert ifaces[..|ifaces|] == ifaces;
    ok := true;
  }

  // ---- Switching a root -----------------------------------------------------

  /** The three contents of a root during the switch to generation `w`. */
  ghost predicate RootPhase(k: Kernel, f: Family, kind: Kind, w: Variant) {
    var new_, old_ := JumpTo(Gen(kind, w)), JumpTo(Gen(kind, Other(w)));
    ChainIs(k, RootId(f, kind), [old_]) || ChainIs(k, RootId(f, kind), [new_, old_]) || ChainIs(k, RootId(f, kind), [new_])
  }

  predicate SwitchCmd(cmd: Cmd, id: ChainId) {
    (cmd.CheckRule? || cmd.InsertRule? || cmd.DeleteRule?) && cmd.id == id
  }

  ghost predicate SwitchSteps(log: seq<Step>, n: nat, k: Kernel, f: Family, kind: Kind, w: Variant) {
    forall i :: n <= i < |log| ==>
      SwitchCmd(log[i].cmd, RootId(f, kind))
      && SameBut(k, log[i].before, {RootId(f, kind)}) && RootPhase(log[i].before, f, kind, w)
      && SameBut(k, log[i].after, {RootId(f, kind)}) && RootPhase(log[i].after, f, kind, w)
  }

  /** Commands that change a root only by inserting the jump to generation `w` or by deleting. */
  predicate MovesRoot(cmd: Cmd, w: Variant) {
    || cmd.AddIpRule? || cmd.DelIpRule?
    || ((cmd.CheckRule? || cmd.InsertRule? || cmd.DeleteRule?) && cmd.id.chain.Root?
        && (cmd.InsertRule? ==> cmd.rule == JumpTo(Gen(cmd.id.chain.kind, w))))
  }

  ghost predicate MovesFrom(log: seq<Step>, n: nat, w: Variant) {
    forall i :: n <= i < |log| ==> MovesRoot(log[i].cmd, w)
  }

  lemma RootCommands(f: Family, kind: Kind, w: Variant, rule: Rule)
    ensures var id := RootId(f, kind);
      && ForeignSafe(CheckRule(id, rule)) && ForeignSafe(InsertRule(id, rule)) && ForeignSafe(DeleteRule(id, rule))
      && MovesRoot(CheckRule(id, rule), w) && MovesRoot(DeleteRule(id, rule), w)
      && (rule == JumpTo(Gen(kind, w)) ==> MovesRoot(InsertRule(id, rule), w))
  {
  }

  method SwitchRootJump(host: Host, f: Family, kind: Kind, w: Variant) returns (ok: bool)
    requires host.Valid()
    modifies host
    ensures host.Valid()
    ensures old(host.log) <= host.log && ForeignSafeFrom(host.log, |old(host.log)|) && MovesFrom(host.log, |old(host.log)|, w)
    ensures SameBut(old(host.kernel), host.kernel, {RootId(f, kind)})
    ensures old(ChainIs(host.kernel, RootId(f, kind), [JumpTo(Gen(kind, Other(w)))])) ==>
      SwitchSteps(host.log, |old(host.log)|, old(host.kernel), f, kind, w)
    ensures !ok ==> host.kernel == old(host.kernel)
    ensures ok && old(RootReady(host.kernel, Site(f, kind), w)) ==> RootIs(host.kernel, Site(f, kind), NewJump(Site(f, kind), w))
    ensures RootId(f, kind) in old(host.kernel).chains ==> RootId(f, kind) in host.kernel.chains && (host.Flawless() ==> ok)
  {
    hide Chained, SameBut, Accepts, Apply, ForeignSafe, MovesRoot, RootPhase;
    var root := RootId(f, kind);
    ghost var k0, log0 := host.kernel, host.log;
    ok := InsertJump(host, f, kind, w);
    ghost var log1 := host.log;
    if !ok { return; }
    DeleteJumps(host, f, kind, w, k0);
    if ChainIs(k0, root, [JumpTo(Gen(kind, Other(w)))]) {
      SwitchStepsJoin(log1, host.log, |log0|, k0, f, kind, w);
    }
  }

  lemma SwitchStepsJoin(log1: seq<Step>, log2: seq<Step>, n: nat, k: Kernel, f: Family, kind: Kind, w: Variant)
    requires n <= |log1| && log1 <= log2 && SwitchSteps(log1, n, k, f, kind, w) && SwitchSteps(log2, |log1|, k, f, kind, w)
    ensures SwitchSteps(log2, n, k, f, kind, w)
  {
    hide SameBut, RootPhase, SwitchCmd;
    forall i | n <= i < |log2|
      ensures SwitchCmd(log2[i].cmd, RootId(f, kind))
      ensures SameBut(k, log2[i].before, {RootId(f, kind)}) && RootPhase(log2[i].before, f, kind, w)
      ensures SameBut(k, log2[i].after, {RootId(f, kind)}) && RootPhase(log2[i].after, f, kind, w)
    {
      if i < |log1| { assert log2[i] == log1[i]; }
    }
  }

  /** Puts the jump to the new generation first, unless it is there. */
  method InsertJump(host: Host, f: Family, kind: Kind, w: Variant) returns (ok: bool)
    requires host.Valid()
    modifies host
    ensures host.Valid()
    ensures old(host.log) <= host.log && ForeignSafeFrom(host.log, |old(host.log)|) && MovesFrom(host.log, |old(host.log)|, w)
    ensures SameBut(old(host.kernel), host.kernel, {RootId(f, kind)})
    ensures !ok ==> host.kernel == old(host.kernel)
    ensures old(ChainIs(host.kernel, RootId(f, kind), [JumpTo(Gen(kind, Other(w)))])) ==>
      SwitchSteps(host.log, |old(host.log)|, old(host.kernel), f, kind, w)
    ensures ok && old(ChainIs(host.kernel, RootId(f, kind), [JumpTo(Gen(kind, Other(w)))])) ==>
      ChainIs(host.kernel, RootId(f, kind), [JumpTo(Gen(kind, w)), JumpTo(Gen(kind, Other(w)))])
    ensures ok && old(RootIdle(host.kernel, f, kind)) ==> ChainIs(host.kernel, RootId(f, kind), [JumpTo(Gen(kind, w))])
    ensures RootId(f, kind) in old(host.kernel).chains ==> RootId(f, kind) in host.kernel.chains && (host.Flawless() ==> ok)
  {
    hide Chained, SameBut, Accepts, Apply, ForeignSafe, MovesRoot, Ran;
    var root, new_, stale := RootId(f, kind), JumpTo(Gen(kind, w)), JumpTo(Gen(kind, Other(w)));
    RootCommands(f, kind, w, new_);
    ghost var k0 := host.kernel;
    SameButItself(k0);
    SameButTransitive(k0, k0, k0, {}, {}, {root});
    ok := host.Run(CheckRule(root, new_));
    CheckEffect(host.log[|host.log| - 1]);
    if !ok {
      ok := host.Run(InsertRule(root, new_));
      InsertEffect(host.log[|host.log| - 1]);
      StepSameBut(host.log[|host.log| - 1]);
      assert [new_] + [stale] == [new_, stale] && [new_] + [] == [new_];
    }
  }

  lemma InsertEffect(s: Step)
    requires Ran(s) && s.cmd.InsertRule?
    ensures s.ok ==> s.cmd.id in s.before.chains && ChainIs(s.after, s.cmd.id, [s.cmd.rule] + s.before.chains[s.cmd.id])
    ensures !s.ok ==> s.after == s.before
    ensures s.cmd.id in s.before.chains ==> Accepts(s.before, s.cmd)
  {
  }

  /** Deletes the jump to the old generation until none is left, at most 64 times. */
  method DeleteJumps(host: Host, f: Family, kind: Kind, w: Variant, ghost k0: Kernel)
    requires host.Valid() && SameBut(k0, host.kernel, {RootId(f, kind)})
    modifies host
    ensures host.Valid()
    ensures old(host.log) <= host.log && ForeignSafeFrom(host.log, |old(host.log)|) && MovesFrom(host.log, |old(host.log)|, w)
    ensures SameBut(k0, host.kernel, {RootId(f, kind)})
    ensures old(ChainIs(host.kernel, RootId(f, kind), [JumpTo(Gen(kind, w)), JumpTo(Gen(kind, Other(w)))])) ==>
      SwitchSteps(host.log, |old(host.log)|, k0, f, kind, w)
    ensures old(ChainIs(host.kernel, RootId(f, kind), [JumpTo(Gen(kind, w)), JumpTo(Gen(kind, Other(w)))]))
            || old(ChainIs(host.kernel, RootId(f, kind), [JumpTo(Gen(kind, w))])) ==>
      ChainIs(host.kernel, RootId(f, kind), [JumpTo(Gen(kind, w))])
    ensures RootId(f, kind) in old(host.kernel).chains ==> RootId(f, kind) in host.kernel.chains
  {
    hide Chained, SameBut, Ran, ForeignSafe, MovesRoot, RootPhase;
    var root, new_, stale := RootId(f, kind), JumpTo(Gen(kind, w)), JumpTo(Gen(kind, Other(w)));
    RootCommands(f, kind, w, stale);
    ghost var both := ChainIs(host.kernel, root, [new_, stale]);
    ghost var one := ChainIs(host.kernel, root, [new_]);
    for i := 0 to DELETE_LIMIT
      invariant host.Valid() && old(host.log) <= host.log && SameBut(k0, host.kernel, {root})
      invariant ForeignSafeFrom(host.log, |old(host.log)|) && MovesFrom(host.log, |old(host.log)|, w)
      invariant both ==> SwitchSteps(host.log, |old(host.log)|, k0, f, kind, w)
      invariant both && i == 0 ==> ChainIs(host.kernel, root, [new_, stale])
      invariant one || (both && i > 0) ==> ChainIs(host.kernel, root, [new_])
      invariant root in old(host.kernel).chains ==> root in host.kernel.chains
    {
      ghost var k := host.kernel;
      var ok := host.Run(DeleteRule(root, stale));
      ghost var s := host.log[|host.log| - 1];
      StepSameBut(s);
      SameButTransitive(k0, k, host.kernel, {root}, {root}, {root});
      DeleteEffect(s, new_, stale);
      InPhases(s.before, f, kind, w);
      InPhases(s.after, f, kind, w);
      if !ok {
        return;
      }
    }
  }

  lemma InPhases(k: Kernel, f: Family, kind: Kind, w: Variant)
    ensures var new_, stale := JumpTo(Gen(kind, w)), JumpTo(Gen(kind, Other(w)));
      ChainIs(k, RootId(f, kind), [new_, stale]) || ChainIs(k, RootId(f, kind), [new_]) ==> RootPhase(k, f, kind, w)
  {
  }

  /** Deleting the old jump from a root in one of its phases. */
  lemma DeleteEffect(s: Step, new_: Rule, stale: Rule)
    requires Ran(s) && s.cmd.DeleteRule? && s.cmd.rule == stale && new_ != stale
    ensures ChainIs(s.before, s.cmd.id, [new_, stale]) ==> s.ok && ChainIs(s.after, s.cmd.id, [new_])
    ensures ChainIs(s.before, s.cmd.id, [new_]) ==> !s.ok
    ensures !s.ok ==> s.after == s.before
    ensures s.cmd.id in s.before.chains ==> s.cmd.id in s.after.chains
  {
    assert [new_, stale][1..] == [stale] && [stale][1..] == [];
    assert RemoveFirst([stale], stale) == [];
    assert RemoveFirst([new_, stale], stale) == [new_];
  }

  /** Only roots differ. */
  ghost predicate SameButRoots(k: Kernel, k': Kernel) {
    SameSetsAndRules(k, k') && forall id: ChainId :: !id.chain.Root? ==> SameChain(k, k', id)
  }

  /** A state of the switch from `k0`: only roots differ, and each root is in one of its phases. */
  ghost predicate Switching(k0: Kernel, k: Kernel, w: Variant) {
    SameButRoots(k0, k) && forall f: Family, kind: Kind :: RootPhase(k, f, kind, w)
  }

  ghost predicate SwitchingSteps(log: seq<Step>, n: nat, k0: Kernel, w: Variant) {
    forall i :: n <= i < |log| ==>
      Switching(k0, log[i].before, w) && Switching(k0, log[i].after, w)
      && !log[i].cmd.FlushChain? && !log[i].cmd.DeleteChain?
  }

  predicate RootIs(k: Kernel, s: Site, rules: seq<Rule>) {
    ChainIs(k, RootId(s.family, s.kind), rules)
  }

  function NewJump(s: Site, w: Variant): seq<Rule> {
    [JumpTo(Gen(s.kind, w))]
  }

  /** The first `done` roots jump to generation `w`; the others jump to the old one. */
  ghost predicate SwitchedUpTo(k: Kernel, w: Variant, done: nat)
    requires done <= |SITES|
  {
    forall i :: 0 <= i < |SITES| ==> RootIs(k, SITES[i], NewJump(SITES[i], if i < done then w else Other(w)))
  }

  /** The root jumps to the old generation, or it has no rules. */
  predicate RootReady(k: Kernel, s: Site, w: Variant) {
    RootIs(k, s, NewJump(s, Other(w))) || RootIdle(k, s.family, s.kind)
  }

  /** The first `done` roots jump to generation `w`; each of the others is on the old one or has no rules. */
  ghost predicate ReadyUpTo(k: Kernel, w: Variant, done: nat)
    requires done <= |SITES|
  {
    forall i :: 0 <= i < |SITES| ==> if i < done then RootIs(k, SITES[i], NewJump(SITES[i], w)) else RootReady(k, SITES[i], w)
  }

  lemma RootElsewhere(k: Kernel, k': Kernel, i: nat, j: nat, rules: seq<Rule>)
    requires i < |SITES| && j < |SITES| && i != j
    requires SameBut(k, k', {RootId(SITES[j].family, SITES[j].kind)}) && RootIs(k, SITES[i], rules)
    ensures RootIs(k', SITES[i], rules)
  {
    SitesDistinct(i, j);
    assert SameChain(k, k', RootId(SITES[i].family, SITES[i].kind));
  }

  lemma SwitchingStays(k0: Kernel, k: Kernel, k': Kernel, w: Variant, s: Site)
    requires Switching(k0, k, w) && SameBut(k, k', {RootId(s.family, s.kind)}) && RootPhase(k', s.family, s.kind, w)
    ensures Switching(k0, k', w)
  {
    forall f: Family, kind: Kind
      ensures RootPhase(k', f, kind, w)
    {
      if Site(f, kind) != s {
        assert RootPhase(k, f, kind, w) && SameChain(k, k', RootId(f, kind));
      }
    }
    forall id: ChainId | !id.chain.Root?
      ensures SameChain(k0, k', id)
    {
      assert SameChain(k0, k, id) && SameChain(k, k', id);
    }
  }

  lemma SwitchedIsSwitching(k0: Kernel, k: Kernel, w: Variant, done: nat)
    requires done <= |SITES| && SameButRoots(k0, k) && SwitchedUpTo(k, w, done)
    ensures Switching(k0, k, w)
  {
    forall f: Family, kind: Kind
      ensures RootPhase(k, f, kind, w)
    {
      var i := SiteIndex(Site(f, kind));
      assert RootIs(k, SITES[i], NewJump(SITES[i], if i < done then w else Other(w)));
    }
  }

  lemma SameButRootsNext(k0: Kernel, k: Kernel, k': Kernel, s: Site)
    requires SameButRoots(k0, k) && SameBut(k, k', {RootId(s.family, s.kind)})
    ensures SameButRoots(k0, k')
  {
    forall id: ChainId | !id.chain.Root?
      ensures SameChain(k0, k', id)
    {
      assert SameChain(k0, k, id) && SameChain(k, k', id);
    }
  }

  lemma SwitchedNext(k: Kernel, k': Kernel, w: Variant, j: nat)
    requires j < |SITES| && SwitchedUpTo(k, w, j)
    requires SameBut(k, k', {RootId(SITES[j].family, SITES[j].kind)}) && RootIs(k', SITES[j], NewJump(SITES[j], w))
    ensures SwitchedUpTo(k', w, j + 1)
  {
    hide SITES;
    forall i | 0 <= i < |SITES|
      ensures RootIs(k', SITES[i], NewJump(SITES[i], if i < j + 1 then w else Other(w)))
    {
      if i != j {
        RootElsewhere(k, k', i, j, NewJump(SITES[i], if i < j then w else Other(w)));
      }
    }
  }

  lemma ReadyNext(k: Kernel, k': Kernel, w: Variant, j: nat)
    requires j < |SITES| && ReadyUpTo(k, w, j)
    requires SameBut(k, k', {RootId(SITES[j].family, SITES[j].kind)}) && RootIs(k', SITES[j], NewJump(SITES[j], w))
    ensures ReadyUpTo(k', w, j + 1)
  {
    hide SITES;
    forall i | 0 <= i < |SITES|
      ensures if i < j + 1 then RootIs(k', SITES[i], NewJump(SITES[i], w)) else RootReady(k', SITES[i], w)
    {
      if i != j {
        SitesDistinct(i, j);
        assert SameChain(k, k', RootId(SITES[i].family, SITES[i].kind));
      }
    }
  }

  lemma SwitchStepsSwitch(log: seq<Step>, n: nat, k0: Kernel, k: Kernel, w: Variant, s: Site)
    requires Switching(k0, k, w) && SwitchSteps(log, n, k, s.family, s.kind, w)
    ensures SwitchingSteps(log, n, k0, w)
  {
    hide Switching, RootPhase, SameBut;
    forall i | n <= i < |log|
      ensures Switching(k0, log[i].before, w) && Switching(k0, log[i].after, w)
              && !log[i].cmd.FlushChain? && !log[i].cmd.DeleteChain?
    {
      SwitchingStays(k0, k, log[i].before, w, s);
      SwitchingStays(k0, k, log[i].after, w, s);
    }
  }

  /**
    Switches the six roots in order; returns how many were switched. The guarantee
    needs roots that jump to the old generation or have no rules, and for every single
    step, roots that all jump to the old generation.
   */
  method SwitchAll(host: Host, w: Variant, ghost live: bool) returns (done: nat)
    requires host.Valid() && (live ==> SwitchedUpTo(host.kernel, w, 0))
    modifies host
    ensures host.Valid() && done <= |SITES|
    ensures old(host.log) <= host.log && SameButRoots(old(host.kernel), host.kernel)
    ensures ForeignSafeFrom(host.log, |old(host.log)|) && MovesFrom(host.log, |old(host.log)|, w)
    ensures old(ReadyUpTo(host.kernel, w, 0)) ==> ReadyUpTo(host.kernel, w, done)
    ensures live ==> SwitchedUpTo(host.kernel, w, done) && SwitchingSteps(host.log, |old(host.log)|, old(host.kernel), w)
    ensures host.Flawless() && old(RootsExist(host.kernel)) ==> done == |SITES|
  {
    hide Chained, Switching, SwitchedUpTo, ReadyUpTo, SameBut, SameButRoots, RootPhase, SwitchSteps, ForeignSafe, MovesRoot, RootsExist;
    ghost var k0, ready := host.kernel, ReadyUpTo(host.kernel, w, 0);
    SameButRootsItself(k0);
    done := 0;
    while done < |SITES|
      invariant done <= |SITES| && host.Valid() && old(host.log) <= host.log
      invariant SameButRoots(k0, host.kernel) && ForeignSafeFrom(host.log, |old(host.log)|) && MovesFrom(host.log, |old(host.log)|, w)
      invariant ready ==> ReadyUpTo(host.kernel, w, done)
      invariant old(RootsExist(host.kernel)) ==> RootsExist(host.kernel)
      invariant live ==> SwitchedUpTo(host.kernel, w, done) && SwitchingSteps(host.log, |old(host.log)|, k0, w)
    {
      var s := SITES[done];
      ghost var k, n := host.kernel, |host.log|;
      if RootsExist(k) { RootExists(k, s); }
      if ready { ReadyHere(k, w, done); }
      if live { SwitchedHere(k, w, done); }
      var ok := SwitchRootJump(host, s.family, s.kind, w);
      SameButRootsNext(k0, k, host.kernel, s);
      if RootsExist(k) { RootsStay(k, host.kernel, s); }
      if live {
        SwitchedIsSwitching(k0, k, w, done);
        SwitchStepsSwitch(host.log, n, k0, k, w, s);
      }
      if !ok { return; }
      if ready { ReadyNext(k, host.kernel, w, done); }
      if live { SwitchedNext(k, host.kernel, w, done); }
      done := done + 1;
    }
  }

  lemma RootExists(k: Kernel, s: Site)
    requires RootsExist(k)
    ensures RootId(s.family, s.kind) in k.chains
  {
  }

  lemma RootsStay(k: Kernel, k': Kernel, s: Site)
    requires RootsExist(k) && SameBut(k, k', {RootId(s.family, s.kind)}) && RootId(s.family, s.kind) in k'.chains
    ensures RootsExist(k')
  {
    forall f: Family, kind: Kind ensures RootId(f, kind) in k'.chains {
      if Site(f, kind) != s { assert SameChain(k, k', RootId(f, kind)); }
      assert RootId(f, kind) in k.chains;
    }
  }

  lemma SwitchedHere(k: Kernel, w: Variant, done: nat)
    requires done < |SITES| && SwitchedUpTo(k, w, done)
    ensures RootIs(k, SITES[done], NewJump(SITES[done], Other(w)))
  {
  }

  lemma ReadyHere(k: Kernel, w: Variant, done: nat)
    requires done < |SITES| && ReadyUpTo(k, w, done)
    ensures RootReady(k, SITES[done], w)
  {
  }

  lemma SameButRootsItself(k: Kernel)
    ensures SameButRoots(k, k)
  {
  }

  /** Empties all roots once, when no generation is active. */
  method FlushRoots(host: Host) returns (ok: bool)
    requires host.Valid()
    modifies host
    ensures host.Valid()
    ensures old(host.log) <= host.log && SameButRoots(old(host.kernel), host.kernel)
    ensures ForeignSafeFrom(host.log, |old(host.log)|) && ClearFrom(host.log, |old(host.log)|)
    ensures ok ==> forall i :: 0 <= i < |SITES| ==> RootIs(host.kernel, SITES[i], [])
    ensures host.Flawless() && old(RootsExist(host.kernel)) ==> ok && RootsExist(host.kernel)
  {
    hide Chained, SameBut, SameButRoots, ForeignSafe, ClearCmd, RootsExist;
    ghost var k0 := host.kernel;
    SameButRootsItself(k0);
    for j := 0 to |SITES|
      invariant host.Valid() && old(host.log) <= host.log && SameButRoots(k0, host.kernel)
      invariant ForeignSafeFrom(host.log, |old(host.log)|) && ClearFrom(host.log, |old(host.log)|)
      invariant forall i :: 0 <= i < j ==> RootIs(host.kernel, SITES[i], [])
      invariant host.Flawless() && old(RootsExist(host.kernel)) ==> RootsExist(host.kernel)
    {
      ghost var k := host.kernel;
      if RootsExist(k) { RootExists(k, SITES[j]); }
      ok := FlushOne(host, RootId(SITES[j].family, SITES[j].kind));
      SameButRootsNext(k0, k, host.kernel, SITES[j]);
      if !ok { return; }
      if RootsExist(k) { RootsStay(k, host.kernel, SITES[j]); }
      forall i | 0 <= i < j
        ensures RootIs(host.kernel, SITES[i], [])
      {
        RootElsewhere(k, host.kernel, i, j, []);
      }
    }
    ok := true;
  }

  method FlushOne(host: Host, id: ChainId) returns (ok: bool)
    requires host.Valid() && !id.chain.Parent?
    modifies host
    ensures ForeignSafeFrom(host.log, |old(host.log)|) && ClearFrom(host.log, |old(host.log)|)
    ensures host.Valid() && old(host.log) <= host.log && SameBut(old(host.kernel), host.kernel, {id})
    ensures ok ==> ChainIs(host.kernel, id, [])
    ensures host.Flawless() && id in old(host.kernel).chains ==> ok && id in host.kernel.chains
  {
    hide Chained;
    ok := host.Run(FlushChain(id));
  }
}
