/**
  Generations: the chains that hold one complete ruleset, and what a packet
  experiences in a root chain that jumps to one generation or to two.
 */
module Rulesets {
  import opened Netfilter
  import opened Bindings
  import opened MarkCompiler
  import opened MarkCorrectness
  import opened Ordering

  function TableOf(kind: Kind): Table {
    if kind.NatKind? then Nat else Mangle
  }

  function RootId(f: Family, kind: Kind): ChainId {
    ChainId(f, TableOf(kind), Root(kind))
  }

  function ParentId(f: Family, kind: Kind): ChainId {
    ChainId(f, TableOf(kind), Parent(kind))
  }

  function GenId(f: Family, kind: Kind, v: Variant): ChainId {
    ChainId(f, TableOf(kind), Gen(kind, v))
  }

  // ---- Contents of a generation ---------------------------------------------

  function JumpRules(v: Variant, n: nat, f: Family): seq<Rule> {
    if n == 0 then [] else JumpRules(v, n - 1, f) + [JumpTo(RuleChain(v, n - 1, f))]
  }

  function NatRule(b: RouteBinding): Rule {
    Rule([MarkIs(b.mark), OutIface(b.iface)], Masquerade)
  }

  predicate NatSeen(bs: seq<RouteBinding>, b: RouteBinding) {
    exists i :: 0 <= i < |bs| && bs[i].mark == b.mark && bs[i].iface == b.iface
  }

  /** One masquerading rule for each pair of mark and interface. */
  function NatRules(bs: seq<RouteBinding>): seq<Rule> {
    if bs == [] then []
    else
      var front, b := bs[..|bs| - 1], bs[|bs| - 1];
      NatRules(front) + (if NatSeen(front, b) then [] else [NatRule(b)])
  }

  datatype ClampPair = ClampPair(v4: Clamp, v6: Clamp)

  function ClampFor(c: ClampPair, f: Family): Clamp {
    if f.V4? then c.v4 else c.v6
  }

  predicate Clamps(b: RouteBinding) {
    b.clampV4.ClampTo? || b.clampV6.ClampTo?
  }

  /** The clamp settings of each interface; the last binding of an interface decides. */
  function ClampMap(bs: seq<RouteBinding>): map<string, ClampPair> {
    if bs == [] then map[]
    else
      var front, b := bs[..|bs| - 1], bs[|bs| - 1];
      if Clamps(b) then ClampMap(front)[b.iface := ClampPair(b.clampV4, b.clampV6)] else ClampMap(front)
  }

  function MssRule(iface: string, limit: MssLimit): Rule {
    Rule([OutIface(iface), TcpSyn], TcpMss(limit))
  }

  function MssRulesFor(ifaces: seq<string>, clamps: map<string, ClampPair>, f: Family): seq<Rule> {
    if ifaces == [] then []
    else
      var front, iface := ifaces[..|ifaces| - 1], ifaces[|ifaces| - 1];
      MssRulesFor(front, clamps, f) +
      (if iface in clamps && ClampFor(clamps[iface], f).ClampTo?
       then [MssRule(iface, ClampFor(clamps[iface], f).limit)] else [])
  }

  function MssRules(bs: seq<RouteBinding>, f: Family): seq<Rule> {
    MssRulesFor(Sorted(ClampMap(bs).Keys), ClampMap(bs), f)
  }

  predicate ChainIs(k: Kernel, id: ChainId, rules: seq<Rule>) {
    id in k.chains && k.chains[id] == rules
  }

  /** The mark generation holds the chains of the first `n` bindings. */
  ghost predicate MarkBuilt(k: Kernel, v: Variant, bs: seq<RouteBinding>, n: nat, f: Family)
    requires n <= |bs|
  {
    ChainIs(k, MarkGenId(v, f), JumpRules(v, n, f))
    && forall i :: 0 <= i < n ==> ChainIs(k, RuleChainId(v, i, f), Compiled(bs[i], f))
  }

  /** Generation `v` of one hook holds exactly the ruleset of the bindings. */
  ghost predicate Built(k: Kernel, v: Variant, bs: seq<RouteBinding>, f: Family, kind: Kind) {
    match kind
    case MarkKind => MarkBuilt(k, v, bs, |bs|, f)
    case NatKind => ChainIs(k, GenId(f, NatKind, v), NatRules(bs))
    case MssKind => ChainIs(k, GenId(f, MssKind, v), MssRules(bs, f))
  }

  // ---- What a ruleset does to a packet --------------------------------------

  /** The mark of the last binding that routes the packet, else the incoming mark. */
  ghost function LastMark(bs: seq<RouteBinding>, sets: map<string, IpSet>, p: Packet, mark: nat): nat {
    if bs == [] then mark
    else if Routes(bs[|bs| - 1], sets, p) then bs[|bs| - 1].mark
    else LastMark(bs[..|bs| - 1], sets, p, mark)
  }

  predicate Masquerades(bs: seq<RouteBinding>, p: Packet, st: PacketState) {
    exists i :: 0 <= i < |bs| && st.mark == bs[i].mark && IfaceMatches(bs[i].iface, p.outIface)
  }

  /** Interface `iface` clamps SYN packets that leave like `p`, to `bound`. */
  predicate ClampsTo(clamps: map<string, ClampPair>, iface: string, f: Family, p: Packet, bound: nat) {
    iface in clamps && ClampFor(clamps[iface], f).ClampTo? && IfaceMatches(iface, p.outIface)
    && p.l4.Tcp? && p.syn && bound == MssBound(ClampFor(clamps[iface], f).limit, p)
  }

  /** `r` is the smallest of `mss` and all applicable bounds. */
  ghost predicate ClampedMss(clamps: map<string, ClampPair>, f: Family, p: Packet, mss: nat, r: nat) {
    && r <= mss
    && (forall iface, bound :: ClampsTo(clamps, iface, f, p, bound) ==> r <= bound)
    && (r == mss || exists iface :: ClampsTo(clamps, iface, f, p, r))
  }

  /** `o` is what the ruleset of the bindings makes of the packet at one hook. */
  ghost predicate Verdict(bs: seq<RouteBinding>, f: Family, kind: Kind, sets: map<string, IpSet>,
                          p: Packet, st: PacketState, o: Outcome) {
    match kind
    case MarkKind => o == Next(st.(mark := LastMark(bs, sets, p, st.mark)))
    case NatKind => o == if Masquerades(bs, p, st) then Stop(st.(masquerade := true)) else Next(st)
    case MssKind => o.Next? && o.st == st.(mss := o.st.mss) && ClampedMss(ClampMap(bs), f, p, st.mss, o.st.mss)
  }

  predicate AllNormalized(bs: seq<RouteBinding>) {
    forall i :: 0 <= i < |bs| ==> Normalized(bs[i])
  }

  // ---- Running one generation -----------------------------------------------

  lemma {:induction false} JumpRulesRun(k: Kernel, v: Variant, bs: seq<RouteBinding>, n: nat, p: Packet,
                                        st: PacketState, depth: nat)
    requires n <= |bs| && AllNormalized(bs) && WellFormed(p) && depth >= 1
    requires forall i :: 0 <= i < n ==> ChainIs(k, RuleChainId(v, i, p.family), Compiled(bs[i], p.family))
    ensures RunRules(k, p.family, Mangle, JumpRules(v, n, p.family), p, st, depth)
         == Next(st.(mark := LastMark(bs[..n], k.sets, p, st.mark)))
  {
    hide Normalized, Compiled, Routes, RunRules, WellFormed;
    if n == 0 {
      RunNothing(k, p.family, p, st, depth);
    } else {
      JumpRulesRun(k, v, bs, n - 1, p, st, depth);
      var id := RuleChainId(v, n - 1, p.family);
      var st1 := st.(mark := LastMark(bs[..n - 1], k.sets, p, st.mark));
      var r := JumpTo(RuleChain(v, n - 1, p.family));
      RunAppend(k, p.family, Mangle, JumpRules(v, n - 1, p.family), [r], p, st, depth);
      RunOne(k, p.family, Mangle, r, p, st1, depth);
      assert Normalized(bs[n - 1]);
      CompiledChainIsCorrect(k, id, bs[n - 1], p, st1, depth);
      assert bs[..n][..n - 1] == bs[..n - 1] && bs[..n][n - 1] == bs[n - 1];
    }
  }

  lemma RunNothing(k: Kernel, f: Family, p: Packet, st: PacketState, depth: nat)
    ensures RunRules(k, f, Mangle, [], p, st, depth) == Next(st)
  {
  }

  lemma {:induction false} NatRulesRun(k: Kernel, f: Family, bs: seq<RouteBinding>, p: Packet, st: PacketState, depth: nat)
    ensures RunRules(k, f, Nat, NatRules(bs), p, st, depth)
         == if Masquerades(bs, p, st) then Stop(st.(masquerade := true)) else Next(st)
  {
    if bs != [] {
      var front, b := bs[..|bs| - 1], bs[|bs| - 1];
      NatRulesRun(k, f, front, p, st, depth);
      assert Masquerades(bs, p, st) <==> Masquerades(front, p, st) || (st.mark == b.mark && IfaceMatches(b.iface, p.outIface)) by {
        assert forall i :: 0 <= i < |front| ==> front[i] == bs[i];
      }
      if NatSeen(front, b) {
        assert NatRules(front) + [] == NatRules(front);
      } else {
        RunAppend(k, f, Nat, NatRules(front), [NatRule(b)], p, st, depth);
        RunOne(k, f, Nat, NatRule(b), p, st, depth);
        NatRuleHolds(b, k.sets, p, st);
      }
    }
  }

  lemma NatRuleHolds(b: RouteBinding, sets: map<string, IpSet>, p: Packet, st: PacketState)
    ensures AllHold(NatRule(b).matches, sets, p, st) <==> st.mark == b.mark && IfaceMatches(b.iface, p.outIface)
  {
    var ms := NatRule(b).matches;
    assert ms[0] == MarkIs(b.mark) && ms[1] == OutIface(b.iface);
  }

  lemma MssRuleHolds(iface: string, limit: MssLimit, sets: map<string, IpSet>, p: Packet, st: PacketState)
    ensures AllHold(MssRule(iface, limit).matches, sets, p, st) <==> IfaceMatches(iface, p.outIface) && p.l4.Tcp? && p.syn
  {
    var ms := MssRule(iface, limit).matches;
    assert ms[0] == OutIface(iface) && ms[1] == TcpSyn;
  }

  /** `r` is the smallest of `mss` and the bounds of the interfaces listed. */
  ghost predicate ClampedBy(ifaces: seq<string>, clamps: map<string, ClampPair>, f: Family, p: Packet, mss: nat, r: nat) {
    && r <= mss
    && (forall iface, bound :: iface in ifaces && ClampsTo(clamps, iface, f, p, bound) ==> r <= bound)
    && (r == mss || exists iface :: iface in ifaces && ClampsTo(clamps, iface, f, p, r))
  }

  lemma {:induction false} MssRulesRun(k: Kernel, f: Family, ifaces: seq<string>, clamps: map<string, ClampPair>,
                                       p: Packet, st: PacketState, depth: nat) returns (r: nat)
    ensures RunRules(k, f, Mangle, MssRulesFor(ifaces, clamps, f), p, st, depth) == Next(st.(mss := r))
    ensures ClampedBy(ifaces, clamps, f, p, st.mss, r)
  {
    if ifaces == [] {
      r := st.mss;
    } else {
      var front, iface := ifaces[..|ifaces| - 1], ifaces[|ifaces| - 1];
      assert forall x :: x in ifaces <==> x in front || x == iface;
      var r1 := MssRulesRun(k, f, front, clamps, p, st, depth);
      if iface in clamps && ClampFor(clamps[iface], f).ClampTo? {
        var limit := ClampFor(clamps[iface], f).limit;
        var st1 := st.(mss := r1);
        RunAppend(k, f, Mangle, MssRulesFor(front, clamps, f), [MssRule(iface, limit)], p, st, depth);
        RunOne(k, f, Mangle, MssRule(iface, limit), p, st1, depth);
        MssRuleHolds(iface, limit, k.sets, p, st1);
        if IfaceMatches(iface, p.outIface) && p.l4.Tcp? && p.syn {
          r := Min(r1, MssBound(limit, p));
          assert ClampsTo(clamps, iface, f, p, MssBound(limit, p));
        } else {
          r := r1;
        }
      } else {
        assert MssRulesFor(front, clamps, f) + [] == MssRulesFor(front, clamps, f);
        r := r1;
      }
    }
  }

  /**
    A generation does to every packet exactly what its ruleset says: it sets the
    mark of the last routing binding in order, masquerades the marked packets of
    its interfaces, and clamps SYN packets to the smallest applicable bound.
   */
  lemma GenerationVerdict(k: Kernel, v: Variant, bs: seq<RouteBinding>, kind: Kind, p: Packet, st: PacketState, depth: nat)
    requires AllNormalized(bs) && WellFormed(p) && depth >= 2 && Built(k, v, bs, p.family, kind)
    ensures Verdict(bs, p.family, kind, k.sets, p, st, RunChain(k, GenId(p.family, kind, v), p, st, depth))
  {
    hide NatRules, MssRulesFor, JumpRules, Compiled, Normalized, LastMark, Masquerades, ClampMap, RunRules;
    var f := p.family;
    match kind
    case MarkKind =>
      JumpRulesRun(k, v, bs, |bs|, p, st, depth - 1);
      assert bs[..|bs|] == bs;
    case NatKind =>
      NatRulesRun(k, f, bs, p, st, depth - 1);
    case MssKind =>
      var clamps := ClampMap(bs);
      var r := MssRulesRun(k, f, Sorted(clamps.Keys), clamps, p, st, depth - 1);
      assert ClampedMss(clamps, f, p, st.mss, r) by {
        assert forall iface, bound :: ClampsTo(clamps, iface, f, p, bound) ==> iface in Sorted(clamps.Keys);
      }
  }

  // ---- Two generations behind one root --------------------------------------

  lemma {:induction false} LastMarkChooses(bs: seq<RouteBinding>, sets: map<string, IpSet>, p: Packet, a: nat, b: nat)
    ensures (LastMark(bs, sets, p, a) == a && LastMark(bs, sets, p, b) == b)
         || LastMark(bs, sets, p, a) == LastMark(bs, sets, p, b)
  {
    if bs != [] && !Routes(bs[|bs| - 1], sets, p) {
      LastMarkChooses(bs[..|bs| - 1], sets, p, a, b);
    }
  }

  /** Running the ruleset `olds` after the ruleset `news` amounts to one of the two. */
  lemma VerdictsCompose(news: seq<RouteBinding>, olds: seq<RouteBinding>, f: Family, kind: Kind,
                        sets: map<string, IpSet>, p: Packet, st: PacketState, o1: Outcome, o2: Outcome)
    requires Verdict(news, f, kind, sets, p, st, o1)
    requires !o1.Stop? ==> Verdict(olds, f, kind, sets, p, o1.st, o2)
    ensures var o := if o1.Stop? then o1 else o2;
      Verdict(news, f, kind, sets, p, st, o) || Verdict(olds, f, kind, sets, p, st, o)
  {
    if kind.MarkKind? {
      LastMarkChooses(olds, sets, p, st.mark, o1.st.mark);
    }
  }

  /** The root of one hook while the old ruleset is being replaced by the new one. */
  ghost predicate SiteOk(k: Kernel, v: Variant, olds: seq<RouteBinding>, news: seq<RouteBinding>, f: Family, kind: Kind) {
    var old_, new_ := JumpTo(Gen(kind, v)), JumpTo(Gen(kind, Other(v)));
    || (ChainIs(k, RootId(f, kind), [old_]) && Built(k, v, olds, f, kind))
    || (ChainIs(k, RootId(f, kind), [new_, old_]) && Built(k, v, olds, f, kind) && Built(k, Other(v), news, f, kind))
    || (ChainIs(k, RootId(f, kind), [new_]) && Built(k, Other(v), news, f, kind))
  }

  lemma RunRoot1(k: Kernel, f: Family, kind: Kind, a: Chain, p: Packet, st: PacketState, depth: nat)
    requires depth >= 1 && ChainIs(k, RootId(f, kind), [JumpTo(a)])
    ensures RunChain(k, RootId(f, kind), p, st, depth) == RunChain(k, ChainId(f, TableOf(kind), a), p, st, depth - 1)
  {
    RunOne(k, f, TableOf(kind), JumpTo(a), p, st, depth - 1);
  }

  lemma RunRoot2(k: Kernel, f: Family, kind: Kind, a: Chain, b: Chain, p: Packet, st: PacketState, depth: nat)
    requires depth >= 1 && ChainIs(k, RootId(f, kind), [JumpTo(a), JumpTo(b)])
    ensures var o1 := RunChain(k, ChainId(f, TableOf(kind), a), p, st, depth - 1);
      RunChain(k, RootId(f, kind), p, st, depth) ==
        if o1.Stop? then o1 else RunChain(k, ChainId(f, TableOf(kind), b), p, o1.st, depth - 1)
  {
    var t := TableOf(kind);
    var o1 := RunChain(k, ChainId(f, t, a), p, st, depth - 1);
    assert [JumpTo(a), JumpTo(b)] == [JumpTo(a)] + [JumpTo(b)];
    RunAppend(k, f, t, [JumpTo(a)], [JumpTo(b)], p, st, depth - 1);
    RunOne(k, f, t, JumpTo(a), p, st, depth - 1);
    if !o1.Stop? {
      RunOne(k, f, t, JumpTo(b), p, o1.st, depth - 1);
    }
  }

  /**
    While a root is in any state of the replacement, also while both jumps are in
    place, every packet gets the verdict of the old ruleset or that of the new one.
   */
  lemma SiteVerdict(k: Kernel, v: Variant, olds: seq<RouteBinding>, news: seq<RouteBinding>, kind: Kind,
                    p: Packet, st: PacketState, depth: nat)
    requires AllNormalized(olds) && AllNormalized(news) && WellFormed(p) && depth >= 3
    requires SiteOk(k, v, olds, news, p.family, kind)
    ensures var o := RunChain(k, RootId(p.family, kind), p, st, depth);
      Verdict(olds, p.family, kind, k.sets, p, st, o) || Verdict(news, p.family, kind, k.sets, p, st, o)
  {
    hide RunChain, Built, Verdict, AllNormalized, WellFormed;
    var f, w := p.family, Other(v);
    if ChainIs(k, RootId(f, kind), [JumpTo(Gen(kind, w)), JumpTo(Gen(kind, v))]) {
      RunRoot2(k, f, kind, Gen(kind, w), Gen(kind, v), p, st, depth);
      GenerationVerdict(k, w, news, kind, p, st, depth - 1);
      var o1 := RunChain(k, GenId(f, kind, w), p, st, depth - 1);
      var o2 := RunChain(k, GenId(f, kind, v), p, o1.st, depth - 1);
      GenerationVerdict(k, v, olds, kind, p, o1.st, depth - 1);
      VerdictsCompose(news, olds, f, kind, k.sets, p, st, o1, o2);
    } else if ChainIs(k, RootId(f, kind), [JumpTo(Gen(kind, v))]) {
      RunRoot1(k, f, kind, Gen(kind, v), p, st, depth);
      GenerationVerdict(k, v, olds, kind, p, st, depth - 1);
    } else {
      RunRoot1(k, f, kind, Gen(kind, w), p, st, depth);
      GenerationVerdict(k, w, news, kind, p, st, depth - 1);
    }
  }

  // ---- Links from the built-in chain ----------------------------------------

  /** The links that a built-in chain has to its root: one, or more after a spurious failure of the test for it. */
  function RootLinks(kind: Kind, n: nat): seq<Rule> {
    if n == 0 then [] else RootLinks(kind, n - 1) + [JumpTo(Root(kind))]
  }

  lemma RunLinks(k: Kernel, kind: Kind, n: nat, p: Packet, st: PacketState, depth: nat)
    requires n > 0
    ensures
      var o1 := RunRules(k, p.family, TableOf(kind), RootLinks(kind, n - 1), p, st, depth);
      RunRules(k, p.family, TableOf(kind), RootLinks(kind, n), p, st, depth) ==
        if o1.Next? then RunChain(k, RootId(p.family, kind), p, o1.st, depth) else o1
  {
    hide RunRules, RunChain;
    var o1 := RunRules(k, p.family, TableOf(kind), RootLinks(kind, n - 1), p, st, depth);
    RunAppend(k, p.family, TableOf(kind), RootLinks(kind, n - 1), [JumpTo(Root(kind))], p, st, depth);
    if o1.Next? {
      RunOne(k, p.family, TableOf(kind), JumpTo(Root(kind)), p, o1.st, depth);
    }
  }

  /** However many links there are, a packet that passes them gets the verdict of one of the two rulesets. */
  lemma {:induction false} LinksVerdict(k: Kernel, v: Variant, olds: seq<RouteBinding>, news: seq<RouteBinding>, kind: Kind,
                                        n: nat, p: Packet, st: PacketState, depth: nat)
    requires n > 0 && AllNormalized(olds) && AllNormalized(news) && WellFormed(p) && depth >= 3
    requires SiteOk(k, v, olds, news, p.family, kind)
    ensures var o := RunRules(k, p.family, TableOf(kind), RootLinks(kind, n), p, st, depth);
      !o.Back? && (Verdict(olds, p.family, kind, k.sets, p, st, o) || Verdict(news, p.family, kind, k.sets, p, st, o))
  {
    hide RunRules, RunChain, SiteOk, Verdict, AllNormalized, WellFormed, RootLinks;
    RunLinks(k, kind, n, p, st, depth);
    if n == 1 {
      NoLinks(k, kind, p, st, depth);
      SiteVerdict(k, v, olds, news, kind, p, st, depth);
    } else {
      LinksVerdict(k, v, olds, news, kind, n - 1, p, st, depth);
      var o1 := RunRules(k, p.family, TableOf(kind), RootLinks(kind, n - 1), p, st, depth);
      if o1.Next? {
        SiteVerdict(k, v, olds, news, kind, p, o1.st, depth);
        var o2 := RunChain(k, RootId(p.family, kind), p, o1.st, depth);
        forall a, b | a in {olds, news} && b in {olds, news} && Verdict(a, p.family, kind, k.sets, p, st, o1)
                      && Verdict(b, p.family, kind, k.sets, p, o1.st, o2)
          ensures Verdict(a, p.family, kind, k.sets, p, st, o2) || Verdict(b, p.family, kind, k.sets, p, st, o2)
        {
          VerdictsCompose(a, b, p.family, kind, k.sets, p, st, o1, o2);
        }
      }
    }
  }

  lemma NoLinks(k: Kernel, kind: Kind, p: Packet, st: PacketState, depth: nat)
    ensures RunRules(k, p.family, TableOf(kind), RootLinks(kind, 0), p, st, depth) == Next(st)
  {
  }

  // ---- Clamps in terms of the bindings --------------------------------------

  /** Binding `i` is the last one of its interface that clamps at all. */
  predicate LastClamping(bs: seq<RouteBinding>, iface: string, i: nat) {
    && i < |bs| && bs[i].iface == iface && (bs[i].clampV4.ClampTo? || bs[i].clampV6.ClampTo?)
    && forall j :: i < j < |bs| && bs[j].iface == iface ==> bs[j].clampV4.NoClamp? && bs[j].clampV6.NoClamp?
  }

  lemma {:induction false} ClampMapIs(bs: seq<RouteBinding>, iface: string) returns (i: nat)
    ensures iface in ClampMap(bs) ==> LastClamping(bs, iface, i) && ClampMap(bs)[iface] == ClampPair(bs[i].clampV4, bs[i].clampV6)
    ensures iface !in ClampMap(bs) ==> forall j :: 0 <= j < |bs| && bs[j].iface == iface ==> bs[j].clampV4.NoClamp? && bs[j].clampV6.NoClamp?
  {
    i := 0;
    if bs != [] {
      var n := |bs| - 1;
      assert forall j :: 0 <= j < n ==> bs[..n][j] == bs[j];
      i := ClampMapIs(bs[..n], iface);
      if bs[n].iface == iface && Clamps(bs[n]) { i := n; }
    }
  }

  /** SYN packets of a family are clamped by the setting for that family of the last clamping binding of their interface. */
  lemma ClampsAre(bs: seq<RouteBinding>, iface: string, f: Family, p: Packet, bound: nat)
    ensures ClampsTo(ClampMap(bs), iface, f, p, bound) <==>
      (IfaceMatches(iface, p.outIface) && p.l4.Tcp? && p.syn
       && exists i: nat, limit :: LastClamping(bs, iface, i) && bound == MssBound(limit, p)
            && (f == V4 ==> bs[i].clampV4 == ClampTo(limit)) && (f == V6 ==> bs[i].clampV6 == ClampTo(limit)))
  {
    hide ClampMap;
    var i := ClampMapIs(bs, iface);
    forall j: nat | LastClamping(bs, iface, j) && iface in ClampMap(bs) ensures j == i {
    }
  }
}
