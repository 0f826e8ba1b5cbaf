/**
  The packet filter as the routing code sees it: chains of rules in the mangle
  and nat tables of iptables and ip6tables, ipsets, and policy rules of `ip rule`.

  The kernel is a value. A command either fails and changes nothing, or is
  accepted and changes the value as `Apply` says. The kernel is permissive: a
  chain or an ipset may be deleted while rules still refer to it, and a rule may
  name an ipset that does not exist. What the callers guarantee is therefore
  their own doing and not the kernel's.
 */
module Netfilter {

  // ---- Addresses ------------------------------------------------------------

  datatype Family = V4 | V6

  datatype Addr = Addr(family: Family, bits: nat)

  /** A prefix `addr/len` in the notation of section 3.1 of RFC 4632. */
  datatype Prefix = Prefix(addr: Addr, len: nat)

  function Width(family: Family): nat {
    if family.V4? then 32 else 128
  }

  function Pow2(n: nat): (p: nat)
    ensures p > 0
  {
    if n == 0 then 1 else 2 * Pow2(n - 1)
  }

  function HostBits(p: Prefix): nat {
    if p.len <= Width(p.addr.family) then Width(p.addr.family) - p.len else 0
  }

  /** The address bits that the prefix `p` fixes. */
  function Network(p: Prefix, bits: nat): int {
    bits / Pow2(HostBits(p))
  }

  predicate Contains(p: Prefix, a: Addr) {
    p.addr.family == a.family && Network(p, p.addr.bits) == Network(p, a.bits)
  }

  ghost predicate Covered(entries: set<Prefix>, a: Addr) {
    exists p :: p in entries && Contains(p, a)
  }

  /** 224.0.0.0/4 (section 4 of RFC 1112) and ff00::/8 (section 2.7 of RFC 4291). */
  function MulticastRange(family: Family): Prefix {
    if family.V4? then Prefix(Addr(V4, 14 * Pow2(28)), 4) else Prefix(Addr(V6, 255 * Pow2(120)), 8)
  }

  /** Address classification: the top nibble is 0xe, or the top byte is 0xff. */
  predicate IsMulticast(a: Addr) {
    if a.family.V4? then a.bits / Pow2(28) == 14 else a.bits / Pow2(120) == 255
  }

  lemma MulBound(a: int, p: nat)
    ensures a >= 1 ==> a * p >= p
    ensures a <= -1 ==> a * p + p <= 0
  {
    if a >= 1 {
      assert a * p == p + (a - 1) * p;
    } else if a <= -1 {
      assert a * p == (a + 1) * p - p;
    }
  }

  lemma MultipleOver(c: nat, p: nat)
    requires p > 0
    ensures (c * p) / p == c
  {
    var q, r := (c * p) / p, (c * p) % p;
    assert (c - q) * p == r;
    MulBound(c - q, p);
  }

  lemma MulticastRangeIsMulticast(a: Addr)
    ensures Contains(MulticastRange(a.family), a) <==> IsMulticast(a)
  {
    if a.family.V4? {
      MultipleOver(14, Pow2(28));
    } else {
      MultipleOver(255, Pow2(120));
    }
  }

  // ---- Packets --------------------------------------------------------------

  datatype L4 = Tcp(port: nat) | Udp(port: nat) | OtherL4

  datatype Packet = Packet(
    family: Family, inIface: string, outIface: string, mac: string,
    src: Addr, dst: Addr, l4: L4, syn: bool, pathMss: nat)

  /** What the rules change: the fwmark, the TCP MSS option and source translation. */
  datatype PacketState = PacketState(mark: nat, mss: nat, masquerade: bool)

  // ---- Chains and rules -----------------------------------------------------

  datatype Table = Mangle | Nat

  /** The three hooks the routing code owns. */
  datatype Kind = MarkKind | MssKind | NatKind

  datatype Variant = A | B

  function Other(v: Variant): Variant {
    if v.A? then B else A
  }

  /** `Parent` is the built-in chain of a hook; `ChainNames` gives the text of each name. */
  datatype Chain =
    | Parent(kind: Kind)
    | Root(kind: Kind)
    | Gen(kind: Kind, variant: Variant)
    | RuleChain(variant: Variant, index: nat, family: Family)
    | Foreign(name: string)

  datatype ChainId = ChainId(family: Family, table: Table, chain: Chain)

  datatype Protocol = AnyProtocol | TcpOnly | UdpOnly | Both

  datatype MssLimit = PathMtu | FixedMss(value: nat)

  datatype Match =
    | SrcSet(set_: string)
    | DstSet(set_: string)
    | InIface(name: string)
    | SrcMac(mac: string)
    | ProtocolIs(protocol: Protocol)
    | DstPort(low: int, high: int)
    | DstIn(prefix: Prefix)
    | MarkIs(mark: nat)
    | OutIface(name: string)
    | TcpSyn

  datatype Target = Return | SetMark(mark: nat) | Jump(chain: Chain) | Masquerade | TcpMss(limit: MssLimit)

  datatype Rule = Rule(matches: seq<Match>, target: Target)

  datatype IpSet = IpSet(family: Family, entries: set<Prefix>)

  datatype IpRule = IpRule(mark: nat, table: int, priority: nat)

  datatype Kernel = Kernel(
    chains: map<ChainId, seq<Rule>>,
    sets: map<string, IpSet>,
    ipRules4: multiset<IpRule>,
    ipRules6: multiset<IpRule>)

  function IpRules(k: Kernel, family: Family): multiset<IpRule> {
    if family.V4? then k.ipRules4 else k.ipRules6
  }

  function JumpTo(chain: Chain): Rule {
    Rule([], Jump(chain))
  }

  /** An interface pattern that ends in `+` matches every name it is a prefix of. */
  predicate IfaceMatches(pattern: string, name: string) {
    if |pattern| > 0 && pattern[|pattern| - 1] == '+'
    then pattern[..|pattern| - 1] <= name
    else pattern == name
  }

  predicate ProtocolMatches(protocol: Protocol, l4: L4) {
    match protocol
    case AnyProtocol => true
    case TcpOnly => l4.Tcp?
    case UdpOnly => l4.Udp?
    case Both => l4.Tcp? || l4.Udp?
  }

  ghost predicate InSet(sets: map<string, IpSet>, name: string, a: Addr) {
    name in sets && Covered(sets[name].entries, a)
  }

  ghost predicate Holds(m: Match, sets: map<string, IpSet>, p: Packet, st: PacketState) {
    match m
    case SrcSet(name) => InSet(sets, name, p.src)
    case DstSet(name) => InSet(sets, name, p.dst)
    case InIface(name) => IfaceMatches(name, p.inIface)
    case SrcMac(mac) => mac == p.mac
    case ProtocolIs(protocol) => ProtocolMatches(protocol, p.l4)
    case DstPort(low, high) => !p.l4.OtherL4? && low <= p.l4.port <= high
    case DstIn(prefix) => Contains(prefix, p.dst)
    case MarkIs(mark) => st.mark == mark
    case OutIface(name) => IfaceMatches(name, p.outIface)
    case TcpSyn => p.l4.Tcp? && p.syn
  }

  /** The matches of one rule are a conjunction. */
  ghost predicate AllHold(ms: seq<Match>, sets: map<string, IpSet>, p: Packet, st: PacketState) {
    forall i :: 0 <= i < |ms| ==> Holds(ms[i], sets, p, st)
  }

  function Min(a: nat, b: nat): nat {
    if a <= b then a else b
  }

  function MssBound(limit: MssLimit, p: Packet): nat {
    match limit
    case PathMtu => p.pathMss
    case FixedMss(value) => value
  }

  // ---- Traversal ------------------------------------------------------------

  /** `Next`: fell off the end; `Back`: left by RETURN; `Stop`: traversal of the table ended. */
  datatype Outcome = Next(st: PacketState) | Back(st: PacketState) | Stop(st: PacketState)

  /** The targets that change the packet and let it continue with the next rule. */
  function Rewrite(target: Target, p: Packet, st: PacketState): PacketState
    requires target.SetMark? || target.TcpMss?
  {
    if target.SetMark? then st.(mark := target.mark)
    else st.(mss := Min(st.mss, MssBound(target.limit, p)))
  }

  ghost function RunRules(k: Kernel, family: Family, table: Table, rules: seq<Rule>,
                          p: Packet, st: PacketState, depth: nat): Outcome
    decreases depth, |rules|
  {
    if rules == [] then Next(st)
    else if !AllHold(rules[0].matches, k.sets, p, st) then
      RunRules(k, family, table, rules[1..], p, st, depth)
    else
      var target := rules[0].target;
      if target.Return? then Back(st)
      else if target.Masquerade? then Stop(st.(masquerade := true))
      else if target.Jump? then
        var o := RunChain(k, ChainId(family, table, target.chain), p, st, depth);
        if o.Stop? then o else RunRules(k, family, table, rules[1..], p, o.st, depth)
      else
        RunRules(k, family, table, rules[1..], p, Rewrite(target, p, st), depth)
  }

  /** A jump into chain `id`, with room for `depth` nested jumps. */
  ghost function RunChain(k: Kernel, id: ChainId, p: Packet, st: PacketState, depth: nat): (o: Outcome)
    ensures !o.Back?
    decreases depth, 0
  {
    if depth == 0 || id !in k.chains then Next(st)
    else
      var o := RunRules(k, id.family, id.table, k.chains[id], p, st, depth - 1);
      if o.Stop? then o else Next(o.st)
  }

  /** What rules `b` do after rules `a` in the same chain. */
  ghost function Then(k: Kernel, family: Family, table: Table, o: Outcome, b: seq<Rule>,
                      p: Packet, depth: nat): Outcome {
    if o.Next? then RunRules(k, family, table, b, p, o.st, depth) else o
  }

  lemma {:induction false} RunAppend(k: Kernel, family: Family, table: Table, a: seq<Rule>, b: seq<Rule>,
                                     p: Packet, st: PacketState, depth: nat)
    ensures RunRules(k, family, table, a + b, p, st, depth)
         == Then(k, family, table, RunRules(k, family, table, a, p, st, depth), b, p, depth)
    decreases |a|
  {
    if a == [] {
      assert a + b == b;
    } else {
      assert (a + b)[1..] == a[1..] + b;
      assert (a + b)[0] == a[0];
      var target := a[0].target;
      if !AllHold(a[0].matches, k.sets, p, st) {
        RunAppend(k, family, table, a[1..], b, p, st, depth);
      } else if target.Jump? {
        var o := RunChain(k, ChainId(family, table, target.chain), p, st, depth);
        if !o.Stop? {
          RunAppend(k, family, table, a[1..], b, p, o.st, depth);
        }
      } else if target.SetMark? || target.TcpMss? {
        RunAppend(k, family, table, a[1..], b, p, Rewrite(target, p, st), depth);
      }
    }
  }

  lemma RunOne(k: Kernel, family: Family, table: Table, r: Rule, p: Packet, st: PacketState, depth: nat)
    ensures RunRules(k, family, table, [r], p, st, depth) ==
      if !AllHold(r.matches, k.sets, p, st) then Next(st)
      else if r.target.Return? then Back(st)
      else if r.target.Masquerade? then Stop(st.(masquerade := true))
      else if r.target.Jump? then RunChain(k, ChainId(family, table, r.target.chain), p, st, depth)
      else Next(Rewrite(r.target, p, st))
  {
    assert [r][1..] == [];
  }

  // ---- Reachability ---------------------------------------------------------

  ghost predicate JumpsFrom(k: Kernel, a: ChainId, c: ChainId) {
    a in k.chains && a.family == c.family && a.table == c.table &&
    exists i :: 0 <= i < |k.chains[a]| && k.chains[a][i].target == Jump(c.chain)
  }

  /** Chain `b` is reached from chain `a` through `n` jumps. */
  ghost predicate Reaches(k: Kernel, a: ChainId, b: ChainId, n: nat)
    decreases n
  {
    if n == 0 then a == b
    else exists c :: JumpsFrom(k, a, c) && Reaches(k, c, b, n - 1)
  }

  ghost predicate NamesSet(r: Rule, name: string) {
    exists i :: 0 <= i < |r.matches| &&
                (r.matches[i] == SrcSet(name) || r.matches[i] == DstSet(name))
  }

  // ---- Commands -------------------------------------------------------------

  datatype Cmd =
    | NewChain(id: ChainId)                       // -N
    | FlushChain(id: ChainId)                     // -F
    | DeleteChain(id: ChainId)                    // -X
    | AppendRule(id: ChainId, rule: Rule)         // -A
    | InsertRule(id: ChainId, rule: Rule)         // -I chain 1
    | DeleteRule(id: ChainId, rule: Rule)         // -D
    | CheckRule(id: ChainId, rule: Rule)          // -C
    | CreateSet(name: string, family: Family)     // ipset create -exist
    | AddEntry(name: string, entry: Prefix)       // ipset add -exist
    | FlushSet(name: string)                      // ipset flush
    | SwapSets(name: string, other: string)       // ipset swap
    | DestroySet(name: string)                    // ipset destroy
    | AddIpRule(family: Family, ipRule: IpRule)   // ip rule add
    | DelIpRule(family: Family, ipRule: IpRule)   // ip rule del

  predicate IsChainCmd(cmd: Cmd) {
    cmd.NewChain? || cmd.FlushChain? || cmd.DeleteChain? || cmd.AppendRule? ||
    cmd.InsertRule? || cmd.DeleteRule? || cmd.CheckRule?
  }

  predicate IsSetCmd(cmd: Cmd) {
    cmd.CreateSet? || cmd.AddEntry? || cmd.FlushSet? || cmd.SwapSets? || cmd.DestroySet?
  }

  predicate Accepts(k: Kernel, cmd: Cmd) {
    match cmd
    case NewChain(id) => id !in k.chains
    case FlushChain(id) => id in k.chains
    case DeleteChain(id) => id in k.chains
    case AppendRule(id, _) => id in k.chains
    case InsertRule(id, _) => id in k.chains
    case DeleteRule(id, rule) => id in k.chains && rule in k.chains[id]
    case CheckRule(id, rule) => id in k.chains && rule in k.chains[id]
    case CreateSet(name, family) => name in k.sets ==> k.sets[name].family == family
    case AddEntry(name, _) => name in k.sets
    case FlushSet(name) => name in k.sets
    case SwapSets(name, other) => name in k.sets && other in k.sets && k.sets[name].family == k.sets[other].family
    case DestroySet(name) => name in k.sets
    case AddIpRule(_, _) => true
    case DelIpRule(family, ipRule) => ipRule in IpRules(k, family)
  }

  function RemoveFirst(rules: seq<Rule>, rule: Rule): seq<Rule> {
    if rules == [] then []
    else if rules[0] == rule then rules[1..]
    else [rules[0]] + RemoveFirst(rules[1..], rule)
  }

  function WithIpRules(k: Kernel, family: Family, rules: multiset<IpRule>): Kernel {
    if family.V4? then k.(ipRules4 := rules) else k.(ipRules6 := rules)
  }

  function Apply(k: Kernel, cmd: Cmd): Kernel
    requires Accepts(k, cmd)
  {
    match cmd
    case NewChain(id) => k.(chains := k.chains[id := []])
    case FlushChain(id) => k.(chains := k.chains[id := []])
    case DeleteChain(id) => k.(chains := k.chains - {id})
    case AppendRule(id, rule) => k.(chains := k.chains[id := k.chains[id] + [rule]])
    case InsertRule(id, rule) => k.(chains := k.chains[id := [rule] + k.chains[id]])
    case DeleteRule(id, rule) => k.(chains := k.chains[id := RemoveFirst(k.chains[id], rule)])
    case CheckRule(_, _) => k
    case CreateSet(name, family) =>
      if name in k.sets then k else k.(sets := k.sets[name := IpSet(family, {})])
    case AddEntry(name, entry) =>
      k.(sets := k.sets[name := k.sets[name].(entries := k.sets[name].entries + {entry})])
    case FlushSet(name) => k.(sets := k.sets[name := k.sets[name].(entries := {})])
    case SwapSets(name, other) => k.(sets := k.sets[name := k.sets[other]][other := k.sets[name]])
    case DestroySet(name) => k.(sets := k.sets - {name})
    case AddIpRule(family, ipRule) => WithIpRules(k, family, IpRules(k, family) + multiset{ipRule})
    case DelIpRule(family, ipRule) => WithIpRules(k, family, IpRules(k, family) - multiset{ipRule})
  }

  /** Deletions are reliable: they fail only when nothing is left to delete. */
  predicate Reliable(cmd: Cmd) {
    cmd.DeleteRule? || cmd.DelIpRule?
  }

  datatype Step = Step(before: Kernel, cmd: Cmd, ok: bool, after: Kernel)

  /** One command as the kernel may answer it. */
  predicate Ran(s: Step) {
    && (s.ok ==> Accepts(s.before, s.cmd) && s.after == Apply(s.before, s.cmd))
    && (!s.ok ==> s.after == s.before)
    && (Reliable(s.cmd) && Accepts(s.before, s.cmd) ==> s.ok)
  }

  /** The kernel after the first `n` commands of a log that began in `start`. */
  ghost function StateAt(start: Kernel, log: seq<Step>, n: nat): Kernel
    requires n <= |log|
  {
    if n == 0 then start else log[n - 1].after
  }

  /** The log is one uninterrupted run from `start` to `k`. */
  ghost predicate Chained(start: Kernel, log: seq<Step>, k: Kernel) {
    (forall i :: 0 <= i < |log| ==> Ran(log[i]) && log[i].before == StateAt(start, log, i))
    && k == StateAt(start, log, |log|)
  }

  lemma ChainedAt(start: Kernel, log: seq<Step>, k: Kernel, i: nat)
    requires Chained(start, log, k) && i < |log|
    ensures Ran(log[i]) && log[i].before == StateAt(start, log, i) && log[i].after == StateAt(start, log, i + 1)
  {
  }

  /** The states at which a log and a longer one end. */
  lemma LogStates(start: Kernel, log0: seq<Step>, k0: Kernel, log: seq<Step>, k: Kernel)
    requires Chained(start, log0, k0) && Chained(start, log, k) && log0 <= log
    ensures StateAt(start, log, |log0|) == k0 && StateAt(start, log, |log|) == k
  {
    hide Ran;
  }

  lemma ChainedAppend(start: Kernel, log: seq<Step>, s: Step)
    requires Chained(start, log, s.before) && Ran(s)
    ensures Chained(start, log + [s], s.after)
  {
    hide Ran;
    var log' := log + [s];
    forall i | 0 <= i < |log'|
      ensures Ran(log'[i]) && log'[i].before == StateAt(start, log', i)
    {
      assert i < |log| ==> log'[i] == log[i];
      assert i > 0 ==> log'[i - 1] == log[i - 1];
    }
  }

  /** `k` and `k'` hold the same chain under `id`. */
  predicate SameChain(k: Kernel, k': Kernel, id: ChainId) {
    (id in k.chains <==> id in k'.chains) && (id in k.chains ==> k.chains[id] == k'.chains[id])
  }

  predicate SameSetsAndRules(k: Kernel, k': Kernel) {
    k.sets == k'.sets && k.ipRules4 == k'.ipRules4 && k.ipRules6 == k'.ipRules6
  }
}
