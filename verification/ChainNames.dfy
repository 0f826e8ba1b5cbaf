/** The text of the managed chain names: different chains have different names. */
module ChainNames {
  import opened Text
  import opened Netfilter
  import opened SetNames
  import opened Generations

  function ParentText(kind: Kind): string {
    match kind
    case MarkKind => "PREROUTING"
    case MssKind => "FORWARD"
    case NatKind => "POSTROUTING"
  }

  function RootText(kind: Kind): string {
    match kind
    case MarkKind => "SVPN_MARK"
    case MssKind => "SVPN_MSS"
    case NatKind => "SVPN_NAT"
  }

  function VariantText(v: Variant): string {
    if v.A? then "A" else "B"
  }

  /** At least `width` digits, filled up with zeros on the left. */
  function Padded(n: nat, width: nat): (s: string)
    ensures AllDigits(s)
  {
    Zeros(width - |Itoa(n)|) + Itoa(n)
  }

  function Zeros(n: int): (s: string)
    ensures AllDigits(s)
    ensures forall i :: 0 <= i < |s| ==> s[i] == '0'
  {
    if n <= 0 then "" else Zeros(n - 1) + "0"
  }

  function RuleChainText(v: Variant, index: nat, family: Family): string {
    RulePrefix(v) + Padded(index + 1, 3) + "_" + FamilyCode(family)
  }

  function ChainText(c: Chain): string {
    match c
    case Parent(kind) => ParentText(kind)
    case Root(kind) => RootText(kind)
    case Gen(kind, v) => RootText(kind) + "_" + VariantText(v)
    case RuleChain(v, index, family) => RuleChainText(v, index, family)
    case Foreign(name) => name
  }

  lemma {:induction false} LeadingZeros(z: string, s: string)
    requires (forall i :: 0 <= i < |z| ==> z[i] == '0') && AllDigits(s) && AllDigits(z) && AllDigits(z + s)
    ensures DigitsValue(z + s) == DigitsValue(s)
    decreases |z| + |s|
  {
    if s == [] {
      assert z + s == z;
      if z != [] {
        assert z[..|z| - 1] + [] == z[..|z| - 1];
        LeadingZeros(z[..|z| - 1], []);
      }
    } else {
      var t := s[..|s| - 1];
      assert (z + s)[..|z + s| - 1] == z + t;
      LeadingZeros(z, t);
    }
  }

  lemma PaddedInjective(m: nat, n: nat, width: nat)
    requires Padded(m, width) == Padded(n, width)
    ensures m == n
  {
    LeadingZeros(Zeros(width - |Itoa(m)|), Itoa(m));
    LeadingZeros(Zeros(width - |Itoa(n)|), Itoa(n));
    ItoaValue(m);
    ItoaValue(n);
  }

  /** The middle of three parts of known outer lengths. */
  lemma Middle(a: string, b: string, c: string)
    ensures (a + b + c)[..|a|] == a && (a + b + c)[|a|..|a| + |b|] == b && (a + b + c)[|a| + |b|..] == c
  {
  }

  /** A rule chain's name determines its generation, its binding and its family. */
  lemma RuleChainTextInjective(v: Variant, i: nat, f: Family, w: Variant, j: nat, g: Family)
    requires RuleChainText(v, i, f) == RuleChainText(w, j, g)
    ensures v == w && i == j && f == g
  {
    hide Padded;
    var p, q := Padded(i + 1, 3), Padded(j + 1, 3);
    var x, y := "_" + FamilyCode(f), "_" + FamilyCode(g);
    assert RuleChainText(v, i, f) == RulePrefix(v) + p + x;
    assert RuleChainText(w, j, g) == RulePrefix(w) + q + y;
    Middle(RulePrefix(v), p, x);
    Middle(RulePrefix(w), q, y);
    assert |p| == |q|;
    PaddedInjective(i + 1, j + 1, 3);
    assert RulePrefix(v)[4] == RulePrefix(w)[4];
    assert x[1] == y[1];
  }

  /** The test by which the cleanup of a generation picks chains picks exactly its rule chains. */
  lemma PrefixPicksRuleChains(c: Chain, w: Variant)
    ensures RulePrefix(w) <= ChainText(c) <==> RuleChainOf(w, c)
  {
    var p, s := RulePrefix(w), ChainText(c);
    if c.RuleChain? {
      assert s[4] == RulePrefix(c.variant)[4];
    } else if c.Gen? {
      assert s[4] == RootText(c.kind)[4] == '_';
    } else if !c.Foreign? {
      assert c.Parent? ==> s[0] != p[0];
      assert c.Root? ==> s[4] == '_';
    }
  }

  /** Managed chains never share a name. */
  lemma ChainTextInjective(c: Chain, d: Chain)
    requires !c.Foreign? && !d.Foreign? && ChainText(c) == ChainText(d)
    ensures c == d
  {
    if c.RuleChain? && d.RuleChain? {
      RuleChainTextInjective(c.variant, c.index, c.family, d.variant, d.index, d.family);
    } else if c.RuleChain? {
      PrefixPicksRuleChains(c, c.variant);
      PrefixPicksRuleChains(d, c.variant);
    } else if d.RuleChain? {
      PrefixPicksRuleChains(c, d.variant);
      PrefixPicksRuleChains(d, d.variant);
    } else {
      FixedNames(c, d);
    }
  }

  lemma FixedNames(c: Chain, d: Chain)
    requires !c.Foreign? && !d.Foreign? && !c.RuleChain? && !d.RuleChain? && ChainText(c) == ChainText(d)
    ensures c == d
  {
    var s := ChainText(c);
    if c.Gen? || d.Gen? {
      assert c.Gen? ==> |s| >= 10 && s[0] == 'S' && s[5] == RootText(c.kind)[5] && s[6] == RootText(c.kind)[6] && s[|s| - 1] == VariantText(c.variant)[0];
      assert d.Gen? ==> |s| >= 10 && s[0] == 'S' && s[5] == RootText(d.kind)[5] && s[6] == RootText(d.kind)[6] && s[|s| - 1] == VariantText(d.variant)[0];
    } else {
      assert s[0] == ChainText(d)[0] && s[5] == ChainText(d)[5] && s[6] == ChainText(d)[6];
    }
  }
}
