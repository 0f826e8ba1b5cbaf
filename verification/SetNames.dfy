/** Names of the ipsets of a rule and of the staging set that replaces one atomically. */
module SetNames {
  import opened Text
  import opened Netfilter

  const SET_PREFIX := "svpn_"
  const MAX_NAME := 31

  datatype SetKind = Source | ExcludedSource | Destination | ExcludedDestination

  // ---- FNV-1a, 32 bits, in hexadecimal --------------------------------------

  function Fnv(s: string, h: bv32): bv32 {
    if s == [] then h else Fnv(s[1..], (h ^ ((s[0] as int % 256) as bv32)) * 16777619)
  }

  function HexChar(d: nat): (c: char)
    requires d < 16
    ensures NameChar(c) && c != '_'
  {
    if d < 10 then (d + '0' as int) as char else (d - 10 + 'a' as int) as char
  }

  function HexDigits(n: nat, width: nat): (s: string)
    ensures |s| == width && NameText(s) && NoChar(s, '_')
  {
    if width == 0 then [] else HexDigits(n / 16, width - 1) + [HexChar(n % 16)]
  }

  function Hash8(seed: string): (s: string)
    ensures |s| == 8 && NameText(s) && NoChar(s, '_')
  {
    HexDigits(Fnv(seed, 2166136261) as nat, 8)
  }

  // ---- Names ----------------------------------------------------------------

  /** Characters that the ipset name pattern allows. */
  predicate NameChar(c: char) {
    ('A' <= c <= 'Z') || ('a' <= c <= 'z') || ('0' <= c <= '9') || c == '_' || c == '.' || c == ':' || c == '-'
  }

  predicate NameText(s: string) {
    forall i :: 0 <= i < |s| ==> NameChar(s[i])
  }

  predicate ValidName(s: string) {
    0 < |s| <= MAX_NAME && NameText(s)
  }

  predicate IsAlnum(c: char) {
    ('a' <= c <= 'z') || ('0' <= c <= '9')
  }

  /** Every run of other characters becomes one underscore. */
  function Scan(input: string, lastUnderscore: bool): (r: string)
    ensures NameText(r)
  {
    if input == [] then []
    else if IsAlnum(input[0]) then [input[0]] + Scan(input[1..], false)
    else if lastUnderscore then Scan(input[1..], true)
    else ['_'] + Scan(input[1..], true)
  }

  lemma ScanStep(rest: string, lastUnderscore: bool, builder: string)
    requires rest != []
    ensures builder + Scan(rest, lastUnderscore) ==
      if IsAlnum(rest[0]) then (builder + [rest[0]]) + Scan(rest[1..], false)
      else if lastUnderscore then builder + Scan(rest[1..], true)
      else (builder + ['_']) + Scan(rest[1..], true)
  {
  }

  function TrimUnderscores(s: string): (r: string)
    ensures NameText(s) ==> NameText(r)
  {
    if s != [] && s[0] == '_' then TrimUnderscores(s[1..])
    else if s != [] && s[|s| - 1] == '_' then TrimUnderscores(s[..|s| - 1])
    else s
  }

  function SetBase(groupName: string): (base: string)
    ensures base != [] && NameText(base)
  {
    var input := ToLower(TrimSpace(groupName));
    var base := TrimUnderscores(Scan(input, false));
    if input == [] || base == [] then "group" else base
  }

  method NormalizeSetBase(groupName: string) returns (base: string)
    ensures base == SetBase(groupName)
  {
    var input := ToLower(TrimSpace(groupName));
    if input == "" {
      return "group";
    }
    var builder, lastUnderscore := "", false;
    for i := 0 to |input|
      invariant builder + Scan(input[i..], lastUnderscore) == Scan(input, false)
    {
      ScanStep(input[i..], lastUnderscore, builder);
      assert input[i..][0] == input[i] && input[i..][1..] == input[i + 1..];
      if IsAlnum(input[i]) {
        builder := builder + [input[i]];
        lastUnderscore := false;
      } else if !lastUnderscore {
        builder := builder + ['_'];
        lastUnderscore := true;
      }
    }
    assert builder == Scan(input, false) by {
      assert builder + [] == builder;
    }
    base := TrimUnderscores(builder);
    if base == "" {
      base := "group";
    }
  }

  function KindCode(kind: SetKind): string {
    match kind
    case Source => "s"
    case ExcludedSource => "xs"
    case Destination => "d"
    case ExcludedDestination => "xd"
  }

  function SeedCode(kind: SetKind): string {
    match kind
    case Source => ":src"
    case ExcludedSource => ":xsrc"
    case Destination => ":dst"
    case ExcludedDestination => ":xdst"
  }

  function FamilyCode(family: Family): string {
    if family.V4? then "4" else "6"
  }

  function Suffix(ruleIndex: nat, kind: SetKind, family: Family): string {
    "r" + Itoa(ruleIndex + 1) + KindCode(kind) + FamilyCode(family)
  }

  function CompactSetName(base: string, suffix: string, seed: string): string {
    var name := SET_PREFIX + base + "_" + suffix;
    if |name| <= MAX_NAME then name
    else
      var room := MAX_NAME - |SET_PREFIX| - |suffix| - 8 - 2;
      var maxBase := if room < 3 then 3 else room;
      var shortBase := if |base| > maxBase then base[..maxBase] else base;
      SET_PREFIX + shortBase + "_" + Hash8(seed) + "_" + suffix
  }

  /** The name of one ipset of rule `ruleIndex` in group `groupName`. */
  function SetName(groupName: string, ruleIndex: nat, kind: SetKind, family: Family): string {
    var seed := ToLower(groupName + ":" + Itoa(ruleIndex)) + SeedCode(kind) + FamilyCode(family);
    CompactSetName(SetBase(groupName), Suffix(ruleIndex, kind, family), seed)
  }

  function StagedName(name: string): string {
    var candidate := name + "_n";
    if |candidate| <= MAX_NAME then candidate
    else
      var maxBase := MAX_NAME - 2 - 8 - 1;
      (if |name| > maxBase then name[..maxBase] else name) + "_" + Hash8(name) + "_n"
  }

  // ---- Bounds ---------------------------------------------------------------

  lemma NameTextConcat(a: string, b: string)
    requires NameText(a) && NameText(b)
    ensures NameText(a + b)
  {
  }

  lemma SuffixText(ruleIndex: nat, kind: SetKind, family: Family)
    ensures NameText(Suffix(ruleIndex, kind, family)) && NoChar(Suffix(ruleIndex, kind, family), '_')
  {
    var d := Itoa(ruleIndex + 1);
    assert forall i :: 0 <= i < |d| ==> IsDigit(d[i]);
  }

  lemma ShortNameIsValid(prefix: string, base: string, suffix: string)
    requires NameText(prefix) && NameText(base) && NameText(suffix) && |prefix + base + "_" + suffix| <= MAX_NAME
    ensures ValidName(prefix + base + "_" + suffix) && prefix <= prefix + base + "_" + suffix
  {
  }

  lemma LongNameIsValid(prefix: string, short: string, hash: string, suffix: string)
    requires NameText(prefix) && NameText(short) && NameText(hash) && NameText(suffix)
    requires |prefix| + |short| + |hash| + |suffix| + 2 <= MAX_NAME
    ensures ValidName(prefix + short + "_" + hash + "_" + suffix)
    ensures prefix <= prefix + short + "_" + hash + "_" + suffix
  {
    NameTextConcat(prefix, short);
    NameTextConcat(prefix + short, "_");
    NameTextConcat(prefix + short + "_", hash);
    NameTextConcat(prefix + short + "_" + hash, "_");
    NameTextConcat(prefix + short + "_" + hash + "_", suffix);
  }

  lemma CompactNameIsValid(base: string, suffix: string, seed: string)
    requires base != [] && NameText(base) && NameText(suffix) && 0 < |suffix| <= 13
    ensures ValidName(CompactSetName(base, suffix, seed)) && SET_PREFIX <= CompactSetName(base, suffix, seed)
  {
    assert NameText(SET_PREFIX);
    if |SET_PREFIX + base + "_" + suffix| <= MAX_NAME {
      ShortNameIsValid(SET_PREFIX, base, suffix);
    } else {
      var maxBase := 16 - |suffix|;
      LongNameIsValid(SET_PREFIX, if |base| > maxBase then base[..maxBase] else base, Hash8(seed), suffix);
    }
  }

  /** Every name is valid for ipset and has at most 31 characters. */
  lemma SetNameIsValid(groupName: string, ruleIndex: nat, kind: SetKind, family: Family)
    requires ruleIndex < 999_999_999
    ensures ValidName(SetName(groupName, ruleIndex, kind, family))
    ensures SET_PREFIX <= SetName(groupName, ruleIndex, kind, family)
  {
    SuffixText(ruleIndex, kind, family);
    assert Pow10(9) == 1_000_000_000;
    ItoaLength(ruleIndex + 1, 9);
    CompactNameIsValid(SetBase(groupName), Suffix(ruleIndex, kind, family),
                       ToLower(groupName + ":" + Itoa(ruleIndex)) + SeedCode(kind) + FamilyCode(family));
  }

  lemma LastSeparator(pre: string, suffix: string, pre': string, suffix': string)
    requires NoChar(suffix, '_') && NoChar(suffix', '_')
    requires pre + "_" + suffix == pre' + "_" + suffix'
    ensures suffix == suffix'
  {
    var s := pre + "_" + suffix;
    assert s[|pre|] == '_' && s[|pre'|] == '_';
    assert forall i :: |pre| < i < |s| ==> s[i] == suffix[i - |pre| - 1];
    assert forall i :: |pre'| < i < |s| ==> s[i] == suffix'[i - |pre'| - 1];
    assert |pre| == |pre'|;
    assert s[|pre| + 1..] == suffix && s[|pre'| + 1..] == suffix';
  }

  lemma NameEndsInSuffix(groupName: string, ruleIndex: nat, kind: SetKind, family: Family) returns (pre: string)
    ensures SetName(groupName, ruleIndex, kind, family) == pre + "_" + Suffix(ruleIndex, kind, family)
  {
    var base, suffix := SetBase(groupName), Suffix(ruleIndex, kind, family);
    if |SET_PREFIX + base + "_" + suffix| <= MAX_NAME {
      pre := SET_PREFIX + base;
    } else {
      var room := MAX_NAME - |SET_PREFIX| - |suffix| - 8 - 2;
      var maxBase := if room < 3 then 3 else room;
      var shortBase := if |base| > maxBase then base[..maxBase] else base;
      var seed := ToLower(groupName + ":" + Itoa(ruleIndex)) + SeedCode(kind) + FamilyCode(family);
      pre := SET_PREFIX + shortBase + "_" + Hash8(seed);
    }
  }

  lemma DigitsThenCode(d: string, c: string, d': string, c': string)
    requires AllDigits(d) && AllDigits(d') && c != [] && c' != [] && !IsDigit(c[0]) && !IsDigit(c'[0])
    requires d + c == d' + c'
    ensures d == d' && c == c'
  {
    var s := d + c;
    assert forall i :: 0 <= i < |d| ==> s[i] == d[i];
    assert forall i :: 0 <= i < |d'| ==> s[i] == d'[i];
    assert s[|d|] == c[0] && s[|d'|] == c'[0];
    assert |d| == |d'|;
    assert s[..|d|] == d && s[..|d'|] == d' && s[|d|..] == c && s[|d'|..] == c';
  }

  function Code(kind: SetKind, family: Family): string {
    KindCode(kind) + FamilyCode(family)
  }

  lemma CodeInjective(kind: SetKind, family: Family, kind': SetKind, family': Family)
    requires Code(kind, family) == Code(kind', family')
    ensures kind == kind' && family == family'
  {
    var c, c' := Code(kind, family), Code(kind', family');
    assert c[|c| - 1] == FamilyCode(family)[0] && c'[|c'| - 1] == FamilyCode(family')[0];
    assert c[0] == KindCode(kind)[0] && c'[0] == KindCode(kind')[0];
    assert |c| == |KindCode(kind)| + 1 && |c'| == |KindCode(kind')| + 1;
    if |c| == 3 {
      assert c[1] == KindCode(kind)[1] && c'[1] == KindCode(kind')[1];
    }
  }

  lemma SuffixTail(i: nat, kind: SetKind, family: Family)
    ensures Suffix(i, kind, family)[1..] == Itoa(i + 1) + Code(kind, family)
    ensures Code(kind, family) != [] && !IsDigit(Code(kind, family)[0])
  {
    var d, a, b := Itoa(i + 1), KindCode(kind), FamilyCode(family);
    assert "r" + d + a + b == "r" + (d + (a + b));
    assert (a + b)[0] == a[0];
  }

  lemma SuffixInjective(i: nat, kind: SetKind, family: Family, i': nat, kind': SetKind, family': Family)
    requires Suffix(i, kind, family) == Suffix(i', kind', family')
    ensures i == i' && kind == kind' && family == family'
  {
    SuffixTail(i, kind, family);
    SuffixTail(i', kind', family');
    DigitsThenCode(Itoa(i + 1), Code(kind, family), Itoa(i' + 1), Code(kind', family'));
    ItoaInjective(i + 1, i' + 1);
    CodeInjective(kind, family, kind', family');
  }

  /**
    Two rules, in the same group or in different ones, share a set name only for
    the same rule index, the same kind of set and the same family. In particular
    the names within one group are injective, and a source set never shares its
    name with a destination set of any group.
   */
  lemma SetNameInjective(g: string, i: nat, kind: SetKind, family: Family,
                         g': string, i': nat, kind': SetKind, family': Family)
    requires SetName(g, i, kind, family) == SetName(g', i', kind', family')
    ensures i == i' && kind == kind' && family == family'
  {
    var pre := NameEndsInSuffix(g, i, kind, family);
    var pre' := NameEndsInSuffix(g', i', kind', family');
    SuffixText(i, kind, family);
    SuffixText(i', kind', family');
    LastSeparator(pre, Suffix(i, kind, family), pre', Suffix(i', kind', family'));
    SuffixInjective(i, kind, family, i', kind', family');
  }

  lemma StagedNameShape(name: string) returns (pre: string)
    ensures StagedName(name) == pre + "_n" && |pre| <= MAX_NAME - 2
    ensures NameText(name) ==> NameText(pre)
    ensures SET_PREFIX <= name ==> SET_PREFIX <= pre
  {
    if |name| + 2 <= MAX_NAME {
      pre := name;
    } else {
      pre := name[..20] + "_" + Hash8(name);
      if NameText(name) {
        NameTextConcat(name[..20], "_");
        NameTextConcat(name[..20] + "_", Hash8(name));
      }
      assert StagedName(name) == pre + "_n";
      assert SET_PREFIX <= name ==> SET_PREFIX <= name[..20];
    }
  }

  lemma SetNameHasPrefix(g: string, i: nat, kind: SetKind, family: Family)
    ensures SET_PREFIX <= SetName(g, i, kind, family)
  {
    hide Hash8, SetBase, Suffix, ToLower, SeedCode, FamilyCode;
  }

  lemma SetNameEndsInFamily(g: string, i: nat, kind: SetKind, family: Family)
    ensures SetName(g, i, kind, family) != []
    ensures var name := SetName(g, i, kind, family); name[|name| - 1] == FamilyCode(family)[0]
  {
    var pre := NameEndsInSuffix(g, i, kind, family);
  }

  /** The staging set of any set has a name that ipset accepts, and no rule owns that name. */
  lemma StagedNameIsFresh(name: string, g: string, i: nat, kind: SetKind, family: Family)
    ensures |StagedName(name)| <= MAX_NAME
    ensures NameText(name) ==> ValidName(StagedName(name))
    ensures SET_PREFIX <= name ==> SET_PREFIX <= StagedName(name)
    ensures StagedName(name) != SetName(g, i, kind, family)
  {
    var pre := StagedNameShape(name);
    var staged := StagedName(name);
    assert staged[|staged| - 1] == 'n';
    if NameText(name) {
      NameTextConcat(pre, "_n");
    }
    SetNameEndsInFamily(g, i, kind, family);
  }
}
