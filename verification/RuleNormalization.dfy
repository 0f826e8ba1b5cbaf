/** Normalization of a routing rule, and what a second pass changes. */
module RuleNormalization {
  import opened Text
  import opened PortSelectors
  import opened SelectorLines

  /** The selectors that are lists of strings. */
  datatype Field =
    | SourceInterfaces | SourceCidrs | ExcludedSourceCidrs | SourceMacs | DestinationCidrs | ExcludedDestinationCidrs
    | DestinationAsns | ExcludedDestinationAsns | Domains | WildcardDomains

  const FIELDS := {SourceInterfaces, SourceCidrs, ExcludedSourceCidrs, SourceMacs, DestinationCidrs, ExcludedDestinationCidrs,
                   DestinationAsns, ExcludedDestinationAsns, Domains, WildcardDomains}

  function KindOf(f: Field): FieldKind {
    match f
    case SourceInterfaces => InterfaceField
    case SourceMacs => MacField
    case DestinationAsns => AsnField
    case ExcludedDestinationAsns => AsnField
    case Domains => DomainField
    case WildcardDomains => WildcardField
    case _ => CidrField
  }

  type Selectors = map<Field, seq<string>>

  function Get(s: Selectors, f: Field): seq<string> {
    if f in s then s[f] else []
  }

  datatype RawSelectors = RawSelectors(lines: Selectors, destinationPorts: seq<string>, excludedDestinationPorts: seq<string>)

  datatype Rule = Rule(
    id: int, name: string, selectors: Selectors,
    destinationPorts: seq<PortSelector>, excludedDestinationPorts: seq<PortSelector>,
    excludeMulticast: Option<bool>, raw: Option<RawSelectors>)

  const NO_LINES := RawSelectors(map[], [], [])

  /** The user's lines without carriage returns, or else the values as lines. */
  function FieldLines(raw: seq<string>, values: seq<string>): seq<string> {
    if raw != [] then StripAll(raw) else Cloned(values)
  }

  function PortFieldLines(raw: seq<string>, ports: seq<PortSelector>): seq<string> {
    if raw != [] then StripAll(raw) else PortLines(ports)
  }

  function HydratedLines(l: Selectors, v: Selectors): Selectors {
    map f | f in FIELDS :: FieldLines(Get(l, f), Get(v, f))
  }

  function Hydrated(raw: RawSelectors, rule: Rule): RawSelectors {
    RawSelectors(
      HydratedLines(raw.lines, rule.selectors),
      PortFieldLines(raw.destinationPorts, rule.destinationPorts),
      PortFieldLines(raw.excludedDestinationPorts, rule.excludedDestinationPorts))
  }

  function OrValues(lines: seq<string>, values: seq<string>): seq<string> {
    if lines == [] then Cloned(values) else lines
  }

  function OrPorts(lines: seq<string>, ports: seq<PortSelector>): seq<string> {
    if lines == [] then PortLines(ports) else lines
  }

  function FinalLines(l: Selectors, v: Selectors): Selectors {
    map f | f in FIELDS :: OrValues(Get(l, f), Get(v, f))
  }

  function Finalized(raw: RawSelectors, rule: Rule): RawSelectors {
    RawSelectors(
      FinalLines(raw.lines, rule.selectors),
      OrPorts(raw.destinationPorts, rule.destinationPorts),
      OrPorts(raw.excludedDestinationPorts, rule.excludedDestinationPorts))
  }

  function FieldValues(ps: Parsers, kind: FieldKind, lines: seq<string>): Option<seq<string>> {
    NormalizedList(ps, kind, SelectorValues(lines))
  }

  function NormalizedSelectors(ps: Parsers, l: Selectors): Option<Selectors> {
    if exists f :: f in FIELDS && FieldValues(ps, KindOf(f), Get(l, f)).None? then None
    else Some(map f | f in FIELDS :: FieldValues(ps, KindOf(f), Get(l, f)).value)
  }

  /** Given ports win over the lines. */
  function PortValues(ports: seq<PortSelector>, lines: seq<string>): Option<seq<PortSelector>> {
    var chosen := if ports == [] then ParsedPorts(SelectorValues(lines)) else Some(ports);
    if chosen.None? then None else NormalizedPorts(chosen.value)
  }

  function RuleName(name: string, index: nat): string {
    var t := TrimSpace(name);
    if t == "" then "Rule " + Itoa(index + 1) else t
  }

  predicate HasSelectors(rule: Rule) {
    (exists f :: f in FIELDS && Get(rule.selectors, f) != []) || rule.destinationPorts != [] || rule.excludedDestinationPorts != []
  }

  predicate HasAnyLine(raw: RawSelectors) {
    || (exists f :: f in FIELDS && HasLine(Get(raw.lines, f)))
    || HasLine(raw.destinationPorts) || HasLine(raw.excludedDestinationPorts)
  }

  function RawOf(rule: Rule): RawSelectors {
    if rule.raw.Some? then rule.raw.value else NO_LINES
  }

  function NormalizeRule(ps: Parsers, input: Rule, index: nat): Option<Rule> {
    var lines := Hydrated(RawOf(input), input);
    var selectors := NormalizedSelectors(ps, lines.lines);
    var ports := PortValues(input.destinationPorts, lines.destinationPorts);
    var xports := PortValues(input.excludedDestinationPorts, lines.excludedDestinationPorts);
    if selectors.None? || ports.None? || xports.None? then None
    else
      var multicast := if input.excludeMulticast.Some? then input.excludeMulticast else Some(true);
      var rule := Rule(input.id, RuleName(input.name, index), selectors.value, ports.value, xports.value, multicast, None);
      var final := Finalized(lines, rule);
      if !HasSelectors(rule) && !HasAnyLine(final) then None else Some(rule.(raw := Some(final)))
  }

  // ---- One field ------------------------------------------------------------

  /** Without lines there are no values. */
  lemma FieldIsFinal(ps: Parsers, kind: FieldKind, l: seq<string>)
    requires FieldValues(ps, kind, l).Some?
    ensures var x := FieldValues(ps, kind, l).value;
      OrValues(l, x) == l && OrValues(StripAll(l), x) == StripAll(l) && FieldLines(l, x) == StripAll(l)
  {
    EmptyField(ps, kind);
    hide FieldValues;
    if l == [] {
      assert StripAll(l) == [];
    }
  }

  lemma FieldKeepsValues(ps: Parsers, kind: FieldKind, l: seq<string>)
    ensures FieldValues(ps, kind, StripAll(l)) == FieldValues(ps, kind, l)
  {
    StripKeepsValues(l);
  }

  lemma FieldUnchanged(raw: seq<string>, values: seq<string>)
    ensures StripAll(FieldLines(raw, values)) == FieldLines(raw, values) <==> FieldReturnFree(raw, values)
  {
    StripAllFixed(FieldLines(raw, values));
    StripAllFixed(raw);
  }

  lemma EmptyField(ps: Parsers, kind: FieldKind)
    ensures FieldValues(ps, kind, []) == Some([])
  {
  }

  // ---- Port fields ----------------------------------------------------------

  lemma LinePlain(p: PortSelector)
    requires IsCanonical(p)
    ensures PortLine(p).Some? && NoChar(PortLine(p).value, '\r')
  {
    hide TrimSpace, ToLower, Itoa;
    ProtocolText(p.protocol);
    TidyIsFixed(p.protocol);
    NumberHasNo(p.start, '\r');
    NumberHasNo(p.end, '\r');
  }

  lemma {:induction false} LinesPlain(ports: seq<PortSelector>)
    requires AllCanonical(ports)
    ensures NoReturns(PortLines(ports)) && |PortLines(ports)| == |ports|
  {
    hide IsCanonical, PortLine, NoChar;
    if ports != [] {
      LinesPlain(ports[..|ports| - 1]);
      LinePlain(ports[|ports| - 1]);
    }
  }

  /** Lines printed from ports that are accepted have no carriage return. */
  lemma AcceptedLinesPlain(raw: seq<PortSelector>)
    requires NormalizedPorts(raw).Some?
    ensures NoReturns(PortLines(raw))
  {
    hide Canonical, IsCanonical, PortLine, NoReturns;
    forall i | 0 <= i < |raw|
      ensures Canonical(raw[i]).Some? && IsCanonical(Canonical(raw[i]).value)
    {
      AcceptedAreValid(raw, i);
      CanonicalIsCanonical(raw[i]);
    }
    CanonicalAllSame(raw);
    LinesPlain(CanonicalAll(raw));
  }

  lemma PortFieldSettles(raw: seq<string>, ports: seq<PortSelector>)
    requires PortValues(ports, PortFieldLines(raw, ports)).Some?
    ensures
      var l := PortFieldLines(raw, ports);
      var x := PortValues(ports, l).value;
      var f := OrPorts(l, x);
      PortFieldLines(f, x) == f && PortValues(x, f) == Some(x) && OrPorts(f, x) == f
  {
    hide NormalizedPorts, ParsedPorts, PortLines, NoReturns, SelectorValues, AllCanonical;
    var l := PortFieldLines(raw, ports);
    var chosen := if ports == [] then ParsedPorts(SelectorValues(l)) else Some(ports);
    var x := NormalizedPorts(chosen.value).value;
    NormalizedShape(chosen.value);
    NormalizingTwice(chosen.value);
    LinesPlain(x);
    StripAllFixed(raw);
    EmptyPorts();
    if ports != [] {
      AcceptedLinesPlain(ports);
    }
    StripAllFixed(OrPorts(l, x));
  }

  lemma EmptyPorts()
    ensures PortLines([]) == [] && NormalizedPorts([]) == Some([]) && StripAll([]) == []
  {
  }

  // ---- The second pass ------------------------------------------------------

  function Stripped(l: Selectors): Selectors {
    map f | f in FIELDS :: StripAll(Get(l, f))
  }

  /** A value becomes a line only when the user wrote none. */
  ghost predicate FieldReturnFree(raw: seq<string>, values: seq<string>) {
    raw != [] || NoReturns(Cloned(values))
  }

  ghost predicate ReturnFree(rule: Rule) {
    forall f :: f in FIELDS ==> FieldReturnFree(Get(RawOf(rule).lines, f), Get(rule.selectors, f))
  }

  lemma SelectorsAreFinal(ps: Parsers, l: Selectors)
    requires l.Keys == FIELDS && NormalizedSelectors(ps, l).Some?
    ensures var x := NormalizedSelectors(ps, l).value;
      FinalLines(l, x) == l && FinalLines(Stripped(l), x) == Stripped(l) && HydratedLines(l, x) == Stripped(l)
  {
    hide FieldValues, FieldLines, OrValues, StripAll, FIELDS, KindOf;
    forall f | f in FIELDS
      ensures FieldValues(ps, KindOf(f), l[f]).Some?
      ensures var x := FieldValues(ps, KindOf(f), l[f]).value;
        OrValues(l[f], x) == l[f] && OrValues(StripAll(l[f]), x) == StripAll(l[f]) && FieldLines(l[f], x) == StripAll(l[f])
    {
      assert Get(l, f) == l[f];
      FieldIsFinal(ps, KindOf(f), l[f]);
    }
  }

  lemma SelectorsKeepValues(ps: Parsers, l: Selectors)
    ensures NormalizedSelectors(ps, Stripped(l)) == NormalizedSelectors(ps, l)
  {
    hide FieldValues, StripAll, FIELDS, KindOf;
    forall f | f in FIELDS
      ensures FieldValues(ps, KindOf(f), Get(Stripped(l), f)) == FieldValues(ps, KindOf(f), Get(l, f))
    {
      FieldKeepsValues(ps, KindOf(f), Get(l, f));
    }
    if f :| f in FIELDS && FieldValues(ps, KindOf(f), Get(l, f)).None? {
      assert FieldValues(ps, KindOf(f), Get(Stripped(l), f)).None?;
    } else {
      assert NormalizedSelectors(ps, l).Some? && NormalizedSelectors(ps, Stripped(l)).Some?;
      assert NormalizedSelectors(ps, Stripped(l)).value == NormalizedSelectors(ps, l).value;
    }
  }

  lemma SelectorsUnchanged(rule: Rule)
    ensures
      var l := HydratedLines(RawOf(rule).lines, rule.selectors);
      Stripped(l) == l <==> ReturnFree(rule)
  {
    hide FieldLines, StripAll, FieldReturnFree, FIELDS;
    var l := HydratedLines(RawOf(rule).lines, rule.selectors);
    forall f | f in FIELDS
      ensures Stripped(l)[f] == l[f] <==> FieldReturnFree(Get(RawOf(rule).lines, f), Get(rule.selectors, f))
    {
      FieldUnchanged(Get(RawOf(rule).lines, f), Get(rule.selectors, f));
    }
  }

  lemma SelectorsKeepLines(l: Selectors, p: seq<string>, q: seq<string>)
    ensures HasAnyLine(RawSelectors(Stripped(l), p, q)) <==> HasAnyLine(RawSelectors(l, p, q))
  {
    hide StripAll, HasLine, FIELDS;
    forall f | f in FIELDS
      ensures HasLine(Get(Stripped(l), f)) <==> HasLine(Get(l, f))
    {
      StripKeepsLines(Get(l, f));
    }
  }

  lemma HydratedKeys(l: Selectors, v: Selectors)
    ensures HydratedLines(l, v).Keys == FIELDS
  {
  }

  lemma NameSettles(name: string, i: nat, j: nat)
    ensures RuleName(RuleName(name, i), j) == RuleName(name, i)
  {
    var n := Itoa(i + 1);
    assert IsDigit(n[|n| - 1]);
    var s := "Rule " + n;
    assert s[0] == 'R' && s[|s| - 1] == n[|n| - 1];
    TrimSpaceFixed(s);
    TrimSpaceIdempotent(name);
  }

  /**
    A second pass over a normalized rule succeeds, keeps the name, the selector
    values and the ports, and takes the carriage returns out of the lines.
   */
  lemma SecondPass(ps: Parsers, input: Rule, i: nat, j: nat)
    requires NormalizeRule(ps, input, i).Some?
    ensures
      var r := NormalizeRule(ps, input, i).value;
      NormalizeRule(ps, r, j) == Some(r.(raw := Some(r.raw.value.(lines := Stripped(r.raw.value.lines)))))
  {
    hide NormalizedSelectors, HydratedLines, FinalLines, PortValues, PortFieldLines, OrPorts, RuleName, HasAnyLine, Stripped, FIELDS;
    HydratedKeys(RawOf(input).lines, input.selectors);
    var lines := Hydrated(RawOf(input), input);
    SelectorsAreFinal(ps, lines.lines);
    SelectorsKeepValues(ps, lines.lines);
    PortFieldSettles(RawOf(input).destinationPorts, input.destinationPorts);
    PortFieldSettles(RawOf(input).excludedDestinationPorts, input.excludedDestinationPorts);
    NameSettles(input.name, i, j);
    var r := NormalizeRule(ps, input, i).value;
    SelectorsKeepLines(lines.lines, r.raw.value.destinationPorts, r.raw.value.excludedDestinationPorts);
    assert r.raw.value == RawSelectors(lines.lines, r.raw.value.destinationPorts, r.raw.value.excludedDestinationPorts);
  }

  /** A second pass changes nothing at all iff no value that serves as a line has a carriage return inside. */
  lemma SecondPassIsIdentity(ps: Parsers, input: Rule, i: nat, j: nat)
    requires NormalizeRule(ps, input, i).Some?
    ensures
      var r := NormalizeRule(ps, input, i).value;
      NormalizeRule(ps, r, j) == Some(r) <==> ReturnFree(input)
  {
    hide NormalizedSelectors, HydratedLines, FinalLines, PortValues, PortFieldLines, OrPorts, RuleName, HasAnyLine, Stripped, ReturnFree, FIELDS;
    HydratedKeys(RawOf(input).lines, input.selectors);
    SecondPass(ps, input, i, j);
    SelectorsAreFinal(ps, HydratedLines(RawOf(input).lines, input.selectors));
    SelectorsUnchanged(input);
  }

  // ---- A rule that a second pass changes ------------------------------------

  const WITH_RETURN := Rule(1, "r", map[SourceInterfaces := ["a\rb"]], [], [], None, None)

  lemma ReturnIsStripped()
    ensures StripReturns("a\rb") == "ab"
  {
    var s := "a\rb";
    assert s[..2] == "a\r" && "a\r"[..1] == "a" && "a"[..0] == "";
    assert StripReturns("a") == "a" && StripReturns("a\r") == "a";
  }

  lemma ReturnIsTrimmed()
    ensures TrimSpace("a\rb") == "a\rb" && TrimSpace("ab") == "ab" && IndexOf("ab", '#') == 2
  {
    TrimSpaceFixed("a\rb");
    TrimSpaceFixed("ab");
  }

  lemma ReturnInside()
    ensures FieldLines([], ["a\rb"]) == ["a\rb"] && SelectorValues(["a\rb"]) == ["ab"] && !NoReturns(Cloned(["a\rb"]))
  {
    hide TrimSpace, StripReturns, IndexOf;
    var s := "a\rb";
    ReturnIsStripped();
    ReturnIsTrimmed();
    assert ActiveValue(s) == Some("ab");
    hide ActiveValue;
    assert Cloned([s]) == [s];
    assert s[1] == '\r';
  }

  lemma SingleEntry(ps: Parsers, kind: FieldKind, entry: string, text: string)
    requires FormOf(ps, kind, entry) == Valid(text)
    ensures NormalizedList(ps, kind, [entry]) == Some([text])
  {
    hide FormOf;
    var r, none: seq<string> := [entry], [];
    assert r[..|r| - 1] == none && none + [text] == [text];
  }

  lemma InterfaceAb(ps: Parsers)
    ensures NormalizedList(ps, InterfaceField, ["ab"]) == Some(["ab"])
  {
    hide TrimSpace;
    ReturnIsTrimmed();
    var s := "ab";
    assert ToLower(s) == s;
    assert InterfaceChar('a') && InterfaceChar('b');
    assert InterfaceName(s);
    SingleEntry(ps, InterfaceField, s, s);
  }

  lemma SecondPassChangesLines(ps: Parsers)
    ensures NormalizeRule(ps, WITH_RETURN, 0).Some?
    ensures NormalizeRule(ps, NormalizeRule(ps, WITH_RETURN, 0).value, 0) != NormalizeRule(ps, WITH_RETURN, 0)
  {
    hide FieldLines, NormalizedList, HasAnyLine, RuleName, NoReturns, FinalLines, OrPorts, SelectorValues, TrimSpace;
    ReturnInside();
    InterfaceAb(ps);
    EmptyPorts();
    forall kind ensures FieldValues(ps, kind, FieldLines([], [])) == Some([]) {
      EmptyField(ps, kind);
      NoLines();
    }
    NoPorts();
    SecondPassIsIdentity(ps, WITH_RETURN, 0, 0);
  }

  lemma NoLines()
    ensures FieldLines([], []) == []
  {
  }

  lemma NoPorts()
    ensures PortValues([], PortFieldLines([], [])) == Some([])
  {
  }

  // ---- What a normalized rule says ------------------------------------------

  /** What a canonical value of a field looks like, and the entry it stands for. */
  ghost predicate ValueOf(ps: Parsers, f: Field, entry: string, x: string) {
    var t := TrimSpace(entry);
    t != "" &&
    match f
    case SourceInterfaces => x == ToLower(t) && InterfaceName(x)
    case SourceMacs => ps.mac(t).Some? && x == ToLower(ps.mac(t).value)
    case DestinationAsns => IsAsn(t, x)
    case ExcludedDestinationAsns => IsAsn(t, x)
    case Domains => ps.domain(ToLower(t)) && (if "*." <= ToLower(t) then ToLower(t) == "*." + x else ToLower(t) == x)
    case WildcardDomains => ps.domain(ToLower(t)) && "*." <= x && (ToLower(t) == x || (!("*." <= ToLower(t)) && "*." + ToLower(t) == x))
    case SourceCidrs => ps.cidr(t) == Some(x)
    case ExcludedSourceCidrs => ps.cidr(t) == Some(x)
    case DestinationCidrs => ps.cidr(t) == Some(x)
    case ExcludedDestinationCidrs => ps.cidr(t) == Some(x)
  }

  /** `x` is AS and a positive number, which the text gives with or without the letters. */
  ghost predicate IsAsn(t: string, x: string) {
    exists n: nat :: n > 0 && x == "AS" + Itoa(n) && (Atoi(ToUpper(t)) == Some(n) || exists d :: ToUpper(t) == "AS" + d && Atoi(d) == Some(n))
  }

  lemma AsnFormIs(ps: Parsers, entry: string, x: string)
    ensures FormOf(ps, AsnField, entry) == Valid(x) <==> IsAsn(TrimSpace(entry), x)
  {
    hide Itoa, TrimSpace;
    var u := ToUpper(TrimSpace(entry));
    var d := WithoutPrefix(u, "AS");
    hide ToUpper;
    assert "AS" <= u ==> u == "AS" + d;
    if "AS" <= u { LettersAreNoNumber(u); }
    hide Atoi;
    NoNumberInNothing();
    if FormOf(ps, AsnField, entry) == Valid(x) {
      var n: nat := Atoi(d).value;
    }
    if IsAsn(TrimSpace(entry), x) {
      var n: nat :| n > 0 && x == "AS" + Itoa(n) && (Atoi(u) == Some(n) || exists d' :: u == "AS" + d' && Atoi(d') == Some(n));
      if d' :| u == "AS" + d' && Atoi(d') == Some(n) { assert d' == d; }
      assert Atoi(d) == Some(n);
    }
  }

  lemma LettersAreNoNumber(u: string)
    requires "AS" <= u
    ensures Atoi(u).None?
  {
    assert u[0] == 'A';
  }

  lemma NoNumberInNothing()
    ensures Atoi("").None?
  {
  }

  lemma FormIsValue(ps: Parsers, f: Field, entry: string, x: string)
    ensures FormOf(ps, KindOf(f), entry) == Valid(x) <==> ValueOf(ps, f, entry, x)
  {
    hide TrimSpace, ToLower, ToUpper, Atoi, Itoa, IsAsn, InterfaceName, WithoutPrefix;
    var t := TrimSpace(entry);
    var s := ToLower(t);
    assert s == "" <==> t == "";
    if KindOf(f) == AsnField {
      AsnFormIs(ps, entry, x);
      EmptyIsNoAsn(x);
    } else if f == SourceInterfaces {
      NothingIsNoInterface();
    } else if f == Domains {
      WithoutStar(s, x);
    }
  }

  lemma EmptyIsNoAsn(x: string)
    ensures !IsAsn("", x)
  {
    assert ToUpper("") == "";
    NoNumberInNothing();
  }

  lemma NothingIsNoInterface()
    ensures !InterfaceName("")
  {
  }

  lemma WithoutStar(s: string, x: string)
    ensures WithoutPrefix(s, "*.") == x <==> if "*." <= s then s == "*." + x else s == x
  {
    if "*." <= s { assert s == "*." + s[2..]; }
  }

  /** The lines that are kept of a field: the user's without carriage returns, or else the values given, trimmed. */
  ghost predicate KeptLines(lines: seq<string>, user: seq<string>, values: seq<string>) {
    if user != [] then |lines| == |user| && forall i :: 0 <= i < |lines| ==> lines[i] == StripReturns(user[i])
    else |lines| == |values| && forall i :: 0 <= i < |lines| ==> lines[i] == TrimSpace(values[i])
  }

  /** Exactly the canonical forms of the entries of the lines, none of which is invalid. */
  ghost predicate ReadOff(ps: Parsers, f: Field, lines: seq<string>, values: seq<string>) {
    && (forall x :: x in values ==> exists e :: e in SelectorValues(lines) && ValueOf(ps, f, e, x))
    && (forall e :: e in SelectorValues(lines) ==> FormOf(ps, KindOf(f), e).Blank? || exists x :: x in values && ValueOf(ps, f, e, x))
  }

  /** The ports come from the ports given, or else from the lines. */
  ghost predicate PortsFrom(given: seq<PortSelector>, user: seq<string>, ports: seq<PortSelector>) {
    if given != [] then NormalizedPorts(given) == Some(ports)
    else
      var parsed := ParsedPorts(SelectorValues(StripAll(user)));
      parsed.Some? && NormalizedPorts(parsed.value) == Some(ports)
  }

  /**
    A rule that is accepted: its name, the multicast exclusion, which is on unless the
    user turned it off, the lines that are kept of every field and the values read off
    them, and the ports.
   */
  lemma NormalizedRuleSays(ps: Parsers, input: Rule, index: nat)
    requires NormalizeRule(ps, input, index).Some?
    ensures var r := NormalizeRule(ps, input, index).value;
      && r.id == input.id && r.name == (if TrimSpace(input.name) == "" then "Rule " + Itoa(index + 1) else TrimSpace(input.name))
      && r.excludeMulticast == (if input.excludeMulticast.None? then Some(true) else input.excludeMulticast)
      && r.raw.Some? && r.raw.value.lines.Keys == FIELDS
      && (forall f :: f in FIELDS ==> KeptLines(r.raw.value.lines[f], Get(RawOf(input).lines, f), Get(input.selectors, f)))
      && (forall f :: f in FIELDS ==> ReadOff(ps, f, r.raw.value.lines[f], Get(r.selectors, f)))
      && PortsFrom(input.destinationPorts, RawOf(input).destinationPorts, r.destinationPorts)
      && PortsFrom(input.excludedDestinationPorts, RawOf(input).excludedDestinationPorts, r.excludedDestinationPorts)
  {
    hide FormOf, ValueOf, SelectorValues, FieldLines, KindOf, FIELDS, PortValues, HasAnyLine, HasSelectors, TrimSpace, FinalLines,
         HydratedLines, NormalizedSelectors, KeptLines, ReadOff, PortsFrom, PortFieldLines, OrPorts;
    var r, l := NormalizeRule(ps, input, index).value, Hydrated(RawOf(input), input);
    HydratedKeys(RawOf(input).lines, input.selectors);
    SelectorsAreFinal(ps, l.lines);
    assert r.raw.value.lines == l.lines;
    forall f | f in FIELDS
      ensures KeptLines(l.lines[f], Get(RawOf(input).lines, f), Get(input.selectors, f)) && ReadOff(ps, f, l.lines[f], Get(r.selectors, f))
    {
      LinesKept(RawOf(input).lines, input.selectors, f);
      FieldRead(ps, l.lines, f);
    }
    PortsRead(input.destinationPorts, RawOf(input).destinationPorts);
    PortsRead(input.excludedDestinationPorts, RawOf(input).excludedDestinationPorts);
  }

  lemma LinesKept(l: Selectors, v: Selectors, f: Field)
    requires f in FIELDS
    ensures HydratedLines(l, v).Keys == FIELDS && KeptLines(HydratedLines(l, v)[f], Get(l, f), Get(v, f))
  {
    hide StripReturns, TrimSpace;
  }

  lemma FieldRead(ps: Parsers, l: Selectors, f: Field)
    requires l.Keys == FIELDS && f in FIELDS && NormalizedSelectors(ps, l).Some?
    ensures ReadOff(ps, f, l[f], Get(NormalizedSelectors(ps, l).value, f))
  {
    hide FormOf, ValueOf, SelectorValues, KindOf, FIELDS, NormalizedList;
    var values := Get(NormalizedSelectors(ps, l).value, f);
    assert Get(l, f) == l[f] && FieldValues(ps, KindOf(f), l[f]) == Some(values);
    forall x | x in values
      ensures exists e :: e in SelectorValues(l[f]) && ValueOf(ps, f, e, x)
    {
      var e := EntryFor(ps, f, SelectorValues(l[f]), x);
    }
    forall e | e in SelectorValues(l[f])
      ensures FormOf(ps, KindOf(f), e).Blank? || exists x :: x in values && ValueOf(ps, f, e, x)
    {
      EntryKept(ps, f, SelectorValues(l[f]), e);
    }
  }

  lemma PortsRead(given: seq<PortSelector>, user: seq<string>)
    requires PortValues(given, PortFieldLines(user, given)).Some?
    ensures PortsFrom(given, user, PortValues(given, PortFieldLines(user, given)).value)
  {
    hide NormalizedPorts, ParsedPorts, SelectorValues;
    EmptyPorts();
  }

  lemma EntryFor(ps: Parsers, f: Field, raw: seq<string>, x: string) returns (e: string)
    requires NormalizedList(ps, KindOf(f), raw).Some? && x in NormalizedList(ps, KindOf(f), raw).value
    ensures e in raw && ValueOf(ps, f, e, x)
  {
    hide FormOf, ValueOf, KindOf, NormalizedList;
    NormalizedListContents(ps, KindOf(f), raw);
    var i :| 0 <= i < |raw| && FormOf(ps, KindOf(f), raw[i]) == Valid(x);
    e := raw[i];
    FormIsValue(ps, f, e, x);
  }

  lemma EntryKept(ps: Parsers, f: Field, raw: seq<string>, e: string)
    requires NormalizedList(ps, KindOf(f), raw).Some? && e in raw
    ensures FormOf(ps, KindOf(f), e).Blank? || exists x :: x in NormalizedList(ps, KindOf(f), raw).value && ValueOf(ps, f, e, x)
  {
    hide FormOf, ValueOf, KindOf, NormalizedList;
    NormalizedListContents(ps, KindOf(f), raw);
    var i :| 0 <= i < |raw| && raw[i] == e;
    var form := FormOf(ps, KindOf(f), e);
    if form.Invalid? {
      InvalidEntry(ps, KindOf(f), raw, i);
    } else if form.Valid? {
      FormIsValue(ps, f, e, form.text);
      assert form.text in NormalizedList(ps, KindOf(f), raw).value;
    }
  }

  // ---- When a rule is accepted ----------------------------------------------

  /** An entry that stands for nothing. */
  predicate IsBlankEntry(f: Field, entry: string) {
    TrimSpace(entry) == "" || (KindOf(f) == AsnField && ToUpper(TrimSpace(entry)) == "AS")
  }

  ghost predicate EntryOk(ps: Parsers, f: Field, entry: string) {
    IsBlankEntry(f, entry) || exists x :: ValueOf(ps, f, entry, x)
  }

  lemma FormIsBlank(ps: Parsers, f: Field, entry: string)
    ensures FormOf(ps, KindOf(f), entry).Blank? <==> IsBlankEntry(f, entry)
  {
    hide TrimSpace, Atoi, Itoa, InterfaceName;
    var t := TrimSpace(entry);
    assert ToLower(t) == "" <==> t == "";
    assert ToUpper(t) == "" <==> t == "";
    hide ToLower, ToUpper;
    var u := ToUpper(t);
    assert WithoutPrefix(u, "AS") == "" <==> u == "" || u == "AS";
  }

  lemma EntryOkIff(ps: Parsers, f: Field, entry: string)
    ensures EntryOk(ps, f, entry) <==> !FormOf(ps, KindOf(f), entry).Invalid?
  {
    hide FormOf, ValueOf, IsBlankEntry, KindOf;
    FormIsBlank(ps, f, entry);
    forall x ensures FormOf(ps, KindOf(f), entry) == Valid(x) <==> ValueOf(ps, f, entry, x) { FormIsValue(ps, f, entry, x); }
    var form := FormOf(ps, KindOf(f), entry);
    if form.Valid? { assert ValueOf(ps, f, entry, form.text); }
  }

  lemma {:induction false} ListAcceptedIff(ps: Parsers, f: Field, raw: seq<string>)
    ensures NormalizedList(ps, KindOf(f), raw).Some? <==> forall i :: 0 <= i < |raw| ==> EntryOk(ps, f, raw[i])
  {
    hide FormOf, EntryOk, KindOf;
    if raw != [] {
      var n := |raw| - 1;
      ListAcceptedIff(ps, f, raw[..n]);
      EntryOkIff(ps, f, raw[n]);
      assert (forall i :: 0 <= i < |raw| ==> EntryOk(ps, f, raw[i])) <==> (forall i :: 0 <= i < n ==> EntryOk(ps, f, raw[..n][i])) && EntryOk(ps, f, raw[n]);
    }
  }

  /** Every entry of the lines kept for the field is acceptable. */
  ghost predicate FieldOk(ps: Parsers, f: Field, lines: seq<string>) {
    forall i :: 0 <= i < |SelectorValues(lines)| ==> EntryOk(ps, f, SelectorValues(lines)[i])
  }

  ghost predicate PortsOk(given: seq<PortSelector>, user: seq<string>) {
    exists ports :: PortsFrom(given, user, ports)
  }

  lemma PortsOkIff(given: seq<PortSelector>, user: seq<string>)
    ensures PortValues(given, PortFieldLines(user, given)).Some? <==> PortsOk(given, user)
  {
    hide NormalizedPorts, ParsedPorts, SelectorValues, StripAll;
    EmptyPorts();
    if PortValues(given, PortFieldLines(user, given)).Some? {
      PortsRead(given, user);
    }
  }

  lemma SelectorsOkIff(ps: Parsers, l: Selectors)
    requires l.Keys == FIELDS
    ensures NormalizedSelectors(ps, l).Some? <==> forall f :: f in FIELDS ==> FieldOk(ps, f, l[f])
  {
    hide EntryOk, SelectorValues, KindOf, FIELDS, NormalizedList;
    forall f | f in FIELDS
      ensures FieldValues(ps, KindOf(f), Get(l, f)).Some? <==> FieldOk(ps, f, l[f])
    {
      assert Get(l, f) == l[f];
      ListAcceptedIff(ps, f, SelectorValues(l[f]));
    }
  }

  /** The rule selects something, or the user has written something. */
  ghost predicate SaysSomething(input: Rule) {
    || (exists f :: f in FIELDS && HasLine(HydratedLines(RawOf(input).lines, input.selectors)[f]))
    || HasLine(RawOf(input).destinationPorts) || HasLine(RawOf(input).excludedDestinationPorts)
    || input.destinationPorts != [] || input.excludedDestinationPorts != []
  }

  lemma {:induction false} ValueHasLine(lines: seq<string>)
    ensures SelectorValues(lines) != [] ==> HasLine(lines)
  {
    hide TrimSpace;
    if lines != [] {
      var n := |lines| - 1;
      ValueHasLine(lines[..n]);
      if HasLine(lines[..n]) {
        var i :| 0 <= i < n && TrimSpace(lines[..n][i]) != "";
        assert lines[i] == lines[..n][i];
      }
      if ActiveValue(lines[n]).Some? { ActiveIsNotBlank(lines[n]); }
    }
  }

  lemma ActiveIsNotBlank(line: string)
    requires ActiveValue(line).Some?
    ensures TrimSpace(line) != ""
  {
    TrimSpaceEmpty(line);
    TrimSpaceEmpty(StripReturns(line));
    StripReturnsSpace(line);
  }

  lemma {:induction false} ListNeedsEntries(ps: Parsers, kind: FieldKind, raw: seq<string>)
    requires NormalizedList(ps, kind, raw).Some? && NormalizedList(ps, kind, raw).value != []
    ensures raw != []
  {
  }

  lemma {:induction false} PortsNeedEntries(given: seq<PortSelector>)
    requires NormalizedPorts(given).Some?
    ensures NormalizedPorts(given).value == [] <==> given == []
  {
    hide Canonical;
    if given != [] {
      var n := |given| - 1;
      PortsNeedEntries(given[..n]);
    }
  }

  lemma {:induction false} ParsedNeedsValues(values: seq<string>)
    requires ParsedPorts(values).Some? && ParsedPorts(values).value != []
    ensures values != []
  {
  }

  /** One port field speaks up, in the normalized rule or in its lines, iff the user gave ports or wrote a line. */
  lemma PortsSaySomething(given: seq<PortSelector>, user: seq<string>)
    requires PortValues(given, PortFieldLines(user, given)).Some?
    ensures
      var l := PortFieldLines(user, given);
      var x := PortValues(given, l).value;
      x != [] || HasLine(OrPorts(l, x)) <==> given != [] || HasLine(user)
  {
    hide NormalizedPorts, ParsedPorts, SelectorValues, StripAll, HasLine, PortLines;
    EmptyPorts();
    EmptyHasNoLine();
    StripKeepsLines(user);
    StripKeepsSome(user);
    var l := PortFieldLines(user, given);
    var x := PortValues(given, l).value;
    if given != [] {
      PortsNeedEntries(given);
    } else {
      var parsed := ParsedPorts(SelectorValues(l)).value;
      PortsNeedEntries(parsed);
      if parsed != [] {
        ParsedNeedsValues(SelectorValues(l));
        ValueHasLine(l);
      }
    }
  }

  lemma EmptyHasNoLine()
    ensures !HasLine([])
  {
  }

  lemma StripKeepsSome(user: seq<string>)
    ensures StripAll(user) == [] <==> user == []
  {
  }

  /** Some field has values or a line iff it has a line. */
  lemma FieldsSaySomething(ps: Parsers, l: Selectors)
    requires l.Keys == FIELDS && NormalizedSelectors(ps, l).Some?
    ensures var x := NormalizedSelectors(ps, l).value;
      (exists f :: f in FIELDS && Get(x, f) != []) ==> exists f :: f in FIELDS && HasLine(l[f])
  {
    hide SelectorValues, KindOf, FIELDS, NormalizedList, HasLine;
    var x := NormalizedSelectors(ps, l).value;
    if f :| f in FIELDS && Get(x, f) != [] {
      assert Get(l, f) == l[f] && FieldValues(ps, KindOf(f), l[f]) == Some(Get(x, f));
      ListNeedsEntries(ps, KindOf(f), SelectorValues(l[f]));
      ValueHasLine(l[f]);
    }
  }

  /** A rule is accepted iff every entry of its lines and every port is valid and it says something at all. */
  lemma AcceptedIff(ps: Parsers, input: Rule, index: nat)
    ensures NormalizeRule(ps, input, index).Some? <==>
      (&& (forall f :: f in FIELDS ==> FieldOk(ps, f, HydratedLines(RawOf(input).lines, input.selectors)[f]))
       && PortsOk(input.destinationPorts, RawOf(input).destinationPorts)
       && PortsOk(input.excludedDestinationPorts, RawOf(input).excludedDestinationPorts)
       && SaysSomething(input))
  {
    hide HydratedLines, NormalizedSelectors, PortValues, PortFieldLines, OrPorts, FinalLines, FIELDS, FieldOk, PortsOk, HasLine, RuleName;
    var raw := RawOf(input);
    var l := Hydrated(raw, input);
    HydratedKeys(raw.lines, input.selectors);
    SelectorsOkIff(ps, l.lines);
    PortsOkIff(input.destinationPorts, raw.destinationPorts);
    PortsOkIff(input.excludedDestinationPorts, raw.excludedDestinationPorts);
    var x := NormalizedSelectors(ps, l.lines);
    var p, q := PortValues(input.destinationPorts, l.destinationPorts), PortValues(input.excludedDestinationPorts, l.excludedDestinationPorts);
    if x.Some? && p.Some? && q.Some? {
      SelectorsAreFinal(ps, l.lines);
      FieldsSaySomething(ps, l.lines);
      PortsSaySomething(input.destinationPorts, raw.destinationPorts);
      PortsSaySomething(input.excludedDestinationPorts, raw.excludedDestinationPorts);
      forall f | f in FIELDS ensures Get(l.lines, f) == l.lines[f] {
      }
    }
  }
}
