/** The text form of destination port selectors. */
module PortSelectors {
  import opened Text

  datatype PortSelector = PortSelector(protocol: string, start: int, end: int)

  predicate KnownProtocol(protocol: string) {
    protocol == "tcp" || protocol == "udp" || protocol == "both"
  }

  // ---- Normalization --------------------------------------------------------

  /** The canonical form of one selector, if it is valid. */
  function Canonical(p: PortSelector): Option<PortSelector> {
    var protocol := ToLower(TrimSpace(p.protocol));
    var end := if p.end <= 0 then p.start else p.end;
    if !KnownProtocol(protocol) || p.start <= 0 || p.start > 65535 || end < p.start || end > 65535 then None
    else Some(PortSelector(protocol, p.start, end))
  }

  predicate IsCanonical(p: PortSelector) {
    KnownProtocol(p.protocol) && 1 <= p.start <= p.end <= 65535
  }

  function Decimal(n: int): string {
    if n < 0 then "-" + Itoa(-n) else Itoa(n)
  }

  function Key(p: PortSelector): string {
    p.protocol + ":" + Decimal(p.start) + ":" + Decimal(p.end)
  }

  function Keys(ports: seq<PortSelector>): set<string> {
    set p | p in ports :: Key(p)
  }

  function NormalizedPorts(raw: seq<PortSelector>): Option<seq<PortSelector>> {
    if raw == [] then Some([])
    else
      var before, p := NormalizedPorts(raw[..|raw| - 1]), Canonical(raw[|raw| - 1]);
      if before.None? || p.None? then None
      else if p.value in before.value then before
      else Some(before.value + [p.value])
  }

  lemma NumberHasNo(n: nat, c: char)
    requires !IsDigit(c)
    ensures NoChar(Itoa(n), c)
  {
    var s := Itoa(n);
    assert forall i :: 0 <= i < |s| ==> IsDigit(s[i]);
  }

  /** The key under which duplicates are found determines the selector. */
  lemma KeyInjective(p: PortSelector, q: PortSelector)
    requires IsCanonical(p) && IsCanonical(q) && Key(p) == Key(q)
    ensures p == q
  {
    forall x: PortSelector | x == p || x == q
      ensures Split(Key(x), ':') == [x.protocol, Itoa(x.start), Itoa(x.end)]
    {
      var parts := [x.protocol, Itoa(x.start), Itoa(x.end)];
      NumberHasNo(x.start, ':');
      NumberHasNo(x.end, ':');
      KeyIsJoin(x);
      SplitJoin(parts, ':');
    }
    hide Key, Split;
    var a, b := Split(Key(p), ':'), Split(Key(q), ':');
    assert a[0] == b[0] && a[1] == b[1] && a[2] == b[2];
    ItoaInjective(p.start, q.start);
    ItoaInjective(p.end, q.end);
  }

  lemma KeyIsJoin(p: PortSelector)
    requires p.start >= 0 && p.end >= 0
    ensures Key(p) == Join([p.protocol, Itoa(p.start), Itoa(p.end)], ':')
  {
    var a, b, c := p.protocol, Itoa(p.start), Itoa(p.end);
    assert [a, b, c][1..] == [b, c];
    assert [b, c][1..] == [c];
    assert Join([b, c], ':') == b + ":" + c;
    assert a + ":" + b + ":" + c == a + ":" + (b + ":" + c);
  }

  ghost predicate AllCanonical(ports: seq<PortSelector>) {
    forall i :: 0 <= i < |ports| ==> IsCanonical(ports[i])
  }

  ghost predicate Distinct(ports: seq<PortSelector>) {
    forall i, j :: 0 <= i < j < |ports| ==> ports[i] != ports[j]
  }

  method NormalizePorts(raw: seq<PortSelector>) returns (r: Option<seq<PortSelector>>)
    ensures r == NormalizedPorts(raw)
  {
    hide Key, TrimSpace, ToLower, Keys, Distinct;
    if |raw| == 0 {
      return Some([]);
    }
    var seen: set<string>, out: seq<PortSelector> := {}, [];
    KeysSnoc([]);
    for i := 0 to |raw|
      invariant NormalizedPorts(raw[..i]) == Some(out)
      invariant AllCanonical(out) && seen == Keys(out)
    {
      assert raw[..i + 1][..i] == raw[..i];
      var entry := raw[i];
      var protocol := ToLower(TrimSpace(entry.protocol));
      if !KnownProtocol(protocol) {
        RefusedPrefix(raw, i);
        return None;
      }
      var start, end := entry.start, entry.end;
      if start <= 0 || start > 65535 {
        RefusedPrefix(raw, i);
        return None;
      }
      if end <= 0 {
        end := start;
      }
      if end < start || end > 65535 {
        RefusedPrefix(raw, i);
        return None;
      }
      var p := PortSelector(protocol, start, end);
      SeenMeansPresent(out, p);
      if Key(p) in seen {
        continue;
      }
      KeysSnoc(out + [p]);
      assert (out + [p])[..|out|] == out;
      seen := seen + {Key(p)};
      out := out + [p];
    }
    assert raw[..|raw|] == raw;
    return Some(out);
  }

  lemma KeysSnoc(ports: seq<PortSelector>)
    ensures Keys(ports) == if ports == [] then {} else Keys(ports[..|ports| - 1]) + {Key(ports[|ports| - 1])}
  {
    hide Key;
    if ports != [] {
      assert ports == ports[..|ports| - 1] + [ports[|ports| - 1]];
    }
  }

  lemma SeenMeansPresent(out: seq<PortSelector>, p: PortSelector)
    requires AllCanonical(out) && IsCanonical(p)
    ensures p in out <==> Key(p) in Keys(out)
  {
    hide Key;
    if Key(p) in Keys(out) {
      var q :| q in out && Key(q) == Key(p);
      KeyInjective(q, p);
    }
  }

  lemma {:induction false} RefusedPrefix(raw: seq<PortSelector>, n: nat)
    requires n < |raw| && Canonical(raw[n]).None?
    ensures NormalizedPorts(raw).None?
  {
    hide Canonical;
    if n < |raw| - 1 {
      RefusedPrefix(raw[..|raw| - 1], n);
    }
  }

  lemma CanonicalIsCanonical(p: PortSelector)
    ensures Canonical(p).Some? ==> IsCanonical(Canonical(p).value)
    ensures IsCanonical(p) ==> Canonical(p) == Some(p)
  {
    if IsCanonical(p) {
      TrimSpaceFixed(p.protocol);
      assert ToLower(p.protocol) == p.protocol;
    }
  }

  lemma {:induction false} NormalizedShape(raw: seq<PortSelector>)
    requires NormalizedPorts(raw).Some?
    ensures AllCanonical(NormalizedPorts(raw).value) && Distinct(NormalizedPorts(raw).value)
    ensures raw != [] ==> NormalizedPorts(raw).value != []
  {
    hide Canonical, IsCanonical;
    if raw != [] {
      NormalizedShape(raw[..|raw| - 1]);
      CanonicalIsCanonical(raw[|raw| - 1]);
    }
  }

  lemma {:induction false} NormalizedIsFixed(ports: seq<PortSelector>)
    requires AllCanonical(ports) && Distinct(ports)
    ensures NormalizedPorts(ports) == Some(ports)
  {
    hide Canonical, IsCanonical;
    if ports != [] {
      var n := |ports| - 1;
      NormalizedIsFixed(ports[..n]);
      CanonicalIsCanonical(ports[n]);
      assert ports == ports[..n] + [ports[n]];
    }
  }

  /** Normalizing twice is normalizing once. */
  lemma NormalizingTwice(raw: seq<PortSelector>)
    requires NormalizedPorts(raw).Some?
    ensures NormalizedPorts(NormalizedPorts(raw).value) == NormalizedPorts(raw)
  {
    NormalizedShape(raw);
    NormalizedIsFixed(NormalizedPorts(raw).value);
  }

  // ---- Printing -------------------------------------------------------------

  function PortLine(p: PortSelector): Option<string> {
    var protocol := ToLower(TrimSpace(p.protocol));
    if protocol == "" || p.start <= 0 then None
    else if p.end > p.start then Some(protocol + ":" + Itoa(p.start) + "-" + Itoa(p.end))
    else Some(protocol + ":" + Itoa(p.start))
  }

  function PortLines(ports: seq<PortSelector>): seq<string> {
    if ports == [] then []
    else
      var before, line := PortLines(ports[..|ports| - 1]), PortLine(ports[|ports| - 1]);
      if line.None? then before else before + [line.value]
  }

  method FormatPortSelectorLines(ports: seq<PortSelector>) returns (out: seq<string>)
    ensures out == PortLines(ports)
  {
    hide TrimSpace, ToLower;
    out := [];
    for i := 0 to |ports|
      invariant out == PortLines(ports[..i])
    {
      assert ports[..i + 1][..i] == ports[..i];
      var port := ports[i];
      var proto := ToLower(TrimSpace(port.protocol));
      if proto == "" || port.start <= 0 {
        continue;
      }
      if port.end > port.start {
        out := out + [proto + ":" + Itoa(port.start) + "-" + Itoa(port.end)];
        continue;
      }
      out := out + [proto + ":" + Itoa(port.start)];
    }
    assert ports[..|ports|] == ports;
  }

  // ---- Parsing --------------------------------------------------------------

  predicate IsSeparator(c: char) {
    c == ':' || c == '/'
  }

  function FirstSeparator(s: string): (i: nat)
    ensures i <= |s|
    ensures forall j :: 0 <= j < i ==> !IsSeparator(s[j])
    ensures i < |s| ==> IsSeparator(s[i])
  {
    if s == [] || IsSeparator(s[0]) then 0 else 1 + FirstSeparator(s[1..])
  }

  /** The parts between separators, without the empty ones. */
  function Parts(s: string): seq<string>
    decreases |s|
  {
    if s == [] then []
    else if IsSeparator(s[0]) then Parts(s[1..])
    else [s[..FirstSeparator(s)]] + Parts(s[FirstSeparator(s)..])
  }

  function ParseBounds(text: string): Option<(int, int)> {
    var i := IndexOf(text, '-');
    if i < |text| then
      var start, end := Atoi(TrimSpace(text[..i])), Atoi(TrimSpace(text[i + 1..]));
      if start.None? || end.None? then None else Some((start.value, end.value))
    else
      var v := Atoi(text);
      if v.None? then None else Some((v.value, v.value))
  }

  function ParsePort(text: string): Option<PortSelector> {
    var parts := Parts(text);
    if |parts| != 2 then None
    else
      var protocol, bounds := TrimSpace(parts[0]), ParseBounds(TrimSpace(parts[1]));
      if !KnownProtocol(protocol) || bounds.None? then None
      else Some(PortSelector(protocol, bounds.value.0, bounds.value.1))
  }

  function ParsedPorts(values: seq<string>): Option<seq<PortSelector>> {
    if values == [] then Some([])
    else
      var before, text := ParsedPorts(values[..|values| - 1]), ToLower(TrimSpace(values[|values| - 1]));
      if before.None? || text == "" then before
      else
        var p := ParsePort(text);
        if p.None? then None else Some(before.value + [p.value])
  }

  method ParsePortSelectorStrings(values: seq<string>) returns (r: Option<seq<PortSelector>>)
    ensures r == ParsedPorts(values)
  {
    hide TrimSpace, ToLower, Parts, Atoi, KnownProtocol, IndexOf;
    var out: seq<PortSelector> := [];
    for i := 0 to |values|
      invariant ParsedPorts(values[..i]) == Some(out)
    {
      assert values[..i + 1][..i] == values[..i];
      var trimmed := ToLower(TrimSpace(values[i]));
      if trimmed == "" {
        continue;
      }
      var parts := Parts(trimmed);
      if |parts| != 2 {
        ParseRefused(values, i + 1);
        return None;
      }
      var protocol, rangeRaw := TrimSpace(parts[0]), TrimSpace(parts[1]);
      if !KnownProtocol(protocol) {
        ParseRefused(values, i + 1);
        return None;
      }
      var dash := IndexOf(rangeRaw, '-');
      var start, end;
      if dash < |rangeRaw| {
        start, end := Atoi(TrimSpace(rangeRaw[..dash])), Atoi(TrimSpace(rangeRaw[dash + 1..]));
        if start.None? || end.None? {
          ParseRefused(values, i + 1);
          return None;
        }
      } else {
        start := Atoi(rangeRaw);
        if start.None? {
          ParseRefused(values, i + 1);
          return None;
        }
        end := start;
      }
      out := out + [PortSelector(protocol, start.value, end.value)];
    }
    assert values[..|values|] == values;
    return Some(out);
  }

  lemma {:induction false} ParseRefused(values: seq<string>, n: nat)
    requires n <= |values| && ParsedPorts(values[..n]).None?
    ensures ParsedPorts(values).None?
    decreases |values| - n
  {
    hide ParsePort;
    if n == |values| {
      assert values[..n] == values;
    } else {
      assert values[..n + 1][..n] == values[..n];
      ParseRefused(values, n + 1);
    }
  }

  // ---- Round trip -----------------------------------------------------------

  predicate NoSeparator(s: string) {
    forall i :: 0 <= i < |s| ==> !IsSeparator(s[i])
  }

  lemma FirstSeparatorAt(s: string, i: nat)
    requires i <= |s| && NoSeparator(s[..i]) && (i < |s| ==> IsSeparator(s[i]))
    ensures FirstSeparator(s) == i
  {
    assert forall j :: 0 <= j < i ==> s[..i][j] == s[j];
  }

  lemma OnePart(b: string)
    requires b != "" && NoSeparator(b)
    ensures Parts(b) == [b]
  {
    assert b[..|b|] == b;
    FirstSeparatorAt(b, |b|);
    assert b[|b|..] == "";
  }

  lemma TwoParts(a: string, b: string)
    requires a != "" && b != "" && NoSeparator(a) && NoSeparator(b)
    ensures Parts(a + ":" + b) == [a, b]
  {
    var s := a + ":" + b;
    assert s[0] == a[0] && s[|a|] == ':' && s[..|a|] == a;
    FirstSeparatorAt(s, |a|);
    assert s[|a|..][1..] == b && s[|a|..][0] == ':';
    OnePart(b);
  }

  /** A number in a text: no letters, no space. */
  lemma NumberText(n: nat)
    ensures TrimSpace(Itoa(n)) == Itoa(n) && NoSeparator(Itoa(n)) && NoChar(Itoa(n), '-') && ToLower(Itoa(n)) == Itoa(n)
  {
    var s := Itoa(n);
    assert forall i :: 0 <= i < |s| ==> IsDigit(s[i]);
    TrimSpaceFixed(s);
  }

  /** Lower-case text without white space at its ends. */
  predicate Tidy(s: string) {
    s != "" && ToLower(s) == s && !IsSpace(s[0]) && !IsSpace(s[|s| - 1])
  }

  lemma TidyIsFixed(s: string)
    requires Tidy(s)
    ensures TrimSpace(s) == s && ToLower(TrimSpace(s)) == s
  {
    TrimSpaceFixed(s);
  }

  function RangeText(start: nat, end: nat): string {
    if end > start then Itoa(start) + "-" + Itoa(end) else Itoa(start)
  }

  lemma RangeTextIsTidy(start: nat, end: nat)
    ensures Tidy(RangeText(start, end)) && NoSeparator(RangeText(start, end))
  {
    var a, b := Itoa(start), Itoa(end);
    assert forall i :: 0 <= i < |a| ==> IsDigit(a[i]);
    assert forall i :: 0 <= i < |b| ==> IsDigit(b[i]);
    var s := RangeText(start, end);
    assert forall i :: 0 <= i < |s| ==> IsDigit(s[i]) || s[i] == '-';
  }

  lemma DashAt(a: string, b: string)
    requires NoChar(a, '-')
    ensures IndexOf(a + "-" + b, '-') == |a| && IndexOf(a, '-') == |a|
  {
    var s := a + "-" + b;
    assert s[|a|] == '-';
    assert forall j :: 0 <= j < |a| ==> s[j] == a[j];
  }

  lemma RangeTextParses(start: nat, end: nat)
    requires 0 < start <= end <= 65535
    ensures ParseBounds(RangeText(start, end)) == Some((start, end))
  {
    hide Atoi, TrimSpace, Itoa, ToLower, NoSeparator, NoChar;
    var a, b := Itoa(start), Itoa(end);
    NumberText(start);
    NumberText(end);
    AtoiItoa(start);
    AtoiItoa(end);
    DashAt(a, b);
    if end > start {
      var s := a + "-" + b;
      assert s[..|a|] == a && s[|a| + 1..] == b;
    }
  }

  lemma ProtocolText(protocol: string)
    requires KnownProtocol(protocol)
    ensures Tidy(protocol) && NoSeparator(protocol)
  {
    assert ToLower(protocol) == protocol;
  }

  lemma LineIsTidy(a: string, b: string)
    requires Tidy(a) && Tidy(b)
    ensures Tidy(a + ":" + b)
  {
    var s := a + ":" + b;
    assert s[0] == a[0] && s[|s| - 1] == b[|b| - 1];
    forall i | 0 <= i < |s|
      ensures LowerChar(s[i]) == s[i]
    {
      assert i < |a| ==> s[i] == a[i] == ToLower(a)[i];
      assert i > |a| ==> s[i] == b[i - |a| - 1] == ToLower(b)[i - |a| - 1];
    }
  }

  /** The printed form of a canonical selector, and what it parses to. */
  lemma LineRoundTrip(p: PortSelector)
    requires IsCanonical(p)
    ensures PortLine(p).Some? && Tidy(PortLine(p).value) && ParsePort(PortLine(p).value) == Some(p)
  {
    hide TrimSpace, ToLower, Parts, ParseBounds, Itoa, NoSeparator;
    ProtocolText(p.protocol);
    TidyIsFixed(p.protocol);
    var r := RangeText(p.start, p.end);
    assert p.protocol + ":" + Itoa(p.start) + "-" + Itoa(p.end) == p.protocol + ":" + (Itoa(p.start) + "-" + Itoa(p.end));
    assert PortLine(p) == Some(p.protocol + ":" + r);
    RangeTextIsTidy(p.start, p.end);
    TidyIsFixed(r);
    LineIsTidy(p.protocol, r);
    TwoParts(p.protocol, r);
    RangeTextParses(p.start, p.end);
  }

  /** Parsing the printed form of a normalized port list gives it back. */
  lemma {:induction false} PortRoundTrip(ports: seq<PortSelector>)
    requires AllCanonical(ports)
    ensures ParsedPorts(PortLines(ports)) == Some(ports) && |PortLines(ports)| == |ports|
  {
    hide IsCanonical, PortLine, ParsePort, ToLower, TrimSpace;
    if ports != [] {
      var n := |ports| - 1;
      PortRoundTrip(ports[..n]);
      LineRoundTrip(ports[n]);
      var line := PortLine(ports[n]).value;
      TidyIsFixed(line);
      assert (PortLines(ports[..n]) + [line])[..n] == PortLines(ports[..n]);
      assert ports == ports[..n] + [ports[n]];
    }
  }

  function CanonicalAll(raw: seq<PortSelector>): seq<PortSelector>
    requires forall i :: 0 <= i < |raw| ==> Canonical(raw[i]).Some?
  {
    seq(|raw|, i requires 0 <= i < |raw| => Canonical(raw[i]).value)
  }

  lemma {:induction false} AcceptedAreValid(raw: seq<PortSelector>, n: nat)
    requires NormalizedPorts(raw).Some? && n < |raw|
    ensures Canonical(raw[n]).Some?
  {
    if Canonical(raw[n]).None? {
      RefusedPrefix(raw, n);
    }
  }

  lemma CanonicalPrintsSame(p: PortSelector)
    requires Canonical(p).Some?
    ensures PortLine(p) == PortLine(Canonical(p).value)
  {
    hide TrimSpace, ToLower, Itoa;
    var c := Canonical(p).value;
    ProtocolText(c.protocol);
    TidyIsFixed(c.protocol);
  }

  lemma {:induction false} CanonicalAllSame(raw: seq<PortSelector>)
    requires forall i :: 0 <= i < |raw| ==> Canonical(raw[i]).Some?
    ensures PortLines(CanonicalAll(raw)) == PortLines(raw)
    ensures NormalizedPorts(CanonicalAll(raw)) == NormalizedPorts(raw)
  {
    hide Canonical, PortLine, IsCanonical;
    if raw != [] {
      var n := |raw| - 1;
      CanonicalAllSame(raw[..n]);
      assert CanonicalAll(raw)[..n] == CanonicalAll(raw[..n]);
      CanonicalPrintsSame(raw[n]);
      CanonicalIsCanonical(raw[n]);
      CanonicalIsCanonical(Canonical(raw[n]).value);
    }
  }

  /** Printing ports before they are normalized loses nothing: parsed and normalized, they are the same list. */
  lemma PrintedThenNormalized(raw: seq<PortSelector>)
    requires NormalizedPorts(raw).Some?
    ensures ParsedPorts(PortLines(raw)).Some? && NormalizedPorts(ParsedPorts(PortLines(raw)).value) == NormalizedPorts(raw)
  {
    hide Canonical, PortLine, IsCanonical;
    forall i | 0 <= i < |raw|
      ensures Canonical(raw[i]).Some? && IsCanonical(Canonical(raw[i]).value)
    {
      AcceptedAreValid(raw, i);
      CanonicalIsCanonical(raw[i]);
    }
    CanonicalAllSame(raw);
    PortRoundTrip(CanonicalAll(raw));
  }

  // ---- What normalization keeps ---------------------------------------------

  /** A selector that is accepted, and the one it becomes. */
  predicate Becomes(p: PortSelector, q: PortSelector) {
    && q.protocol == ToLower(TrimSpace(p.protocol)) && (q.protocol == "tcp" || q.protocol == "udp" || q.protocol == "both")
    && q.start == p.start && q.end == (if p.end <= 0 then p.start else p.end) && 1 <= q.start <= q.end <= 65535
  }

  ghost predicate Acceptable(p: PortSelector) {
    exists q :: Becomes(p, q)
  }

  lemma CanonicalBecomes(p: PortSelector)
    ensures forall q :: Canonical(p) == Some(q) <==> Becomes(p, q)
    ensures Canonical(p).Some? <==> Acceptable(p)
  {
    hide ToLower, TrimSpace;
    if Canonical(p).Some? { assert Becomes(p, Canonical(p).value); }
  }

  /** Ports are accepted iff each is valid; the result holds exactly what they become. */
  lemma {:induction false} NormalizedPortsAre(raw: seq<PortSelector>)
    ensures NormalizedPorts(raw).Some? <==> forall i :: 0 <= i < |raw| ==> Acceptable(raw[i])
    ensures NormalizedPorts(raw).Some? ==> forall q :: q in NormalizedPorts(raw).value <==> exists i :: 0 <= i < |raw| && Becomes(raw[i], q)
  {
    hide Becomes, Canonical, Acceptable;
    if raw != [] {
      var n := |raw| - 1;
      NormalizedPortsAre(raw[..n]);
      assert forall i :: 0 <= i < n ==> raw[..n][i] == raw[i];
      CanonicalBecomes(raw[n]);
      assert (forall i :: 0 <= i < |raw| ==> Acceptable(raw[i])) <==> (forall i :: 0 <= i < n ==> Acceptable(raw[..n][i])) && Acceptable(raw[n]);
      if NormalizedPorts(raw).Some? {
        forall q
          ensures q in NormalizedPorts(raw).value <==> exists i :: 0 <= i < |raw| && Becomes(raw[i], q)
        {
          if q in NormalizedPorts(raw[..n]).value {
            var i :| 0 <= i < n && Becomes(raw[..n][i], q);
            assert Becomes(raw[i], q);
          }
        }
      }
    }
  }
}
