/** The lines a user writes for one selector, and the values they stand for. */
module SelectorLines {
  import opened Text

  function StripReturns(s: string): (r: string)
    ensures |r| <= |s|
  {
    if s == [] then []
    else if s[|s| - 1] == '\r' then StripReturns(s[..|s| - 1])
    else StripReturns(s[..|s| - 1]) + [s[|s| - 1]]
  }

  lemma {:induction false} StripReturnsNone(s: string)
    ensures NoChar(StripReturns(s), '\r')
    ensures StripReturns(s) == s <==> NoChar(s, '\r')
  {
    if s != [] {
      var n := |s| - 1;
      StripReturnsNone(s[..n]);
      assert s == s[..n] + [s[n]];
    }
  }

  lemma StripReturnsTwice(s: string)
    ensures StripReturns(StripReturns(s)) == StripReturns(s)
  {
    StripReturnsNone(s);
    StripReturnsNone(StripReturns(s));
  }

  predicate AllSpace(s: string) {
    forall i :: 0 <= i < |s| ==> IsSpace(s[i])
  }

  lemma {:induction false} TrimLeftSpace(s: string)
    ensures TrimLeft(s) == "" <==> AllSpace(s)
  {
    if s != [] && IsSpace(s[0]) {
      TrimLeftSpace(s[1..]);
      assert s == [s[0]] + s[1..];
      assert AllSpace(s) ==> AllSpace(s[1..]);
    }
  }

  lemma TrimSpaceEmpty(s: string)
    ensures TrimSpace(s) == "" <==> AllSpace(s)
  {
    TrimLeftSpace(s);
    var t := TrimLeft(s);
    if t != "" {
      TrimRightKeeps(t);
    }
  }

  lemma {:induction false} TrimRightKeeps(s: string)
    requires s != "" && !IsSpace(s[0])
    ensures TrimRight(s) != ""
  {
    if |s| > 1 {
      TrimRightKeeps(s[..|s| - 1]);
    }
  }

  lemma {:induction false} StripReturnsSpace(s: string)
    ensures AllSpace(StripReturns(s)) <==> AllSpace(s)
  {
    if s != [] {
      var n := |s| - 1;
      StripReturnsSpace(s[..n]);
      assert s == s[..n] + [s[n]];
      var r := StripReturns(s[..n]);
      assert AllSpace(r + [s[n]]) <==> AllSpace(r) && IsSpace(s[n]) by {
        if AllSpace(r + [s[n]]) { assert (r + [s[n]])[|r|] == s[n]; assert forall i :: 0 <= i < |r| ==> (r + [s[n]])[i] == r[i]; }
      }
      assert AllSpace(s) <==> AllSpace(s[..n]) && IsSpace(s[n]);
    }
  }

  // ---- Lines ----------------------------------------------------------------

  function StripAll(lines: seq<string>): (r: seq<string>)
    ensures |r| == |lines|
  {
    seq(|lines|, i requires 0 <= i < |lines| => StripReturns(lines[i]))
  }

  method NormalizeRawLines(lines: seq<string>) returns (out: seq<string>)
    ensures out == StripAll(lines)
  {
    out := [];
    for i := 0 to |lines|
      invariant out == StripAll(lines)[..i]
    {
      out := out + [StripReturns(lines[i])];
    }
  }

  function Cloned(values: seq<string>): (r: seq<string>)
    ensures |r| == |values|
  {
    seq(|values|, i requires 0 <= i < |values| => TrimSpace(values[i]))
  }

  /** The value of a line without its comment, if there is one. */
  function ActiveValue(line: string): Option<string> {
    var t := TrimSpace(StripReturns(line));
    if t == "" || t[0] == '#' then None
    else
      var v := if IndexOf(t, '#') < |t| then TrimSpace(t[..IndexOf(t, '#')]) else t;
      if v == "" then None else Some(v)
  }

  function SelectorValues(lines: seq<string>): seq<string> {
    if lines == [] then []
    else
      var before, v := SelectorValues(lines[..|lines| - 1]), ActiveValue(lines[|lines| - 1]);
      if v.None? then before else before + [v.value]
  }

  method SelectorValuesFromRaw(lines: seq<string>) returns (out: seq<string>)
    ensures out == SelectorValues(lines)
  {
    hide ActiveValue;
    out := [];
    for i := 0 to |lines|
      invariant out == SelectorValues(lines[..i])
    {
      assert lines[..i + 1][..i] == lines[..i];
      var value := ActiveValue(lines[i]);
      if value.None? {
        continue;
      }
      out := out + [value.value];
    }
    assert lines[..|lines|] == lines;
  }

  /** Carriage returns never change the values. */
  lemma {:induction false} StripKeepsValues(lines: seq<string>)
    ensures SelectorValues(StripAll(lines)) == SelectorValues(lines)
  {
    if lines != [] {
      var n := |lines| - 1;
      StripKeepsValues(lines[..n]);
      assert StripAll(lines)[..n] == StripAll(lines[..n]);
      StripReturnsTwice(lines[n]);
    }
  }

  ghost predicate NoReturns(lines: seq<string>) {
    forall i :: 0 <= i < |lines| ==> NoChar(lines[i], '\r')
  }

  lemma StripAllFixed(lines: seq<string>)
    ensures StripAll(lines) == lines <==> NoReturns(lines)
    ensures NoReturns(StripAll(lines))
  {
    forall i | 0 <= i < |lines|
      ensures StripAll(lines)[i] == lines[i] <==> NoChar(lines[i], '\r')
      ensures NoChar(StripAll(lines)[i], '\r')
    {
      StripReturnsNone(lines[i]);
    }
    if NoReturns(lines) {
      assert forall i :: 0 <= i < |lines| ==> StripAll(lines)[i] == lines[i];
    }
  }

  predicate HasLine(lines: seq<string>) {
    exists i :: 0 <= i < |lines| && TrimSpace(lines[i]) != ""
  }

  lemma StripKeepsLines(lines: seq<string>)
    ensures HasLine(StripAll(lines)) <==> HasLine(lines)
  {
    hide TrimSpace;
    forall i | 0 <= i < |lines|
      ensures TrimSpace(StripAll(lines)[i]) == "" <==> TrimSpace(lines[i]) == ""
    {
      TrimSpaceEmpty(lines[i]);
      TrimSpaceEmpty(StripReturns(lines[i]));
      StripReturnsSpace(lines[i]);
    }
  }

  // ---- Canonical forms ------------------------------------------------------

  datatype FieldKind = InterfaceField | CidrField | MacField | AsnField | DomainField | WildcardField

  /** What the network library makes of an address, of a hardware address and of a domain name. */
  datatype Parsers = Parsers(cidr: string -> Option<string>, mac: string -> Option<string>, domain: string -> bool)

  datatype Form = Blank | Invalid | Valid(text: string)

  predicate InterfaceChar(c: char) {
    ('a' <= c <= 'z') || ('0' <= c <= '9') || c == '.' || c == '_' || c == '-'
  }

  predicate InterfaceName(s: string) {
    1 <= |s| <= 15 && s[0] != '.' && s[0] != '_' && s[0] != '-' && forall i :: 0 <= i < |s| ==> InterfaceChar(s[i])
  }

  function UpperChar(c: char): char {
    if 'a' <= c <= 'z' then ((c as int) - 32) as char else c
  }

  function ToUpper(s: string): string {
    seq(|s|, i requires 0 <= i < |s| => UpperChar(s[i]))
  }

  function WithoutPrefix(s: string, prefix: string): string {
    if prefix <= s then s[|prefix|..] else s
  }

  function FormOf(ps: Parsers, kind: FieldKind, entry: string): Form {
    var t := TrimSpace(entry);
    match kind
    case InterfaceField =>
      var s := ToLower(t);
      if s == "" then Blank else if InterfaceName(s) then Valid(s) else Invalid
    case CidrField =>
      if t == "" then Blank else if ps.cidr(t).Some? then Valid(ps.cidr(t).value) else Invalid
    case MacField =>
      if t == "" then Blank else if ps.mac(t).Some? then Valid(ToLower(ps.mac(t).value)) else Invalid
    case AsnField =>
      var s := WithoutPrefix(ToUpper(t), "AS");
      var v := Atoi(s);
      if s == "" then Blank else if v.Some? && v.value > 0 then Valid("AS" + Itoa(v.value)) else Invalid
    case DomainField =>
      var s := ToLower(t);
      if s == "" then Blank else if ps.domain(s) then Valid(WithoutPrefix(s, "*.")) else Invalid
    case WildcardField =>
      var s := ToLower(t);
      if s == "" then Blank else if ps.domain(s) then Valid(if "*." <= s then s else "*." + s) else Invalid
  }

  /** The canonical forms in order of first appearance; none if an entry is invalid. */
  function NormalizedList(ps: Parsers, kind: FieldKind, raw: seq<string>): Option<seq<string>> {
    if raw == [] then Some([])
    else
      var before, f := NormalizedList(ps, kind, raw[..|raw| - 1]), FormOf(ps, kind, raw[|raw| - 1]);
      if before.None? || f.Invalid? then None
      else if f.Blank? || f.text in before.value then before
      else Some(before.value + [f.text])
  }

  method NormalizeList(ps: Parsers, kind: FieldKind, raw: seq<string>) returns (r: Option<seq<string>>)
    ensures r == NormalizedList(ps, kind, raw)
  {
    hide FormOf;
    var seen: set<string>, out: seq<string> := {}, [];
    for i := 0 to |raw|
      invariant NormalizedList(ps, kind, raw[..i]) == Some(out)
      invariant forall x :: x in seen <==> x in out
    {
      assert raw[..i + 1][..i] == raw[..i];
      var form := FormOf(ps, kind, raw[i]);
      if form.Blank? {
        continue;
      }
      if form.Invalid? {
        InvalidEntry(ps, kind, raw, i);
        return None;
      }
      if form.text in seen {
        continue;
      }
      seen := seen + {form.text};
      out := out + [form.text];
    }
    assert raw[..|raw|] == raw;
    return Some(out);
  }

  lemma {:induction false} InvalidEntry(ps: Parsers, kind: FieldKind, raw: seq<string>, n: nat)
    requires n < |raw| && FormOf(ps, kind, raw[n]).Invalid?
    ensures NormalizedList(ps, kind, raw).None?
  {
    hide FormOf;
    if n < |raw| - 1 {
      InvalidEntry(ps, kind, raw[..|raw| - 1], n);
    }
  }

  /** No duplicates, and exactly the canonical forms of the entries that are not blank. */
  lemma {:induction false} NormalizedListContents(ps: Parsers, kind: FieldKind, raw: seq<string>)
    requires NormalizedList(ps, kind, raw).Some?
    ensures var out := NormalizedList(ps, kind, raw).value;
      && (forall i, j :: 0 <= i < j < |out| ==> out[i] != out[j])
      && (forall x :: x in out <==> exists i :: 0 <= i < |raw| && FormOf(ps, kind, raw[i]) == Valid(x))
  {
    hide FormOf;
    if raw != [] {
      var n := |raw| - 1;
      NormalizedListContents(ps, kind, raw[..n]);
      var out, before := NormalizedList(ps, kind, raw).value, NormalizedList(ps, kind, raw[..n]).value;
      forall x
        ensures x in out <==> exists i :: 0 <= i < |raw| && FormOf(ps, kind, raw[i]) == Valid(x)
      {
        if x in before {
          var i :| 0 <= i < n && FormOf(ps, kind, raw[..n][i]) == Valid(x);
          assert FormOf(ps, kind, raw[i]) == Valid(x);
        }
        if i :| 0 <= i < |raw| && FormOf(ps, kind, raw[i]) == Valid(x) {
          if i < n { assert raw[..n][i] == raw[i]; }
        }
      }
    }
  }

  // ---- Comments -------------------------------------------------------------

  lemma {:induction false} StripConcat(a: string, b: string)
    ensures StripReturns(a + b) == StripReturns(a) + StripReturns(b)
  {
    if b == [] {
      assert a + b == a;
    } else {
      var n := |b| - 1;
      assert (a + b)[..|a| + n] == a + b[..n];
      StripConcat(a, b[..n]);
    }
  }

  lemma {:induction false} TrimLeftConcat(a: string, b: string)
    ensures TrimLeft(a + b) == if AllSpace(a) then TrimLeft(b) else TrimLeft(a) + b
  {
    if a == [] {
      assert a + b == b;
    } else if IsSpace(a[0]) {
      assert (a + b)[1..] == a[1..] + b;
      TrimLeftConcat(a[1..], b);
      assert AllSpace(a) <==> AllSpace(a[1..]) by { assert a == [a[0]] + a[1..]; }
    }
  }

  lemma {:induction false} TrimRightConcat(a: string, c: char, b: string)
    requires !IsSpace(c)
    ensures a + [c] <= TrimRight(a + [c] + b)
    decreases |b|
  {
    var s := a + [c] + b;
    if b != [] && IsSpace(b[|b| - 1]) {
      assert s[..|s| - 1] == a + [c] + b[..|b| - 1];
      TrimRightConcat(a, c, b[..|b| - 1]);
    }
  }

  lemma {:induction false} TrimLeftTwice(s: string)
    ensures TrimLeft(TrimLeft(s)) == TrimLeft(s)
  {
    if s != [] && IsSpace(s[0]) { TrimLeftTwice(s[1..]); }
  }

  lemma FirstHash(a: string, t: string)
    requires NoChar(a, '#') && a + "#" <= t
    ensures IndexOf(t, '#') == |a| && t[..|a|] == a
  {
    forall j | 0 <= j < |a| ensures t[j] != '#' {
      assert t[j] == (a + "#")[j] == a[j];
    }
    assert t[|a|] == (a + "#")[|a|] == '#';
  }

  /** What precedes a comment, once the line is trimmed. */
  lemma CutComment(v: string, c: string)
    requires NoChar(v, '#')
    ensures var t := TrimSpace(v + "#" + c);
      |TrimLeft(v)| < |t| && IndexOf(t, '#') == |TrimLeft(v)| && t[..|TrimLeft(v)|] == TrimLeft(v)
  {
    hide TrimLeft, TrimRight, IndexOf, NoChar, AllSpace;
    var left := TrimLeft(v);
    assert v + "#" + c == v + ("#" + c) && left + "#" + c == left + ("#" + c);
    TrimLeftConcat(v, "#" + c);
    TrimLeftSpace(v);
    HashStays(c);
    TrimRightConcat(left, '#', c);
    TrimLeftHasNo(v);
    assert "#" == ['#'] && TrimLeft(v + "#" + c) == left + ['#'] + c;
    FirstHash(left, TrimSpace(v + "#" + c));
  }

  lemma HashStays(c: string)
    ensures TrimLeft("#" + c) == "#" + c
  {
    assert ("#" + c)[0] == '#';
  }

  lemma TrimOfLeft(s: string)
    ensures TrimSpace(TrimLeft(s)) == TrimSpace(s)
  {
    TrimLeftTwice(s);
  }

  lemma NoHashNoIndex(s: string)
    requires NoChar(s, '#')
    ensures IndexOf(s, '#') == |s| && (s != "" ==> s[0] != '#')
  {
  }

  /** A comment after a value changes nothing. */
  lemma CommentIsIgnored(value: string, comment: string)
    requires NoChar(value, '#')
    ensures ActiveValue(value + "#" + comment) == ActiveValue(value)
    ensures ActiveValue(value) == if TrimSpace(StripReturns(value)) == "" then None else Some(TrimSpace(StripReturns(value)))
  {
    hide TrimSpace, TrimLeft, IndexOf, NoChar;
    var v, c := StripReturns(value), StripReturns(comment);
    StripConcat(value + "#", comment);
    StripConcat(value, "#");
    StripHash();
    hide StripReturns;
    StrippedHasNo(value);
    TrimHasNo(v);
    NoHashNoIndex(TrimSpace(v));
    CutComment(v, c);
    TrimOfLeft(v);
    var t := TrimSpace(v + "#" + c);
    if TrimLeft(v) == "" {
      assert t[0] == '#' by { HashFirst(t); }
      TrimNothing(v);
    } else {
      NotHashFirst(t);
    }
  }

  lemma StripHash()
    ensures StripReturns("#") == "#"
  {
    assert "#"[..0] == "";
  }

  lemma HashFirst(t: string)
    requires |t| > 0 && IndexOf(t, '#') == 0
    ensures t[0] == '#'
  {
  }

  lemma NotHashFirst(t: string)
    requires |t| > 0 && IndexOf(t, '#') > 0
    ensures t[0] != '#'
  {
  }

  lemma TrimNothing(s: string)
    requires TrimLeft(s) == ""
    ensures TrimSpace(s) == ""
  {
  }

  lemma {:induction false} StrippedHasNo(s: string)
    requires NoChar(s, '#')
    ensures NoChar(StripReturns(s), '#')
  {
    if s != [] { StrippedHasNo(s[..|s| - 1]); }
  }

  lemma {:induction false} TrimLeftHasNo(s: string)
    requires NoChar(s, '#')
    ensures NoChar(TrimLeft(s), '#')
  {
    if s != [] && IsSpace(s[0]) { TrimLeftHasNo(s[1..]); }
  }

  lemma TrimHasNo(s: string)
    requires NoChar(s, '#')
    ensures NoChar(TrimSpace(s), '#')
  {
    TrimLeftHasNo(s);
    assert TrimSpace(s) <= TrimLeft(s);
  }
}
