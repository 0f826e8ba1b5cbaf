/** Cleaning of WireGuard configuration files, and what the parser makes of the result. */
module WireGuardSanitizer {
  import opened Text
  import opened WireGuardParser

  datatype Warning = DnsRemoved | HookRemoved(key: string)

  datatype Cleaning = Cleaning(inInterface: bool, seenTable: bool, out: seq<string>, warnings: seq<Warning>, warned: set<string>)

  const UNTOUCHED := Cleaning(false, false, [], [], {})

  function TableLine(t: nat): string {
    "Table = " + Itoa(t)
  }

  function Injected(t: nat, c: Cleaning): Cleaning {
    if c.inInterface && !c.seenTable then c.(out := c.out + [TableLine(t)], seenTable := true) else c
  }

  function Warned(c: Cleaning, key: string): Cleaning {
    if key in c.warned then c
    else c.(warnings := c.warnings + [if key == "dns" then DnsRemoved else HookRemoved(key)], warned := c.warned + {key})
  }

  function CleanLine(t: nat, dns: bool, c: Cleaning, line: string): Cleaning {
    var l := Classify(line);
    if l.Header? then
      var c1 := Injected(t, c);
      var entered := l.section == "interface";
      c1.(inInterface := entered, seenTable := !entered && c1.seenTable, out := c1.out + [line])
    else if c.inInterface && l.Setting? then
      var c1 := c.(seenTable := c.seenTable || l.key == "table");
      if Drops(Clean(dns), l.key, l.value) then Warned(c1, l.key) else c1.(out := c1.out + [line])
    else c.(out := c.out + [line])
  }

  function CleanLines(t: nat, dns: bool, lines: seq<string>): Cleaning {
    if lines == [] then UNTOUCHED
    else CleanLine(t, dns, CleanLines(t, dns, lines[..|lines| - 1]), lines[|lines| - 1])
  }

  function Cleaned(t: nat, dns: bool, lines: seq<string>): Cleaning {
    Injected(t, CleanLines(t, dns, lines))
  }

  function Assembled(out: seq<string>): string {
    var joined := Join(out, '\n');
    if HasSuffix(joined, "\n") then joined else joined + "\n"
  }

  /** The cleaned text, before it is validated. */
  function CleanText(raw: string, t: nat, dns: bool): string {
    Assembled(Cleaned(t, dns, Split(raw, '\n')).out)
  }

  function Sanitize(raw: string, t: nat, dns: bool): Option<(string, seq<Warning>)> {
    if Parse(KeepAll, CleanText(raw, t, dns)).None? then None
    else Some((CleanText(raw, t, dns), Cleaned(t, dns, Split(raw, '\n')).warnings))
  }

  // ---- Comments are no settings ---------------------------------------------

  predicate Watched(key: string) {
    key == "table" || key == "dns" || IsHook(key)
  }

  lemma KeyIsTrimmed(s: string)
    requires SplitKeyValue(s).Some?
    ensures TrimSpace(SplitKeyValue(s).value.0) == SplitKeyValue(s).value.0
  {
    var i := IndexOf(s, '=');
    if i < |s| {
      TrimSpaceIdempotent(s[..i]);
    } else {
      TrimSpaceFixed(s[..FirstSpace(s)]);
    }
  }

  lemma CommentKey(s: string)
    requires s != "" && (s[0] == '#' || s[0] == ';') && SplitKeyValue(s).Some?
    ensures !Watched(ToLower(SplitKeyValue(s).value.0))
  {
    var key := SplitKeyValue(s).value.0;
    var i := IndexOf(s, '=');
    if i < |s| {
      assert TrimLeft(s[..i]) == s[..i];
      assert key <= s[..i];
    }
    assert key[0] == s[0];
    assert ToLower(key)[0] == s[0];
  }

  /** The raw tests on a trimmed line see the same headers and watched settings as the parser. */
  lemma RawTests(line: string)
    ensures
      var s, kv := TrimSpace(line), SplitKeyValue(TrimSpace(line));
      && (IsHeader(s) <==> Classify(line).Header?)
      && (Classify(line).Setting? ==> kv.Some? && Classify(line) == Setting(ToLower(TrimSpace(kv.value.0)), kv.value.1))
      && (kv.Some? && !IsHeader(s) && Watched(ToLower(TrimSpace(kv.value.0))) ==> Classify(line).Setting?)
  {
    hide SplitKeyValue, TrimSpace, Watched;
    var s, kv := TrimSpace(line), SplitKeyValue(TrimSpace(line));
    if kv.Some? {
      KeyIsTrimmed(s);
      if s != "" && (s[0] == '#' || s[0] == ';') {
        CommentKey(s);
      } else if s == "" {
        EmptyHasNoKey();
      }
    }
  }

  lemma EmptyHasNoKey()
    ensures SplitKeyValue("").None?
  {
  }

  method SanitizeWireGuardConfig(raw: string, routeTable: nat, dnsSupported: bool) returns (r: Option<(string, seq<Warning>)>)
    ensures r == Sanitize(raw, routeTable, dnsSupported)
  {
    hide Split, Parse, TrimSpace, SplitKeyValue, Classify, Join, Contains, ToLower, SectionName;
    var lines := Split(raw, '\n');
    var out, warnings, warned, inInterface, seenTable := [], [], {}, false, false;
    for i := 0 to |lines|
      invariant Cleaning(inInterface, seenTable, out, warnings, warned) == CleanLines(routeTable, dnsSupported, lines[..i])
    {
      assert lines[..i + 1][..i] == lines[..i];
      hide CleanLines;
      var line := lines[i];
      RawTests(line);
      var trimmed := TrimSpace(line);
      if IsHeader(trimmed) {
        if inInterface && !seenTable {
          out, seenTable := out + [TableLine(routeTable)], true;
        }
        inInterface := SectionName(trimmed) == "interface";
        if inInterface {
          seenTable := false;
        }
        HeaderSection(line);
        out := out + [line];
        continue;
      }
      if inInterface {
        var kv := SplitKeyValue(trimmed);
        if kv.Some? {
          var lowerKey := ToLower(TrimSpace(kv.value.0));
          if lowerKey == "table" {
            seenTable := true;
          }
          if lowerKey == "dns" && !dnsSupported {
            if "dns" !in warned {
              warnings, warned := warnings + [DnsRemoved], warned + {"dns"};
            }
            continue;
          }
          if IsHook(lowerKey) && Contains(ToLower(kv.value.1), LEGACY_SCRIPT) {
            if lowerKey !in warned {
              warnings, warned := warnings + [HookRemoved(lowerKey)], warned + {lowerKey};
            }
            continue;
          }
        }
      }
      out := out + [line];
    }
    assert lines[..|lines|] == lines;
    if inInterface && !seenTable {
      out := out + [TableLine(routeTable)];
    }
    var joined := Join(out, '\n');
    if !HasSuffix(joined, "\n") {
      joined := joined + "\n";
    }
    var c := ParseWireGuardConfig(joined);
    return if c.None? then None else Some((joined, warnings));
  }

  lemma HeaderSection(line: string)
    requires IsHeader(TrimSpace(line))
    ensures Classify(line) == Header(SectionName(TrimSpace(line)))
  {
  }

  // ---- Which lines stay -----------------------------------------------------

  /** The line after these stands under an [Interface] header. */
  predicate UnderInterface(lines: seq<string>) {
    lines != [] &&
    var l := Classify(lines[|lines| - 1]);
    if l.Header? then l.section == "interface" else UnderInterface(lines[..|lines| - 1])
  }

  /** Line `i` is a setting that the cleaner must remove: unsupported DNS or a hook of the legacy script. */
  predicate MustGo(lines: seq<string>, dns: bool, i: nat, key: string)
    requires i < |lines|
  {
    var l := Classify(lines[i]);
    && UnderInterface(lines[..i]) && l.Setting? && l.key == key
    && ((key == "dns" && !dns) || (IsHook(key) && Contains(ToLower(l.value), LEGACY_SCRIPT)))
  }

  ghost predicate Goes(lines: seq<string>, dns: bool, i: nat)
    requires i < |lines|
  {
    exists key :: MustGo(lines, dns, i, key)
  }

  /** The lines that need not go, in order. */
  ghost function Survivors(lines: seq<string>, dns: bool): seq<string> {
    if lines == [] then []
    else
      var n := |lines| - 1;
      Survivors(lines[..n], dns) + if Goes(lines, dns, n) then [] else [lines[n]]
  }

  /** `out` is `base` with some copies of `x` put in. */
  ghost predicate Inserts(out: seq<string>, base: seq<string>, x: string)
    decreases |out|
  {
    if out == [] then base == []
    else
      var front, last := out[..|out| - 1], out[|out| - 1];
      (last == x && Inserts(front, base, x)) || (base != [] && base[|base| - 1] == last && Inserts(front, base[..|base| - 1], x))
  }

  lemma InsertsMore(out: seq<string>, base: seq<string>, x: string, l: string)
    requires Inserts(out, base, x)
    ensures Inserts(out + [x], base, x) && Inserts(out + [l], base + [l], x)
  {
    assert (out + [x])[..|out|] == out && (out + [l])[..|out|] == out && (base + [l])[..|base|] == base;
  }

  lemma GoesIsDrop(lines: seq<string>, dns: bool)
    requires lines != []
    ensures var n := |lines| - 1; var l := Classify(lines[n]);
      Goes(lines, dns, n) <==> UnderInterface(lines[..n]) && l.Setting? && Drops(Clean(dns), l.key, l.value)
  {
    hide Classify, UnderInterface, Contains, ToLower, IsHook;
    var n := |lines| - 1;
    var l := Classify(lines[n]);
    if UnderInterface(lines[..n]) && l.Setting? && Drops(Clean(dns), l.key, l.value) {
      assert MustGo(lines, dns, n, l.key);
    }
  }

  lemma LineStays(t: nat, dns: bool, lines: seq<string>, c: Cleaning, base: seq<string>)
    requires lines != [] && c.inInterface == UnderInterface(lines[..|lines| - 1]) && Inserts(c.out, base, TableLine(t))
    ensures var n := |lines| - 1; var c' := CleanLine(t, dns, c, lines[n]);
      && c'.inInterface == UnderInterface(lines)
      && Inserts(c'.out, base + (if Goes(lines, dns, n) then [] else [lines[n]]), TableLine(t))
  {
    hide Classify, TableLine, Goes, Inserts, Drops, Warned, UnderInterface;
    var n := |lines| - 1;
    var l, c1 := Classify(lines[n]), Injected(t, c);
    GoesIsDrop(lines, dns);
    UnderNext(lines);
    InsertsMore(c.out, base, TableLine(t), lines[n]);
    InsertsMore(c1.out, base, TableLine(t), lines[n]);
    assert base + [] == base;
    if l.Setting? { WarnedOut(c.(seenTable := c.seenTable || l.key == "table"), l.key); }
  }

  lemma UnderNext(lines: seq<string>)
    requires lines != []
    ensures var l := Classify(lines[|lines| - 1]);
      UnderInterface(lines) <==> if l.Header? then l.section == "interface" else UnderInterface(lines[..|lines| - 1])
  {
    hide Classify;
  }

  lemma WarnedOut(c: Cleaning, key: string)
    ensures Warned(c, key).out == c.out && Warned(c, key).inInterface == c.inInterface
  {
  }

  lemma {:induction false} LinesStay(t: nat, dns: bool, lines: seq<string>)
    ensures var c := CleanLines(t, dns, lines);
      c.inInterface == UnderInterface(lines) && Inserts(c.out, Survivors(lines, dns), TableLine(t))
  {
    hide CleanLine, TableLine, Goes, Inserts, Classify;
    if lines == [] {
      NothingInserted(TableLine(t));
    } else {
      var n := |lines| - 1;
      LinesStay(t, dns, lines[..n]);
      LineStays(t, dns, lines, CleanLines(t, dns, lines[..n]), Survivors(lines[..n], dns));
    }
  }

  lemma NothingInserted(x: string)
    ensures Inserts([], [], x)
  {
  }

  /** Cleaning removes exactly the lines that must go, keeps all others as they are, and adds only Table lines. */
  lemma CleanedLines(t: nat, dns: bool, lines: seq<string>)
    ensures Inserts(Cleaned(t, dns, lines).out, Survivors(lines, dns), TableLine(t))
  {
    hide CleanLines, TableLine, Inserts, Survivors;
    LinesStay(t, dns, lines);
    InsertsMore(CleanLines(t, dns, lines).out, Survivors(lines, dns), TableLine(t), "");
  }

  // ---- Which warnings there are ---------------------------------------------

  /** Some line with the key must go. */
  ghost predicate SomeGoes(lines: seq<string>, dns: bool, key: string) {
    exists i :: 0 <= i < |lines| && MustGo(lines, dns, i, key)
  }

  function WarningFor(key: string): Warning {
    if key == "dns" then DnsRemoved else HookRemoved(key)
  }

  ghost predicate IsWarned(keys: set<string>, w: Warning) {
    exists key :: key in keys && w == WarningFor(key)
  }

  lemma WarningInjective(a: string, b: string)
    ensures WarningFor(a) == WarningFor(b) <==> a == b
  {
  }

  lemma SomeGoesSplit(lines: seq<string>, dns: bool, key: string)
    requires lines != []
    ensures var n := |lines| - 1; SomeGoes(lines, dns, key) <==> SomeGoes(lines[..n], dns, key) || MustGo(lines, dns, n, key)
  {
    hide Classify, UnderInterface, Contains, ToLower, IsHook;
    var n := |lines| - 1;
    forall i | 0 <= i < n ensures MustGo(lines[..n], dns, i, key) <==> MustGo(lines, dns, i, key) {
      assert lines[..n][..i] == lines[..i];
    }
  }

  lemma {:induction false} WarningsAre(t: nat, dns: bool, lines: seq<string>)
    ensures var c := CleanLines(t, dns, lines);
      && (forall key :: key in c.warned <==> SomeGoes(lines, dns, key))
      && WarningsFor(c)
      && (forall i, j :: 0 <= i < j < |c.warnings| ==> c.warnings[i] != c.warnings[j])
  {
    hide Classify, TableLine, Contains, ToLower, UnderInterface, SomeGoes, MustGo;
    if lines == [] {
      NothingGoes(dns);
    } else {
      var n := |lines| - 1;
      WarningsAre(t, dns, lines[..n]);
      LinesStay(t, dns, lines[..n]);
      forall key
        ensures SomeGoes(lines, dns, key) <==> SomeGoes(lines[..n], dns, key) || MustGo(lines, dns, n, key)
      {
        SomeGoesSplit(lines, dns, key);
      }
      OneWarning(t, dns, lines, CleanLines(t, dns, lines[..n]));
    }
  }

  lemma NothingGoes(dns: bool)
    ensures forall key :: !SomeGoes([], dns, key)
  {
  }

  lemma OneWarning(t: nat, dns: bool, lines: seq<string>, c: Cleaning)
    requires lines != [] && c.inInterface == UnderInterface(lines[..|lines| - 1])
    requires WarningsFor(c)
    requires forall i, j :: 0 <= i < j < |c.warnings| ==> c.warnings[i] != c.warnings[j]
    ensures var c' := CleanLine(t, dns, c, lines[|lines| - 1]);
      && (forall key :: key in c'.warned <==> key in c.warned || MustGo(lines, dns, |lines| - 1, key))
      && WarningsFor(c')
      && (forall i, j :: 0 <= i < j < |c'.warnings| ==> c'.warnings[i] != c'.warnings[j])
  {
    hide Classify, TableLine, Contains, ToLower, UnderInterface;
    var c', l := CleanLine(t, dns, c, lines[|lines| - 1]), Classify(lines[|lines| - 1]);
    if c'.warned != c.warned {
      assert c'.warned == c.warned + {l.key} && c'.warnings == c.warnings + [WarningFor(l.key)];
      MoreWarned(c.warned, l.key);
    }
  }

  lemma MoreWarned(keys: set<string>, key: string)
    ensures forall w :: IsWarned(keys + {key}, w) <==> IsWarned(keys, w) || w == WarningFor(key)
    ensures key !in keys ==> !IsWarned(keys, WarningFor(key))
  {
    hide WarningFor;
    forall k | k in keys ensures WarningFor(k) == WarningFor(key) <==> k == key {
      WarningInjective(k, key);
    }
    forall w | IsWarned(keys, w) ensures IsWarned(keys + {key}, w) {
      var k :| k in keys && w == WarningFor(k);
      assert k in keys + {key};
    }
    assert key in keys + {key};
  }

  ghost predicate WarningsFor(c: Cleaning) {
    forall w :: w in c.warnings <==> IsWarned(c.warned, w)
  }

  lemma WarningAt(c: Cleaning, w: Warning)
    requires WarningsFor(c)
    ensures w in c.warnings <==> IsWarned(c.warned, w)
  {
    hide IsWarned;
  }

  /** A line of the kind that the warning speaks of must go. */
  ghost predicate Justified(lines: seq<string>, dns: bool, w: Warning) {
    exists key :: SomeGoes(lines, dns, key) && w == WarningFor(key)
  }

  /** The caller is warned once for each removed kind of setting, and of nothing else. */
  lemma WarningsMatchRemovals(t: nat, dns: bool, lines: seq<string>, w: Warning)
    ensures var c := Cleaned(t, dns, lines);
      && (w in c.warnings <==> Justified(lines, dns, w))
      && (forall i, j :: 0 <= i < j < |c.warnings| ==> c.warnings[i] != c.warnings[j])
  {
    hide CleanLine, TableLine, SomeGoes, Classify;
    var c := CleanLines(t, dns, lines);
    WarningsAre(t, dns, lines);
    WarningAt(c, w);
    if IsWarned(c.warned, w) {
      var key :| key in c.warned && w == WarningFor(key);
      assert SomeGoes(lines, dns, key);
    }
    if Justified(lines, dns, w) {
      var key :| SomeGoes(lines, dns, key) && w == WarningFor(key);
      assert key in c.warned;
      assert IsWarned(c.warned, w);
    }
  }
}
