/** Cleaning a WireGuard configuration keeps its meaning, and cleaning twice changes nothing more. */
module WireGuardMeaning {
  import opened Text
  import opened WireGuardParser
  import opened WireGuardSanitizer

  // ---- The injected line ----------------------------------------------------

  lemma {:induction false} CutNothing(s: string, b: char)
    requires NoChar(s, ' ')
    ensures CutAt(s, ' ', b) == s
  {
    if |s| >= 2 {
      CutNothing(s[1..], b);
    }
  }

  lemma NumberIsPlain(t: nat)
    ensures StripInlineComment(Itoa(t)) == Itoa(t) && TrimSpace(Itoa(t)) == Itoa(t)
    ensures NoChar(Itoa(t), '\n') && NoChar(Itoa(t), '=')
  {
    var n := Itoa(t);
    assert forall i :: 0 <= i < |n| ==> IsDigit(n[i]);
    CutNothing(n, '#');
    CutNothing(n, ';');
    TrimSpaceFixed(n);
  }

  lemma TrimLeadingSpace(s: string)
    ensures TrimSpace(" " + s) == TrimSpace(s)
  {
    assert (" " + s)[1..] == s;
  }

  lemma TableWord()
    ensures TrimSpace("Table ") == "Table" && ToLower("Table") == "table"
  {
    TrimSpaceFixed("Table");
    TrimSpaceAppend("Table", ' ');
    assert "Table" + [' '] == "Table ";
  }

  lemma FirstIndex(s: string, c: char, i: nat)
    requires i < |s| && s[i] == c && NoChar(s[..i], c)
    ensures IndexOf(s, c) == i
  {
    assert forall j :: 0 <= j < i ==> s[j] == s[..i][j];
  }

  lemma SplitAtEquals(key: string, value: string)
    requires NoChar(key, '=') && TrimSpace(key) != ""
    ensures SplitKeyValue(key + "=" + value) == Some((TrimSpace(key), TrimSpace(value)))
  {
    hide TrimSpace;
    var s := key + "=" + value;
    assert s[..|key|] == key && s[|key| + 1..] == value;
    FirstIndex(s, '=', |key|);
  }

  lemma TableLineSplits(t: nat)
    ensures SplitKeyValue(TableLine(t)) == Some(("Table", Itoa(t)))
  {
    hide TrimSpace, SplitKeyValue;
    var n := Itoa(t);
    NumberIsPlain(t);
    TableWord();
    TrimLeadingSpace(n);
    assert TableLine(t) == "Table " + "=" + (" " + n);
    SplitAtEquals("Table ", " " + n);
  }

  lemma TableLineIsTrimmed(t: nat)
    ensures TrimSpace(TableLine(t)) == TableLine(t) && TableLine(t) != "" && TableLine(t)[0] == 'T' && NoChar(TableLine(t), '\n')
  {
    var s, n := TableLine(t), Itoa(t);
    assert s[0] == 'T' && s[|s| - 1] == n[|n| - 1] && IsDigit(n[|n| - 1]);
    TrimSpaceFixed(s);
    hide TrimSpace;
    NumberIsPlain(t);
    assert NoChar("Table = ", '\n');
  }

  lemma TableLineIsSetting(t: nat)
    ensures Classify(TableLine(t)) == Setting("table", Itoa(t))
  {
    hide TrimSpace, SplitKeyValue, TableLine, ToLower;
    TableLineSplits(t);
    TableLineIsTrimmed(t);
    TableWord();
  }

  // ---- The Table line that counts -------------------------------------------

  /** The last Table value of the last [Interface] section. */
  datatype LastTable = NoInterface | Unset | Value(text: string)

  function NextLast(last: LastTable, section: string, line: Line): LastTable {
    if line == Header("interface") then Unset
    else if line.Setting? && line.key == "table" && section == "interface" then Value(StripInlineComment(line.value))
    else last
  }

  function LastTableOf(lines: seq<string>): LastTable {
    if lines == [] then NoInterface
    else
      var before := lines[..|lines| - 1];
      NextLast(LastTableOf(before), ReadLines(KeepAll, before).section, Classify(lines[|lines| - 1]))
  }

  // ---- The parser follows the cleaner ---------------------------------------

  function WithTable(r: Reading, table: string): Reading {
    r.(iface := r.iface.(table := table))
  }

  /** How the reading `r` of the raw lines, the cleaner's state `c` and the reading `r'` of its output fit. */
  ghost predicate Follows(t: nat, r: Reading, last: LastTable, c: Cleaning, r': Reading) {
    && r' == WithTable(r, r'.iface.table)
    && c.inInterface == (r.section == "interface")
    && (c.inInterface ==> c.seenTable == last.Value? && !last.NoInterface?)
    && (last.NoInterface? ==> r.iface.privateKey == "")
    && (last.Value? ==> r.iface.table == last.text && r'.iface.table == last.text)
    && (last.Unset? && !c.inInterface ==> r'.iface.table == Itoa(t))
  }

  lemma ReadSnoc(filter: Filter, lines: seq<string>, line: string)
    ensures ReadLines(filter, lines + [line]) == ReadLine(filter, ReadLines(filter, lines), Classify(line))
  {
    assert (lines + [line])[..|lines|] == lines;
  }

  lemma TableSetting(r: Reading, value: string)
    requires r.ok && r.section == "interface"
    ensures ReadLine(KeepAll, r, Setting("table", value)) == WithTable(r, StripInlineComment(value))
  {
  }

  lemma InjectionFollows(t: nat, r: Reading, last: LastTable, c: Cleaning)
    requires r.ok && Follows(t, r, last, c, ReadLines(KeepAll, c.out))
    ensures
      var r' := ReadLines(KeepAll, Injected(t, c).out);
      && r' == WithTable(r, r'.iface.table)
      && (last.Value? ==> r'.iface.table == last.text)
      && (last.Unset? ==> r'.iface.table == Itoa(t))
  {
    hide ReadLines, ReadLine, StripInlineComment, Classify, TableLine, Itoa;
    if c.inInterface && !c.seenTable {
      TableSetting(ReadLines(KeepAll, c.out), Itoa(t));
      ReadSnoc(KeepAll, c.out, TableLine(t));
      TableLineIsSetting(t);
      NumberIsPlain(t);
    }
  }

  /** The table of a reading matters only to Table settings. */
  lemma TableIsIndependent(r: Reading, table: string, line: Line)
    requires !(r.section == "interface" && line.Setting? && line.key == "table")
    ensures ReadLine(KeepAll, WithTable(r, table), line) == WithTable(ReadLine(KeepAll, r, line), table)
  {
    hide CsvList, StripInlineComment;
  }

  lemma FilterIsLocal(filter: Filter, r: Reading, line: Line)
    requires !(r.section == "interface" && line.Setting? && Drops(filter, line.key, line.value))
    ensures ReadLine(filter, r, line) == ReadLine(KeepAll, r, line)
  {
    hide WithInterfaceField;
  }

  // ---- What the filter leaves out -------------------------------------------

  function Hooks(f: Interface, key: string): seq<string>
    requires IsHook(key)
  {
    match key
    case "preup" => f.preUp
    case "postup" => f.postUp
    case "predown" => f.preDown
    case _ => f.postDown
  }

  /** Everything but DNS servers and hooks is the same in both. */
  ghost predicate SameEssentials(f: Interface, g: Interface) {
    f.privateKey == g.privateKey && f.addresses == g.addresses && f.extras == g.extras
  }

  ghost predicate SameReading(dns: bool, r: Reading, k: Reading) {
    && r.ok == k.ok && r.section == k.section && r.peers == k.peers
    && SameEssentials(r.iface, k.iface) && r.iface.table == k.iface.table
    && r.iface.dns == if dns then k.iface.dns else []
  }

  lemma SameReadingStep(dns: bool, r: Reading, k: Reading, line: Line)
    requires SameReading(dns, r, k)
    ensures SameReading(dns, ReadLine(Clean(dns), r, line), ReadLine(KeepAll, k, line))
  {
    hide CsvList, StripInlineComment, Contains, ToLower, AddExtra, WithPeerField;
  }

  lemma {:induction false} FilteredReading(dns: bool, lines: seq<string>)
    ensures SameReading(dns, ReadLines(Clean(dns), lines), ReadLines(KeepAll, lines))
  {
    hide ReadLine, Classify;
    if lines != [] {
      var n := |lines| - 1;
      FilteredReading(dns, lines[..n]);
      SameReadingStep(dns, ReadLines(Clean(dns), lines[..n]), ReadLines(KeepAll, lines[..n]), Classify(lines[n]));
    }
  }

  /** The hooks that the [Interface] sections name, with or without those of the legacy script. */
  function HookValues(lines: seq<string>, key: string, withLegacy: bool): seq<string> {
    if lines == [] then []
    else
      var before, line := lines[..|lines| - 1], Classify(lines[|lines| - 1]);
      var r := ReadLines(KeepAll, before);
      if r.ok && r.section == "interface" && line.Setting? && line.key == key
         && (withLegacy || !Contains(ToLower(line.value), LEGACY_SCRIPT))
      then HookValues(before, key, withLegacy) + [StripInlineComment(line.value)]
      else HookValues(before, key, withLegacy)
  }

  lemma HookStep(filter: Filter, r: Reading, line: Line, key: string)
    requires IsHook(key)
    ensures Hooks(ReadLine(filter, r, line).iface, key) ==
      if r.ok && r.section == "interface" && line.Setting? && line.key == key
         && (filter.KeepAll? || !Contains(ToLower(line.value), LEGACY_SCRIPT))
      then Hooks(r.iface, key) + [StripInlineComment(line.value)]
      else Hooks(r.iface, key)
  {
    hide CsvList, StripInlineComment, Contains, ToLower, AddExtra;
  }

  lemma {:induction false} HooksRead(filter: Filter, lines: seq<string>, key: string)
    requires IsHook(key)
    ensures Hooks(ReadLines(filter, lines).iface, key) == HookValues(lines, key, filter.KeepAll?)
  {
    hide ReadLine, Classify, StripInlineComment, Contains, ToLower;
    if lines != [] {
      var n := |lines| - 1;
      HooksRead(filter, lines[..n], key);
      HookStep(filter, ReadLines(filter, lines[..n]), Classify(lines[n]), key);
      if filter.Clean? {
        FilteredReading(filter.dnsSupported, lines[..n]);
      }
    }
  }

  // ---- The step -------------------------------------------------------------

  lemma FollowHeader(t: nat, dns: bool, r: Reading, last: LastTable, c: Cleaning, line: string)
    requires r.ok && Follows(t, r, last, c, ReadLines(KeepAll, c.out)) && Classify(line).Header?
    requires ReadLine(Clean(dns), r, Classify(line)).ok
    ensures
      var c1 := CleanLine(t, dns, c, line);
      Follows(t, ReadLine(Clean(dns), r, Classify(line)), NextLast(last, r.section, Classify(line)), c1, ReadLines(KeepAll, c1.out))
  {
    hide ReadLines, Classify, TableLine, Itoa;
    InjectionFollows(t, r, last, c);
    ReadSnoc(KeepAll, Injected(t, c).out, line);
    FilterIsLocal(Clean(dns), r, Classify(line));
    TableIsIndependent(r, ReadLines(KeepAll, Injected(t, c).out).iface.table, Classify(line));
  }

  lemma FollowSetting(t: nat, dns: bool, r: Reading, last: LastTable, c: Cleaning, line: string)
    requires r.ok && Follows(t, r, last, c, ReadLines(KeepAll, c.out)) && Classify(line).Setting?
    requires ReadLine(Clean(dns), r, Classify(line)).ok
    ensures
      var c1 := CleanLine(t, dns, c, line);
      Follows(t, ReadLine(Clean(dns), r, Classify(line)), NextLast(last, r.section, Classify(line)), c1, ReadLines(KeepAll, c1.out))
  {
    hide ReadLines, Classify, TableLine, Itoa, StripInlineComment, WithPeerField, Warned, Contains, ToLower, CsvList;
    var l, r' := Classify(line), ReadLines(KeepAll, c.out);
    ReadSnoc(KeepAll, c.out, line);
    if c.inInterface && Drops(Clean(dns), l.key, l.value) {
      WarnedKeepsOutput(c.(seenTable := c.seenTable || l.key == "table"), l.key);
    } else {
      FilterIsLocal(Clean(dns), r, l);
      if c.inInterface && l.key == "table" {
        TableSetting(r, l.value);
        TableSetting(r', l.value);
      } else {
        TableIsIndependent(r, r'.iface.table, l);
      }
    }
  }

  lemma WarnedKeepsOutput(c: Cleaning, key: string)
    ensures Warned(c, key) == c.(warnings := Warned(c, key).warnings, warned := Warned(c, key).warned)
  {
  }

  lemma FollowOther(t: nat, dns: bool, r: Reading, last: LastTable, c: Cleaning, line: string)
    requires r.ok && Follows(t, r, last, c, ReadLines(KeepAll, c.out)) && Classify(line).Skipped?
    ensures
      var c1 := CleanLine(t, dns, c, line);
      Follows(t, ReadLine(Clean(dns), r, Classify(line)), NextLast(last, r.section, Classify(line)), c1, ReadLines(KeepAll, c1.out))
  {
    hide ReadLines, Classify, TableLine, Itoa;
    ReadSnoc(KeepAll, c.out, line);
  }

  lemma {:induction false} CleanerIsFollowed(t: nat, dns: bool, lines: seq<string>)
    requires ReadLines(Clean(dns), lines).ok
    ensures
      var c := CleanLines(t, dns, lines);
      Follows(t, ReadLines(Clean(dns), lines), LastTableOf(lines), c, ReadLines(KeepAll, c.out))
  {
    hide ReadLine, Classify, CleanLine, NextLast, Follows, StripInlineComment;
    if lines == [] {
      StartFollows(t);
    } else {
      var n := |lines| - 1;
      var before, line, r := lines[..n], lines[n], ReadLines(Clean(dns), lines[..n]);
      FailureStays(Clean(dns), r, Classify(line));
      CleanerIsFollowed(t, dns, before);
      FilteredReading(dns, before);
      var c, last := CleanLines(t, dns, before), LastTableOf(before);
      match Classify(line) {
        case Header(_) => FollowHeader(t, dns, r, last, c, line);
        case Setting(_, _) => FollowSetting(t, dns, r, last, c, line);
        case Skipped => FollowOther(t, dns, r, last, c, line);
        case Malformed =>
      }
    }
  }

  lemma StartFollows(t: nat)
    ensures Follows(t, START, NoInterface, UNTOUCHED, START)
  {
  }

  lemma FailureStays(filter: Filter, r: Reading, line: Line)
    requires ReadLine(filter, r, line).ok
    ensures r.ok && !line.Malformed?
  {
  }

  // ---- Lines of the output --------------------------------------------------

  predicate Unbroken(lines: seq<string>) {
    forall i :: 0 <= i < |lines| ==> NoChar(lines[i], '\n')
  }

  predicate ShortLines(lines: seq<string>) {
    forall i :: 0 <= i < |lines| ==> |lines[i]| < MAX_LINE
  }

  lemma TableLineIsShort(t: nat)
    requires t <= MAX_INT
    ensures |TableLine(t)| < MAX_LINE
  {
    assert Pow10(9) == 1_000_000_000;
    assert Pow10(14) == 100_000_000_000_000;
    assert Pow10(19) == 10_000_000_000_000_000_000;
    ItoaLength(t, 19);
  }

  /** The output has no lines but the input's and the injected one. */
  lemma {:induction false} OutputLines(t: nat, dns: bool, lines: seq<string>)
    ensures
      var c := CleanLines(t, dns, lines);
      && (forall x :: x in Injected(t, c).out ==> x == TableLine(t) || x in lines)
      && (lines != [] || c.inInterface ==> c.out != [])
  {
    hide Classify, Drops, TableLine;
    if lines != [] {
      OutputLines(t, dns, lines[..|lines| - 1]);
      assert forall x :: x in lines[..|lines| - 1] ==> x in lines;
    }
  }

  lemma OutputIsPlain(t: nat, dns: bool, lines: seq<string>)
    requires lines != [] && Unbroken(lines)
    ensures Cleaned(t, dns, lines).out != [] && Unbroken(Cleaned(t, dns, lines).out)
    ensures t <= MAX_INT && ShortLines(lines) ==> ShortLines(Cleaned(t, dns, lines).out)
  {
    hide CleanLines, NoChar, TableLine;
    OutputLines(t, dns, lines);
    TableLineIsTrimmed(t);
    if t <= MAX_INT {
      TableLineIsShort(t);
    }
    var out := Cleaned(t, dns, lines).out;
    assert forall i :: 0 <= i < |out| ==> out[i] in out;
  }

  lemma {:induction false} JoinBlankLast(out: seq<string>)
    requires out != []
    ensures Join(out + [""], '\n') == Join(out, '\n') + "\n"
  {
    if |out| == 1 {
      assert (out + [""])[1..] == [""];
    } else {
      assert (out + [""])[1..] == out[1..] + [""];
      JoinBlankLast(out[1..]);
    }
  }

  /** The lines of the assembled text are the output lines, perhaps with an empty last line. */
  lemma AssembledLines(out: seq<string>)
    requires out != [] && Unbroken(out)
    ensures Split(Assembled(out), '\n') == out || Split(Assembled(out), '\n') == out + [""]
  {
    hide Split, Join;
    SplitJoin(out, '\n');
    SplitJoin(out + [""], '\n');
    JoinBlankLast(out);
  }

  lemma AssembledReads(out: seq<string>)
    requires out != [] && Unbroken(out) && ShortLines(out)
    ensures Parse(KeepAll, Assembled(out)) == Checked(ReadLines(KeepAll, out))
  {
    hide Assembled, ReadLines, Checked, Split;
    AssembledLines(out);
    ReadScanned(KeepAll, Assembled(out));
    ReadBlankLast(KeepAll, out);
    hide ScannedLines;
  }

  lemma RawReads(filter: Filter, raw: string)
    requires Parse(filter, raw).Some?
    ensures Parse(filter, raw) == Checked(ReadLines(filter, Split(raw, '\n'))) && ShortLines(Split(raw, '\n'))
  {
    hide ReadLines, Checked, Split;
    ReadScanned(filter, raw);
    hide ScannedLines;
  }

  // ---- Main results ---------------------------------------------------------

  /** A table to write: the configuration's own, or any if it has none. */
  predicate SuitableTable(c: Config, t: nat) {
    0 < t <= MAX_INT && (c.routeTable > 0 ==> t == c.routeTable)
  }

  lemma {:induction false} LastTableIsTrimmed(lines: seq<string>)
    ensures LastTableOf(lines).Value? ==> TrimSpace(LastTableOf(lines).text) == LastTableOf(lines).text
  {
    hide Classify, TrimSpace, ReadLines;
    if lines != [] {
      LastTableIsTrimmed(lines[..|lines| - 1]);
      var l := Classify(lines[|lines| - 1]);
      if l.Setting? {
        TrimSpaceIdempotent(CutAt(CutAt(l.value, ' ', '#'), ' ', ';'));
      }
    }
  }

  lemma TableRead(t: nat, last: LastTable, c: Config, raw': string)
    requires last.Value? ==> TrimSpace(last.text) == last.text
    requires SuitableTable(c, t) && TableNumber(c.iface.table) == Some(c.routeTable) && !last.NoInterface?
    requires last.Value? ==> c.iface.table == last.text && raw' == last.text
    requires last.Unset? ==> raw' == Itoa(t)
    ensures TableNumber(raw') == Some(if last == Value("") then 0 else t)
  {
    NumberIsPlain(t);
    AtoiItoa(t);
  }

  lemma HooksIgnoreTable(f: Interface, table: string, key: string)
    requires IsHook(key)
    ensures Hooks(f.(table := table), key) == Hooks(f, key)
  {
  }

  lemma CheckedWithTable(dns: bool, k: Reading, r: Reading, table: string)
    requires SameReading(dns, r, k) && Checked(k).Some? && TableNumber(table).Some?
    ensures Checked(WithTable(r, table)) == Some(Config(r.iface.(table := table), r.peers, TableNumber(table).value))
  {
    hide TableNumber;
  }

  /**
    For every configuration that parses, the cleaned text parses too, to the same
    keys, addresses, peers and further settings. DNS servers stay iff they are
    supported; exactly the hooks of the legacy script go. The table read back is
    `t`, unless the last Table line of the last [Interface] section is empty.
   */
  lemma SanitizingKeepsMeaning(raw: string, t: nat, dns: bool)
    requires Parse(KeepAll, raw).Some? && SuitableTable(Parse(KeepAll, raw).value, t)
    ensures Sanitize(raw, t, dns).Some? && Parse(KeepAll, Sanitize(raw, t, dns).value.0).Some?
    ensures
      var c, c' := Parse(KeepAll, raw).value, Parse(KeepAll, Sanitize(raw, t, dns).value.0).value;
      var lines := Split(raw, '\n');
      && SameEssentials(c.iface, c'.iface) && c.peers == c'.peers
      && c'.iface.dns == (if dns then c.iface.dns else [])
      && (forall key | IsHook(key) :: Hooks(c.iface, key) == HookValues(lines, key, true))
      && (forall key | IsHook(key) :: Hooks(c'.iface, key) == HookValues(lines, key, false))
      && c'.routeTable == if LastTableOf(lines) == Value("") then 0 else t
  {
    hide ReadLines, LastTableOf, HookValues, Split, CleanLines, TableNumber, StripInlineComment, LinesFit, ScannedLines,
         Hooks, Assembled, Join;
    var lines := Split(raw, '\n');
    RawReads(KeepAll, raw);
    var c := Parse(KeepAll, raw).value;
    var k, r := ReadLines(KeepAll, lines), ReadLines(Clean(dns), lines);
    FilteredReading(dns, lines);
    forall key | IsHook(key)
      ensures Hooks(k.iface, key) == HookValues(lines, key, true) && Hooks(r.iface, key) == HookValues(lines, key, false)
    {
      HooksRead(KeepAll, lines, key);
      HooksRead(Clean(dns), lines, key);
    }
    forall key | IsHook(key) ensures Hooks(r.iface.(table := ReadLines(KeepAll, Cleaned(t, dns, lines).out).iface.table), key) == Hooks(r.iface, key) {
      HooksIgnoreTable(r.iface, ReadLines(KeepAll, Cleaned(t, dns, lines).out).iface.table, key);
    }
    var s := CleanLines(t, dns, lines);
    CleanerIsFollowed(t, dns, lines);
    InjectionFollows(t, r, LastTableOf(lines), s);
    OutputIsPlain(t, dns, lines);
    var out := Injected(t, s).out;
    var r' := ReadLines(KeepAll, out);
    AssembledReads(out);
    LastTableIsTrimmed(lines);
    TableRead(t, LastTableOf(lines), c, r'.iface.table);
    CheckedWithTable(dns, k, r, r'.iface.table);
  }

  predicate EmptyTableLine(lines: seq<string>, i: nat)
    requires i < |lines|
  {
    var l := Classify(lines[i]);
    ReadLines(KeepAll, lines[..i]).section == "interface" && l.Setting? && l.key == "table" && StripInlineComment(l.value) == ""
  }

  /** An [Interface] section without an empty Table line never loses the table. */
  lemma {:induction false} NoEmptyTableLine(lines: seq<string>)
    requires forall i :: 0 <= i < |lines| ==> !EmptyTableLine(lines, i)
    ensures LastTableOf(lines) != Value("")
  {
    hide ReadLines, Classify, StripInlineComment;
    if lines != [] {
      var n := |lines| - 1;
      assert !EmptyTableLine(lines, n);
      forall i | 0 <= i < n
        ensures !EmptyTableLine(lines[..n], i)
      {
        assert !EmptyTableLine(lines, i) && lines[..n][..i] == lines[..i];
      }
      NoEmptyTableLine(lines[..n]);
    }
  }

  // ---- Cleaning twice -------------------------------------------------------

  /** State `d` of the second pass over the output of a first pass in state `c`. */
  ghost predicate Repeats(c: Cleaning, d: Cleaning) {
    && d.out == c.out && d.inInterface == c.inInterface && (c.inInterface ==> d.seenTable == c.seenTable)
    && d.warnings == [] && d.warned == {}
  }

  lemma CleanSnoc(t: nat, dns: bool, lines: seq<string>, line: string)
    ensures CleanLines(t, dns, lines + [line]) == CleanLine(t, dns, CleanLines(t, dns, lines), line)
  {
    assert (lines + [line])[..|lines|] == lines;
  }

  lemma InjectionRepeats(t: nat, t': nat, dns: bool, c: Cleaning)
    requires Repeats(c, CleanLines(t', dns, c.out))
    ensures
      var c1 := Injected(t, c);
      var d := CleanLines(t', dns, c1.out);
      Repeats(c1, d) && Injected(t', d) == d
  {
    hide CleanLines, Classify, TableLine;
    if c.inInterface && !c.seenTable {
      CleanSnoc(t', dns, c.out, TableLine(t));
      TableLineIsSetting(t);
    }
  }

  lemma LineRepeats(t: nat, t': nat, dns: bool, c: Cleaning, line: string)
    requires Repeats(c, CleanLines(t', dns, c.out))
    ensures var c1 := CleanLine(t, dns, c, line); Repeats(c1, CleanLines(t', dns, c1.out))
  {
    hide CleanLines, Classify, TableLine, Contains, ToLower, Injected;
    if Classify(line).Header? {
      InjectionRepeats(t, t', dns, c);
      CleanSnoc(t', dns, Injected(t, c).out, line);
    } else {
      CleanSnoc(t', dns, c.out, line);
    }
  }

  lemma {:induction false} SecondPassRepeats(t: nat, t': nat, dns: bool, lines: seq<string>)
    ensures var c := CleanLines(t, dns, lines); Repeats(c, CleanLines(t', dns, c.out))
  {
    hide CleanLine;
    if lines != [] {
      var n := |lines| - 1;
      SecondPassRepeats(t, t', dns, lines[..n]);
      LineRepeats(t, t', dns, CleanLines(t, dns, lines[..n]), lines[n]);
    }
  }

  lemma BlankRepeats(t: nat, dns: bool, lines: seq<string>)
    ensures CleanLines(t, dns, lines + [""]) == CleanLines(t, dns, lines).(out := CleanLines(t, dns, lines).out + [""])
  {
    hide CleanLines;
    CleanSnoc(t, dns, lines, "");
    assert Classify("") == Skipped;
  }

  lemma AssembledAgain(text: string)
    requires HasSuffix(text, "\n")
    ensures Assembled(Split(text, '\n')) == text
  {
    hide Join, Split;
    JoinSplit(text, '\n');
  }

  lemma AssembledEnds(out: seq<string>)
    ensures HasSuffix(Assembled(out), "\n")
  {
    hide Join;
  }

  /** Cleaning the cleaned text again, with any table, changes nothing and warns of nothing. */
  lemma SanitizingTwice(raw: string, t: nat, t': nat, dns: bool)
    requires Sanitize(raw, t, dns).Some?
    ensures Sanitize(Sanitize(raw, t, dns).value.0, t', dns) == Some((Sanitize(raw, t, dns).value.0, []))
  {
    hide CleanLines, CleanLine, Parse, Split, Assembled, HasSuffix;
    var lines := Split(raw, '\n');
    var out := Cleaned(t, dns, lines).out;
    var text := Assembled(out);
    SecondPassRepeats(t, t', dns, lines);
    InjectionRepeats(t, t', dns, CleanLines(t, dns, lines));
    OutputIsPlain(t, dns, lines);
    AssembledLines(out);
    BlankRepeats(t', dns, out);
    AssembledEnds(out);
    AssembledAgain(text);
  }

  // ---- Warnings -------------------------------------------------------------

  lemma QuietStep(t: nat, dns: bool, c: Cleaning, line: string)
    requires CleanLine(t, dns, c, line).warned == {}
    requires (c.warnings == []) == (c.warned == {})
    ensures c.warned == {} && CleanLine(t, dns, c, line).warnings == []
    ensures c.inInterface && Classify(line).Setting? ==> !Drops(Clean(dns), Classify(line).key, Classify(line).value)
  {
    hide Classify, Drops;
  }

  lemma WarnedIffWarnings(t: nat, dns: bool, lines: seq<string>)
    ensures var c := CleanLines(t, dns, lines); (c.warnings == []) == (c.warned == {})
  {
    hide Classify, Drops;
  }

  /** Nothing is removed without a warning. */
  lemma {:induction false} NoSilentRemoval(t: nat, dns: bool, lines: seq<string>)
    requires CleanLines(t, dns, lines).warnings == []
    ensures ReadLines(Clean(dns), lines) == ReadLines(KeepAll, lines)
  {
    hide Classify, CleanLine, ReadLine, Follows;
    WarnedIffWarnings(t, dns, lines);
    if lines != [] {
      var n := |lines| - 1;
      WarnedIffWarnings(t, dns, lines[..n]);
      QuietStep(t, dns, CleanLines(t, dns, lines[..n]), lines[n]);
      NoSilentRemoval(t, dns, lines[..n]);
      var r := ReadLines(Clean(dns), lines[..n]);
      if r.ok {
        CleanerIsFollowed(t, dns, lines[..n]);
        FollowsSection(t, r, LastTableOf(lines[..n]), CleanLines(t, dns, lines[..n]), ReadLines(KeepAll, CleanLines(t, dns, lines[..n]).out));
        FilterIsLocal(Clean(dns), r, Classify(lines[n]));
      } else {
        FailedStays(r, Classify(lines[n]), dns);
      }
    }
  }

  lemma FollowsSection(t: nat, r: Reading, last: LastTable, c: Cleaning, r': Reading)
    requires Follows(t, r, last, c, r')
    ensures c.inInterface == (r.section == "interface")
  {
  }

  lemma FailedStays(r: Reading, line: Line, dns: bool)
    requires !r.ok
    ensures ReadLine(Clean(dns), r, line) == r && ReadLine(KeepAll, r, line) == r
  {
  }
}
