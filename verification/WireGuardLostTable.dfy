/** A configuration whose table is lost in cleaning. */
module WireGuardLostTable {
  import opened Text
  import opened WireGuardParser
  import opened WireGuardSanitizer
  import opened WireGuardMeaning

  const LINES := ["[interface]", "privatekey=k", "address=a", "table=", "[peer]", "publickey=p", "allowedips=i", "endpoint=e"]

  const RAW := Join(LINES, '\n')

  /** A line that trimming and lower-casing leave alone. */
  predicate PlainText(s: string) {
    s != "" && !IsSpace(s[0]) && !IsSpace(s[|s| - 1]) && ToLower(s) == s
  }

  lemma SettingLine(key: string, value: string)
    requires PlainText(key) && NoChar(key, '=') && key[0] != '#' && key[0] != ';' && key[0] != '['
    requires value == "" || (!IsSpace(value[0]) && !IsSpace(value[|value| - 1]))
    ensures Classify(key + "=" + value) == Setting(key, value)
  {
    var s := key + "=" + value;
    assert s[0] == key[0] && s[|s| - 1] == if value == "" then '=' else value[|value| - 1];
    TrimSpaceFixed(s);
    TrimSpaceFixed(key);
    TrimSpaceFixed(value);
    hide TrimSpace, SplitKeyValue;
    SplitAtEquals(key, value);
  }

  lemma HeaderLine(name: string)
    requires PlainText(name)
    ensures Classify("[" + name + "]") == Header(name)
  {
    var s := "[" + name + "]";
    assert s[0] == '[' && s[|s| - 1] == ']' && s[1..|s| - 1] == name;
    TrimSpaceFixed(s);
    TrimSpaceFixed(name);
  }

  lemma LettersArePlain(s: string)
    requires s != "" && forall i :: 0 <= i < |s| ==> 'a' <= s[i] <= 'z'
    ensures PlainText(s) && NoChar(s, '=')
  {
    assert ToLower(s) == s;
  }

  lemma Words()
    ensures PlainText("interface") && PlainText("peer")
    ensures forall s :: s in ["privatekey", "address", "table", "publickey", "allowedips", "endpoint"] ==> PlainText(s) && NoChar(s, '=')
  {
    hide PlainText, NoChar;
    LettersArePlain("interface");
    LettersArePlain("peer");
    LettersArePlain("privatekey");
    LettersArePlain("address");
    LettersArePlain("table");
    LettersArePlain("publickey");
    LettersArePlain("allowedips");
    LettersArePlain("endpoint");
  }

  lemma InterfaceClassified()
    ensures Classify(LINES[0]) == Header("interface") && Classify(LINES[1]) == Setting("privatekey", "k")
    ensures Classify(LINES[2]) == Setting("address", "a") && Classify(LINES[3]) == Setting("table", "")
  {
    hide Classify, PlainText, NoChar;
    Words();
    PlainStarts();
    HeaderLine("interface");
    SettingLine("privatekey", "k");
    SettingLine("address", "a");
    SettingLine("table", "");
    assert "[" + "interface" + "]" == LINES[0] && "privatekey" + "=" + "k" == LINES[1];
    assert "address" + "=" + "a" == LINES[2] && "table" + "=" + "" == LINES[3];
  }

  lemma PeerClassified()
    ensures Classify(LINES[4]) == Header("peer") && Classify(LINES[5]) == Setting("publickey", "p")
    ensures Classify(LINES[6]) == Setting("allowedips", "i") && Classify(LINES[7]) == Setting("endpoint", "e")
  {
    hide Classify, PlainText, NoChar;
    Words();
    PlainStarts();
    HeaderLine("peer");
    SettingLine("publickey", "p");
    SettingLine("allowedips", "i");
    SettingLine("endpoint", "e");
    assert "[" + "peer" + "]" == LINES[4] && "publickey" + "=" + "p" == LINES[5];
    assert "allowedips" + "=" + "i" == LINES[6] && "endpoint" + "=" + "e" == LINES[7];
  }

  lemma PlainStarts()
    ensures !IsSpace('k') && !IsSpace('a') && !IsSpace('p') && !IsSpace('i') && !IsSpace('e')
  {
  }

  /** A value of one letter stands for itself, also as a list. */
  lemma LetterValue(c: char)
    requires !IsSpace(c) && c != ','
    ensures StripInlineComment([c]) == [c] && CsvList([c]) == [[c]]
  {
    TrimSpaceFixed([c]);
    assert CutAt([c], ' ', '#') == [c];
    var s: string := [c];
    assert IndexOf(s, ',') == |s|;
    assert Split(s, ',') == [s];
    var parts := [s];
    assert parts[..|parts| - 1] == [] && parts[|parts| - 1] == s;
    assert TrimmedItems([]) == [];
    var none: seq<string> := [];
    assert none + [s] == [s];
  }

  lemma EmptyValue()
    ensures StripInlineComment("") == ""
  {
  }

  const IFACE := Interface("k", ["a"], [], "", [], [], [], [], map[])
  const PEER := Peer("p", "", ["i"], "e", "", map[])

  lemma InterfaceRead()
    ensures ReadLines(KeepAll, LINES[..4]) == Reading(true, "interface", IFACE, [])
    ensures LastTableOf(LINES[..4]) == Value("")
  {
    hide Classify, StripInlineComment, CsvList;
    InterfaceClassified();
    LetterValue('k');
    LetterValue('a');
    EmptyValue();
    var l := LINES;
    assert l[..0] == [];
    LineRead(l, 0);
    LineRead(l, 1);
    LineRead(l, 2);
    LineRead(l, 3);
    hide ReadLines, LastTableOf;
    var none: seq<string> := [];
    assert none + ["a"] == ["a"];
  }

  lemma LineRead(lines: seq<string>, n: nat)
    requires n < |lines|
    ensures ReadLines(KeepAll, lines[..n + 1]) == ReadLine(KeepAll, ReadLines(KeepAll, lines[..n]), Classify(lines[n]))
    ensures LastTableOf(lines[..n + 1]) == NextLast(LastTableOf(lines[..n]), ReadLines(KeepAll, lines[..n]).section, Classify(lines[n]))
  {
    hide Classify;
    assert lines[..n + 1][..n] == lines[..n];
  }

  lemma AllRead()
    ensures ReadLines(KeepAll, LINES) == Reading(true, "peer", IFACE, [PEER])
    ensures LastTableOf(LINES) == Value("")
  {
    hide Classify, StripInlineComment, CsvList, ReadLines, LastTableOf;
    PeerClassified();
    LetterValue('p');
    LetterValue('i');
    LetterValue('e');
    InterfaceRead();
    var l := LINES;
    LineRead(l, 4);
    LineRead(l, 5);
    LineRead(l, 6);
    LineRead(l, 7);
    assert l[..8] == l;
    var none: seq<string> := [];
    assert none + ["i"] == ["i"];
  }

  lemma LinesUnbroken()
    ensures LINES != [] && Unbroken(LINES) && ShortLines(LINES)
  {
    forall i | 0 <= i < |LINES| ensures NoChar(LINES[i], '\n') {}
  }

  lemma TextLines(lines: seq<string>)
    requires lines != [] && Unbroken(lines) && ShortLines(lines)
    ensures Split(Join(lines, '\n'), '\n') == lines && LinesFit(Join(lines, '\n'))
  {
    hide Split, Join, NoChar;
    SplitJoin(lines, '\n');
  }

  /** The text parses, has no table, and whatever table it is cleaned with, the cleaned text has none either. */
  lemma EmptyTableIsLost(t: nat, dns: bool)
    requires 0 < t <= MAX_INT
    ensures Parse(KeepAll, RAW) == Some(Config(IFACE, [PEER], 0))
    ensures Sanitize(RAW, t, dns).Some? && Parse(KeepAll, Sanitize(RAW, t, dns).value.0).Some?
    ensures Parse(KeepAll, Sanitize(RAW, t, dns).value.0).value.routeTable == 0
  {
    hide ReadLines, LastTableOf, Split, ScannedLines, LinesFit, Sanitize, LINES;
    LinesUnbroken();
    TextLines(LINES);
    AllRead();
    ReadScanned(KeepAll, RAW);
    assert TableNumber("") == Some(0);
    SanitizingKeepsMeaning(RAW, t, dns);
  }
}
