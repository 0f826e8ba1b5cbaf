/**
  What a parsed WireGuard configuration holds, read off its lines: each field of the
  [Interface] section and of every [Peer] section has the values of the lines with its
  key in that section.
 */
module WireGuardFields {
  import opened Text
  import opened WireGuardParser

  // ---- Where a line stands --------------------------------------------------

  /** Peers are counted by their headers. */
  datatype Place = Nowhere | InInterface | InPeer(index: nat)

  function PeerHeaders(lines: seq<string>): nat {
    if lines == [] then 0
    else PeerHeaders(lines[..|lines| - 1]) + if Classify(lines[|lines| - 1]) == Header("peer") then 1 else 0
  }

  /** The section that the line after these stands in. */
  function PlaceAfter(lines: seq<string>): Place {
    if lines == [] then Nowhere
    else
      var l := Classify(lines[|lines| - 1]);
      if l == Header("interface") then InInterface
      else if l == Header("peer") then InPeer(PeerHeaders(lines[..|lines| - 1]))
      else PlaceAfter(lines[..|lines| - 1])
  }

  /** The values, without comments, of the lines with a key in one section, in order. */
  function ValuesAt(lines: seq<string>, place: Place, key: string): seq<string> {
    if lines == [] then []
    else
      var front, l := lines[..|lines| - 1], Classify(lines[|lines| - 1]);
      ValuesAt(front, place, key) +
      if l.Setting? && l.key == key && PlaceAfter(front) == place then [StripInlineComment(l.value)] else []
  }

  function LastOf(values: seq<string>): string {
    if values == [] then "" else values[|values| - 1]
  }

  /** The items of comma-separated lists, one list after the other. */
  function ItemsOf(values: seq<string>): seq<string> {
    if values == [] then [] else ItemsOf(values[..|values| - 1]) + CsvList(values[|values| - 1])
  }

  // ---- What the fields hold -------------------------------------------------

  predicate InterfaceKey(key: string) {
    key in {"privatekey", "address", "dns", "table", "preup", "postup", "predown", "postdown"}
  }

  predicate PeerKey(key: string) {
    key in {"publickey", "presharedkey", "allowedips", "endpoint", "persistentkeepalive"}
  }

  /** The settings with other keys, by key. */
  ghost predicate ExtrasAre(lines: seq<string>, place: Place, known: string -> bool, extras: map<string, seq<string>>) {
    forall key ::
      && (key in extras <==> !known(key) && ValuesAt(lines, place, key) != [])
      && (key in extras ==> extras[key] == ValuesAt(lines, place, key))
  }

  ghost predicate InterfaceIs(lines: seq<string>, f: Interface) {
    && f.privateKey == LastOf(ValuesAt(lines, InInterface, "privatekey"))
    && f.table == LastOf(ValuesAt(lines, InInterface, "table"))
    && f.addresses == ItemsOf(ValuesAt(lines, InInterface, "address"))
    && f.dns == ItemsOf(ValuesAt(lines, InInterface, "dns"))
    && f.preUp == ValuesAt(lines, InInterface, "preup") && f.postUp == ValuesAt(lines, InInterface, "postup")
    && f.preDown == ValuesAt(lines, InInterface, "predown") && f.postDown == ValuesAt(lines, InInterface, "postdown")
    && ExtrasAre(lines, InInterface, InterfaceKey, f.extras)
  }

  ghost predicate PeerIs(lines: seq<string>, i: nat, p: Peer) {
    && p.publicKey == LastOf(ValuesAt(lines, InPeer(i), "publickey"))
    && p.presharedKey == LastOf(ValuesAt(lines, InPeer(i), "presharedkey"))
    && p.endpoint == LastOf(ValuesAt(lines, InPeer(i), "endpoint"))
    && p.persistentKeepalive == LastOf(ValuesAt(lines, InPeer(i), "persistentkeepalive"))
    && p.allowedIPs == ItemsOf(ValuesAt(lines, InPeer(i), "allowedips"))
    && ExtrasAre(lines, InPeer(i), PeerKey, p.extras)
  }

  /** A line that can stand where it does. */
  predicate LineFits(lines: seq<string>, i: nat)
    requires i < |lines|
  {
    match Classify(lines[i])
    case Skipped => true
    case Malformed => false
    case Header(section) => section == "interface" || section == "peer"
    case Setting(_, _) => PlaceAfter(lines[..i]) != Nowhere
  }

  ghost predicate WellFormed(lines: seq<string>) {
    forall i :: 0 <= i < |lines| ==> LineFits(lines, i)
  }

  // ---- One more line --------------------------------------------------------

  /** The section name that the parser keeps. */
  predicate SectionIs(r: Reading, place: Place) {
    match place
    case Nowhere => r.section == ""
    case InInterface => r.section == "interface"
    case InPeer(i) => r.section == "peer" && |r.peers| == i + 1
  }

  ghost predicate ReadingIs(lines: seq<string>, r: Reading) {
    && SectionIs(r, PlaceAfter(lines)) && |r.peers| == PeerHeaders(lines)
    && InterfaceIs(lines, r.iface) && forall i :: 0 <= i < |r.peers| ==> PeerIs(lines, i, r.peers[i])
  }

  lemma ValuesSame(lines: seq<string>, place: Place, key: string)
    requires lines != [] && !(Classify(lines[|lines| - 1]).Setting? && PlaceAfter(lines[..|lines| - 1]) == place)
    ensures ValuesAt(lines, place, key) == ValuesAt(lines[..|lines| - 1], place, key)
  {
    hide Classify, PlaceAfter, StripInlineComment;
  }

  lemma InterfaceStays(lines: seq<string>, f: Interface)
    requires lines != [] && InterfaceIs(lines[..|lines| - 1], f)
    requires !(Classify(lines[|lines| - 1]).Setting? && PlaceAfter(lines[..|lines| - 1]) == InInterface)
    ensures InterfaceIs(lines, f)
  {
    hide Classify, PlaceAfter, ValuesAt, LastOf, ItemsOf;
    forall key ensures ValuesAt(lines, InInterface, key) == ValuesAt(lines[..|lines| - 1], InInterface, key) {
      ValuesSame(lines, InInterface, key);
    }
  }

  lemma PeerStays(lines: seq<string>, i: nat, p: Peer)
    requires lines != [] && PeerIs(lines[..|lines| - 1], i, p)
    requires !(Classify(lines[|lines| - 1]).Setting? && PlaceAfter(lines[..|lines| - 1]) == InPeer(i))
    ensures PeerIs(lines, i, p)
  {
    hide Classify, PlaceAfter, ValuesAt, LastOf, ItemsOf;
    forall key ensures ValuesAt(lines, InPeer(i), key) == ValuesAt(lines[..|lines| - 1], InPeer(i), key) {
      ValuesSame(lines, InPeer(i), key);
    }
  }

  lemma ValuesMore(lines: seq<string>, place: Place, key: string)
    requires lines != [] && Classify(lines[|lines| - 1]).Setting? && PlaceAfter(lines[..|lines| - 1]) == place
    ensures var l := Classify(lines[|lines| - 1]);
      ValuesAt(lines, place, key) == ValuesAt(lines[..|lines| - 1], place, key) + (if l.key == key then [StripInlineComment(l.value)] else [])
  {
    hide Classify, PlaceAfter, StripInlineComment;
  }

  lemma LastMore(values: seq<string>, v: string)
    ensures LastOf(values + [v]) == v && ItemsOf(values + [v]) == ItemsOf(values) + CsvList(v) && values + [] == values
  {
    assert (values + [v])[..|values|] == values;
  }

  lemma ExtrasMore(lines: seq<string>, place: Place, known: string -> bool, extras: map<string, seq<string>>)
    requires lines != [] && Classify(lines[|lines| - 1]).Setting? && PlaceAfter(lines[..|lines| - 1]) == place
    requires ExtrasAre(lines[..|lines| - 1], place, known, extras)
    ensures var l := Classify(lines[|lines| - 1]);
      ExtrasAre(lines, place, known, if known(l.key) then extras else AddExtra(extras, l.key, StripInlineComment(l.value)))
  {
    hide Classify, PlaceAfter, StripInlineComment, ValuesAt;
    var l, front := Classify(lines[|lines| - 1]), lines[..|lines| - 1];
    var extras' := if known(l.key) then extras else AddExtra(extras, l.key, StripInlineComment(l.value));
    forall key
      ensures key in extras' <==> !known(key) && ValuesAt(lines, place, key) != []
      ensures key in extras' ==> extras'[key] == ValuesAt(lines, place, key)
    {
      ValuesMore(lines, place, key);
      LastMore(ValuesAt(front, place, key), StripInlineComment(l.value));
    }
  }

  lemma InterfaceGrows(lines: seq<string>, f: Interface)
    requires lines != [] && Classify(lines[|lines| - 1]).Setting? && PlaceAfter(lines[..|lines| - 1]) == InInterface
    requires InterfaceIs(lines[..|lines| - 1], f)
    ensures var l := Classify(lines[|lines| - 1]); InterfaceIs(lines, WithInterfaceField(f, l.key, StripInlineComment(l.value)))
  {
    hide Classify, PlaceAfter, StripInlineComment, ValuesAt, LastOf, ItemsOf, CsvList, AddExtra, ExtrasAre;
    var l, front := Classify(lines[|lines| - 1]), lines[..|lines| - 1];
    ExtrasMore(lines, InInterface, InterfaceKey, f.extras);
    forall key
      ensures ValuesAt(lines, InInterface, key) == ValuesAt(front, InInterface, key) + (if l.key == key then [StripInlineComment(l.value)] else [])
      ensures l.key == key ==> LastOf(ValuesAt(lines, InInterface, key)) == StripInlineComment(l.value)
      ensures l.key == key ==> ItemsOf(ValuesAt(lines, InInterface, key)) == ItemsOf(ValuesAt(front, InInterface, key)) + CsvList(StripInlineComment(l.value))
      ensures l.key != key ==> ValuesAt(lines, InInterface, key) == ValuesAt(front, InInterface, key)
    {
      ValuesMore(lines, InInterface, key);
      LastMore(ValuesAt(front, InInterface, key), StripInlineComment(l.value));
    }
  }

  lemma PeerGrows(lines: seq<string>, i: nat, p: Peer)
    requires lines != [] && Classify(lines[|lines| - 1]).Setting? && PlaceAfter(lines[..|lines| - 1]) == InPeer(i)
    requires PeerIs(lines[..|lines| - 1], i, p)
    ensures var l := Classify(lines[|lines| - 1]); PeerIs(lines, i, WithPeerField(p, l.key, StripInlineComment(l.value)))
  {
    hide Classify, PlaceAfter, StripInlineComment, ValuesAt, LastOf, ItemsOf, CsvList, AddExtra, ExtrasAre;
    var l, front := Classify(lines[|lines| - 1]), lines[..|lines| - 1];
    ExtrasMore(lines, InPeer(i), PeerKey, p.extras);
    forall key
      ensures l.key == key ==> LastOf(ValuesAt(lines, InPeer(i), key)) == StripInlineComment(l.value)
      ensures l.key == key ==> ItemsOf(ValuesAt(lines, InPeer(i), key)) == ItemsOf(ValuesAt(front, InPeer(i), key)) + CsvList(StripInlineComment(l.value))
      ensures l.key != key ==> ValuesAt(lines, InPeer(i), key) == ValuesAt(front, InPeer(i), key)
    {
      ValuesMore(lines, InPeer(i), key);
      LastMore(ValuesAt(front, InPeer(i), key), StripInlineComment(l.value));
    }
  }

  /** A section that has not begun has no values. */
  lemma {:induction false} NoValuesYet(lines: seq<string>, i: nat, key: string)
    requires i >= PeerHeaders(lines)
    ensures ValuesAt(lines, InPeer(i), key) == [] && PlaceAfter(lines) != InPeer(i)
  {
    hide Classify, StripInlineComment;
    if lines != [] { NoValuesYet(lines[..|lines| - 1], i, key); }
  }

  lemma NewPeerIs(lines: seq<string>, i: nat)
    requires i >= PeerHeaders(lines)
    ensures PeerIs(lines, i, NO_PEER)
  {
    hide Classify, PlaceAfter, ValuesAt;
    forall key ensures ValuesAt(lines, InPeer(i), key) == [] {
      NoValuesYet(lines, i, key);
    }
  }

  lemma StepReads(lines: seq<string>, r: Reading)
    requires lines != [] && r.ok && ReadingIs(lines[..|lines| - 1], r)
    ensures var r' := ReadLine(KeepAll, r, Classify(lines[|lines| - 1]));
      && (r'.ok <==> LineFits(lines, |lines| - 1))
      && (r'.ok ==> ReadingIs(lines, r'))
  {
    hide Classify, StripInlineComment, InterfaceIs, PeerIs, WithInterfaceField, WithPeerField;
    var front, l := lines[..|lines| - 1], Classify(lines[|lines| - 1]);
    var r' := ReadLine(KeepAll, r, l);
    if r'.ok {
      if l.Setting? && PlaceAfter(front) == InInterface {
        InterfaceGrows(lines, r.iface);
      } else {
        InterfaceStays(lines, r.iface);
      }
      forall i: nat | i < |r'.peers|
        ensures PeerIs(lines, i, r'.peers[i])
      {
        if i == |r.peers| {
          NewPeerIs(front, i);
          PeerStays(lines, i, NO_PEER);
        } else if l.Setting? && PlaceAfter(front) == InPeer(i) {
          PeerGrows(lines, i, r.peers[i]);
        } else {
          PeerStays(lines, i, r.peers[i]);
        }
      }
    }
  }

  /** The parser accepts lines iff each can stand where it does, and then reads off each field its lines. */
  lemma {:induction false} FieldsRead(lines: seq<string>)
    ensures ReadLines(KeepAll, lines).ok <==> WellFormed(lines)
    ensures ReadLines(KeepAll, lines).ok ==> ReadingIs(lines, ReadLines(KeepAll, lines))
  {
    hide ReadLine, Classify, ReadingIs;
    if lines == [] {
      NothingRead();
    } else {
      var n := |lines| - 1;
      FieldsRead(lines[..n]);
      FitsPrefix(lines);
      var r := ReadLines(KeepAll, lines[..n]);
      if r.ok {
        StepReads(lines, r);
      } else {
        FailedStays(r, Classify(lines[n]));
      }
    }
  }

  lemma FailedStays(r: Reading, l: Line)
    requires !r.ok
    ensures ReadLine(KeepAll, r, l) == r
  {
  }

  lemma FitsPrefix(lines: seq<string>)
    requires lines != []
    ensures WellFormed(lines) <==> WellFormed(lines[..|lines| - 1]) && LineFits(lines, |lines| - 1)
  {
    hide Classify, PlaceAfter;
    var front := lines[..|lines| - 1];
    forall i | 0 <= i < |front| ensures LineFits(front, i) <==> LineFits(lines, i) {
      assert front[..i] == lines[..i];
    }
  }

  lemma NothingRead()
    ensures ReadingIs([], START)
  {
  }

  // ---- Whole texts ----------------------------------------------------------

  /** The settings that a configuration needs. */
  ghost predicate HasRequired(lines: seq<string>) {
    && LastOf(ValuesAt(lines, InInterface, "privatekey")) != "" && ItemsOf(ValuesAt(lines, InInterface, "address")) != []
    && PeerHeaders(lines) > 0 && (exists n :: IsTable(TrimSpace(LastOf(ValuesAt(lines, InInterface, "table"))), n))
    && forall i: nat :: i < PeerHeaders(lines) ==> PeerHasRequired(lines, i)
  }

  predicate PeerHasRequired(lines: seq<string>, i: nat) {
    && LastOf(ValuesAt(lines, InPeer(i), "publickey")) != "" && LastOf(ValuesAt(lines, InPeer(i), "endpoint")) != ""
    && ItemsOf(ValuesAt(lines, InPeer(i), "allowedips")) != []
  }

  /** A Table value is a positive number, or missing. */
  predicate IsTable(text: string, n: int) {
    if text == "" then n == 0 else n > 0 && Atoi(text) == Some(n)
  }

  lemma TableIs(table: string, n: int)
    ensures TableNumber(table) == Some(n) <==> IsTable(TrimSpace(table), n)
  {
    hide TrimSpace, Atoi;
  }

  /**
    A text parses iff its lines are short enough, well formed and name what is required;
    then every field of the result holds the values of its lines, the single-valued ones
    the last value.
   */
  lemma ParsedFields(raw: string)
    ensures var lines, c := Split(raw, '\n'), Parse(KeepAll, raw);
      && (c.Some? <==> LinesFit(raw) && WellFormed(lines) && HasRequired(lines))
      && (c.Some? ==> InterfaceIs(lines, c.value.iface) && |c.value.peers| == PeerHeaders(lines))
      && (c.Some? ==> forall i :: 0 <= i < |c.value.peers| ==> PeerIs(lines, i, c.value.peers[i]))
      && (c.Some? ==> IsTable(TrimSpace(LastOf(ValuesAt(lines, InInterface, "table"))), c.value.routeTable))
  {
    hide ReadLines, Split, ScannedLines, LinesFit, WellFormed, TableNumber, IsTable, TrimSpace, ValuesAt, LastOf, ItemsOf, PeerHeaders, PlaceAfter, ExtrasAre;
    var lines := Split(raw, '\n');
    ReadScanned(KeepAll, raw);
    FieldsRead(lines);
    var r := ReadLines(KeepAll, lines);
    if r.ok {
      forall n ensures TableNumber(r.iface.table) == Some(n) <==> IsTable(TrimSpace(r.iface.table), n) { TableIs(r.iface.table, n); }
      assert TableNumber(r.iface.table).Some? ==> IsTable(TrimSpace(r.iface.table), TableNumber(r.iface.table).value);
      assert forall i: nat :: i < |r.peers| ==> (PeerIs(lines, i, r.peers[i]) && (PeerComplete(r.peers[i]) <==> PeerHasRequired(lines, i)));
    }
  }

  // ---- Keys, values and comments --------------------------------------------

  /** Everything before the first `=` is the key and everything after it the value. */
  lemma KeyAndValue(key: string, value: string)
    requires NoChar(key, '=') && TrimSpace(key) != ""
    ensures SplitKeyValue(key + "=" + value) == Some((TrimSpace(key), TrimSpace(value)))
  {
    hide TrimSpace;
    var line := key + "=" + value;
    FirstAt(key, '=', value);
    assert line[..|key|] == key && line[|key| + 1..] == value;
  }

  lemma {:induction false} FirstAt(a: string, c: char, b: string)
    requires NoChar(a, c)
    ensures IndexOf(a + [c] + b, c) == |a|
  {
    if a != [] {
      assert (a + [c] + b)[1..] == a[1..] + [c] + b;
      FirstAt(a[1..], c, b);
    }
  }

  /** Without `=` the first white space separates them. */
  lemma KeyAndSpace(key: string, c: char, value: string)
    requires key != "" && IsSpace(c) && NoChar(key + [c] + value, '=') && forall i :: 0 <= i < |key| ==> !IsSpace(key[i])
    ensures SplitKeyValue(key + [c] + value) == Some((key, TrimSpace([c] + value)))
  {
    hide TrimSpace;
    var line := key + [c] + value;
    var j := FirstSpace(line);
    assert forall i :: 0 <= i < |key| ==> line[i] == key[i];
    assert line[|key|] == c && j == |key|;
    assert line[..j] == key && line[j..] == [c] + value;
  }

  predicate StartsComment(s: string, i: nat) {
    i + 1 < |s| && s[i] == ' ' && (s[i + 1] == '#' || s[i + 1] == ';')
  }

  lemma {:induction false} CutAtFirst(s: string, a: char, b: char) returns (n: nat)
    ensures n <= |s| && CutAt(s, a, b) == s[..n]
    ensures forall i :: 0 <= i < n && i + 1 < |s| ==> !(s[i] == a && s[i + 1] == b)
    ensures n < |s| ==> n + 1 < |s| && s[n] == a && s[n + 1] == b
  {
    if |s| < 2 {
      n := |s|;
    } else if s[0] == a && s[1] == b {
      n := 0;
    } else {
      var m := CutAtFirst(s[1..], a, b);
      n := m + 1;
      assert s[..n] == [s[0]] + s[1..][..m];
      forall i | 0 <= i < n && i + 1 < |s| ensures !(s[i] == a && s[i + 1] == b) {
        if i > 0 { assert s[i] == s[1..][i - 1] && s[i + 1] == s[1..][i]; }
      }
    }
  }

  /** A value ends, trimmed, where a space is followed by the first comment sign. */
  lemma CommentCut(value: string) returns (n: nat)
    ensures n <= |value| && StripInlineComment(value) == TrimSpace(value[..n])
    ensures (forall i: nat :: i < n ==> !StartsComment(value, i)) && (n < |value| ==> StartsComment(value, n))
  {
    hide TrimSpace, CutAt;
    var m := CutAtFirst(value, ' ', '#');
    var front := value[..m];
    n := CutAtFirst(front, ' ', ';');
    assert front[..n] == value[..n];
    forall i: nat | i < n ensures !StartsComment(value, i) {
      if i + 1 < |front| { assert front[i] == value[i] && front[i + 1] == value[i + 1]; }
    }
  }

  // ---- Lists ----------------------------------------------------------------

  lemma {:induction false} TrimmedConcat(a: seq<string>, b: seq<string>)
    ensures TrimmedItems(a + b) == TrimmedItems(a) + TrimmedItems(b)
  {
    hide TrimSpace;
    if b == [] {
      assert a + b == a;
    } else {
      var n := |b| - 1;
      assert (a + b)[..|a| + n] == a + b[..n] && (a + b)[|a| + n] == b[n];
      TrimmedConcat(a, b[..n]);
      assert TrimmedItems(a) + TrimmedItems(b[..n]) + [TrimSpace(b[n])] == TrimmedItems(a) + (TrimmedItems(b[..n]) + [TrimSpace(b[n])]);
    }
  }

  /** Lists joined by a comma have the items of both, and a list without comma has at most one. */
  lemma CsvListIs(a: string, b: string)
    ensures CsvList(a + "," + b) == CsvList(a) + CsvList(b)
    ensures NoChar(a, ',') ==> CsvList(a) == if TrimSpace(a) == "" then [] else [TrimSpace(a)]
  {
    hide TrimSpace;
    SplitConcat(a, ',', b);
    TrimmedConcat(Split(a, ','), Split(b, ','));
    if NoChar(a, ',') {
      SplitNone(a, ',');
      assert [a][..0] == [];
    }
  }

  lemma SplitNone(s: string, c: char)
    requires NoChar(s, c)
    ensures Split(s, c) == [s]
  {
  }

  lemma SplitAt(a: string, c: char, b: string)
    requires NoChar(a, c)
    ensures Split(a + [c] + b, c) == [a] + Split(b, c)
  {
    var s := a + [c] + b;
    FirstAt(a, c, b);
    assert s[..|a|] == a && s[|a| + 1..] == b;
  }

  lemma {:induction false} SplitConcat(a: string, c: char, b: string)
    ensures Split(a + [c] + b, c) == Split(a, c) + Split(b, c)
    decreases |a|
  {
    hide Split, IndexOf;
    var i := IndexOf(a, c);
    if i < |a| {
      var first, rest := a[..i], a[i + 1..];
      assert a == first + [c] + rest;
      assert a + [c] + b == first + [c] + (rest + [c] + b);
      SplitAt(first, c, rest + [c] + b);
      SplitAt(first, c, rest);
      SplitConcat(rest, c, b);
      assert [first] + (Split(rest, c) + Split(b, c)) == [first] + Split(rest, c) + Split(b, c);
    } else {
      SplitNone(a, c);
      SplitAt(a, c, b);
    }
  }
}
