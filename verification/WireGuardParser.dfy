/** Reading of WireGuard configuration files. */
module WireGuardParser {
  import opened Text

  datatype Interface = Interface(
    privateKey: string, addresses: seq<string>, dns: seq<string>, table: string,
    preUp: seq<string>, postUp: seq<string>, preDown: seq<string>, postDown: seq<string>,
    extras: map<string, seq<string>>)

  datatype Peer = Peer(
    publicKey: string, presharedKey: string, allowedIPs: seq<string>, endpoint: string,
    persistentKeepalive: string, extras: map<string, seq<string>>)

  datatype Config = Config(iface: Interface, peers: seq<Peer>, routeTable: int)

  const NO_INTERFACE := Interface("", [], [], "", [], [], [], [], map[])
  const NO_PEER := Peer("", "", [], "", "", map[])

  // ---- Lines ----------------------------------------------------------------

  const MAX_LINE := 1024 * 1024

  function FirstSpace(s: string): (i: nat)
    ensures i <= |s|
    ensures forall j :: 0 <= j < i ==> !IsSpace(s[j])
    ensures i < |s| ==> IsSpace(s[i])
  {
    if s == [] || IsSpace(s[0]) then 0 else 1 + FirstSpace(s[1..])
  }

  /** Key and value of a trimmed line: around the first `=`, or around the first white space. */
  function SplitKeyValue(line: string): Option<(string, string)> {
    var i := IndexOf(line, '=');
    if i < |line| then
      var key := TrimSpace(line[..i]);
      if key == "" then None else Some((key, TrimSpace(line[i + 1..])))
    else
      var j := FirstSpace(line);
      if j == |line| then None else Some((line[..j], TrimSpace(line[j..])))
  }

  /** What precedes the first occurrence of the two characters. */
  function CutAt(s: string, a: char, b: char): string {
    if |s| < 2 then s
    else if s[0] == a && s[1] == b then ""
    else [s[0]] + CutAt(s[1..], a, b)
  }

  function StripInlineComment(value: string): string {
    TrimSpace(CutAt(CutAt(value, ' ', '#'), ' ', ';'))
  }

  function TrimmedItems(parts: seq<string>): seq<string> {
    if parts == [] then []
    else
      var rest := TrimmedItems(parts[..|parts| - 1]);
      var item := TrimSpace(parts[|parts| - 1]);
      if item == "" then rest else rest + [item]
  }

  function CsvList(value: string): seq<string> {
    TrimmedItems(Split(value, ','))
  }

  method ParseCsvList(value: string) returns (items: seq<string>)
    ensures items == CsvList(value)
  {
    var parts := Split(value, ',');
    items := [];
    for i := 0 to |parts|
      invariant items == TrimmedItems(parts[..i])
    {
      assert parts[..i + 1][..i] == parts[..i];
      var trimmed := TrimSpace(parts[i]);
      if trimmed != "" {
        items := items + [trimmed];
      }
    }
    assert parts[..|parts|] == parts;
  }

  predicate IsHeader(s: string) {
    |s| >= 2 && s[0] == '[' && s[|s| - 1] == ']'
  }

  predicate IsSkipped(s: string) {
    s == "" || s[0] == '#' || s[0] == ';'
  }

  function SectionName(s: string): string
    requires IsHeader(s)
  {
    ToLower(TrimSpace(s[1..|s| - 1]))
  }

  /** What a line means, whatever section it is in. Keys are in lower case, values still carry comments. */
  datatype Line = Skipped | Header(section: string) | Setting(key: string, value: string) | Malformed

  function Classify(line: string): Line {
    var s := TrimSpace(line);
    if IsSkipped(s) then Skipped
    else if IsHeader(s) then Header(SectionName(s))
    else
      match SplitKeyValue(s)
      case None => Malformed
      case Some(kv) => Setting(ToLower(kv.0), kv.1)
  }

  // ---- Fields ---------------------------------------------------------------

  function AddExtra(extras: map<string, seq<string>>, key: string, value: string): map<string, seq<string>> {
    extras[key := (if key in extras then extras[key] else []) + [value]]
  }

  function WithInterfaceField(f: Interface, key: string, value: string): Interface {
    match key
    case "privatekey" => f.(privateKey := value)
    case "address" => f.(addresses := f.addresses + CsvList(value))
    case "dns" => f.(dns := f.dns + CsvList(value))
    case "table" => f.(table := value)
    case "preup" => f.(preUp := f.preUp + [value])
    case "postup" => f.(postUp := f.postUp + [value])
    case "predown" => f.(preDown := f.preDown + [value])
    case "postdown" => f.(postDown := f.postDown + [value])
    case _ => f.(extras := AddExtra(f.extras, key, value))
  }

  function WithPeerField(p: Peer, key: string, value: string): Peer {
    match key
    case "publickey" => p.(publicKey := value)
    case "presharedkey" => p.(presharedKey := value)
    case "allowedips" => p.(allowedIPs := p.allowedIPs + CsvList(value))
    case "endpoint" => p.(endpoint := value)
    case "persistentkeepalive" => p.(persistentKeepalive := value)
    case _ => p.(extras := AddExtra(p.extras, key, value))
  }

  // ---- The parser as a fold over lines --------------------------------------

  /** [Interface] settings that a reading may pass over. */
  datatype Filter = KeepAll | Clean(dnsSupported: bool)

  const LEGACY_SCRIPT := "split-vpn/vpn/updown.sh"

  predicate IsHook(key: string) {
    key == "preup" || key == "postup" || key == "predown" || key == "postdown"
  }

  predicate Drops(filter: Filter, key: string, value: string) {
    filter.Clean? && ((key == "dns" && !filter.dnsSupported) || (IsHook(key) && Contains(ToLower(value), LEGACY_SCRIPT)))
  }

  datatype Reading = Reading(ok: bool, section: string, iface: Interface, peers: seq<Peer>)

  const START := Reading(true, "", NO_INTERFACE, [])

  function Entered(r: Reading, section: string): Reading {
    if section == "interface" then r.(section := section)
    else if section == "peer" then r.(section := section, peers := r.peers + [NO_PEER])
    else r.(ok := false)
  }

  function Assigned(filter: Filter, r: Reading, key: string, value: string): Reading {
    if r.section == "interface" then
      if Drops(filter, key, value) then r
      else r.(iface := WithInterfaceField(r.iface, key, StripInlineComment(value)))
    else if r.section == "peer" && r.peers != [] then
      r.(peers := r.peers[|r.peers| - 1 := WithPeerField(r.peers[|r.peers| - 1], key, StripInlineComment(value))])
    else r.(ok := false)
  }

  function ReadLine(filter: Filter, r: Reading, line: Line): Reading {
    if !r.ok then r
    else
      match line
      case Skipped => r
      case Malformed => r.(ok := false)
      case Header(section) => Entered(r, section)
      case Setting(key, value) => Assigned(filter, r, key, value)
  }

  function ReadLines(filter: Filter, lines: seq<string>): Reading {
    if lines == [] then START
    else ReadLine(filter, ReadLines(filter, lines[..|lines| - 1]), Classify(lines[|lines| - 1]))
  }

  predicate PeerComplete(p: Peer) {
    p.publicKey != "" && p.allowedIPs != [] && p.endpoint != ""
  }

  /** The table number of a Table value: 0 for none. */
  function TableNumber(table: string): Option<int> {
    var s := TrimSpace(table);
    if s == "" then Some(0)
    else
      var v := Atoi(s);
      if v.Some? && v.value > 0 then v else None
  }

  function Checked(r: Reading): Option<Config> {
    if r.ok && r.iface.privateKey != "" && r.iface.addresses != [] && r.peers != []
       && (forall i :: 0 <= i < |r.peers| ==> PeerComplete(r.peers[i]))
       && TableNumber(r.iface.table).Some?
    then Some(Config(r.iface, r.peers, TableNumber(r.iface.table).value))
    else None
  }

  predicate LinesFit(raw: string) {
    forall i :: 0 <= i < |Split(raw, '\n')| ==> |Split(raw, '\n')[i]| < MAX_LINE
  }

  function DropReturn(line: string): string {
    if line != "" && line[|line| - 1] == '\r' then line[..|line| - 1] else line
  }

  function DropReturns(lines: seq<string>): (r: seq<string>)
    ensures |r| == |lines|
  {
    seq(|lines|, i requires 0 <= i < |lines| => DropReturn(lines[i]))
  }

  /** The lines a scanner delivers: no line feed, no carriage return before it, no empty last line. */
  function ScannedLines(raw: string): seq<string> {
    var parts := Split(raw, '\n');
    DropReturns(if parts[|parts| - 1] == "" then parts[..|parts| - 1] else parts)
  }

  /** The meaning of a configuration text, without the settings that the filter drops. */
  function Parse(filter: Filter, raw: string): Option<Config> {
    if LinesFit(raw) then Checked(ReadLines(filter, ScannedLines(raw))) else None
  }

  lemma {:induction false} FailureIsFinal(filter: Filter, lines: seq<string>, n: nat)
    requires n <= |lines| && !ReadLines(filter, lines[..n]).ok
    ensures !ReadLines(filter, lines).ok && Checked(ReadLines(filter, lines)).None?
    decreases |lines| - n
  {
    if n == |lines| {
      assert lines[..n] == lines;
    } else {
      assert lines[..n + 1][..n] == lines[..n];
      FailureIsFinal(filter, lines, n + 1);
    }
  }

  lemma StartOk()
    ensures ReadLines(KeepAll, []) == START
  {
  }

  lemma ReadPrefix(filter: Filter, lines: seq<string>, n: nat)
    requires n < |lines|
    ensures ReadLines(filter, lines[..n + 1]) == ReadLine(filter, ReadLines(filter, lines[..n]), Classify(lines[n]))
  {
    assert lines[..n + 1][..n] == lines[..n];
  }

  method ParseWireGuardConfig(raw: string) returns (c: Option<Config>)
    ensures c == Parse(KeepAll, raw)
  {
    hide WithInterfaceField, WithPeerField, SplitKeyValue, StripInlineComment, TrimSpace, LinesFit, ScannedLines, ReadLines, Checked,
         ToLower;
    StartOk();
    if !LinesFit(raw) {
      return None;
    }
    var lines := ScannedLines(raw);
    var section, iface, peers := "", NO_INTERFACE, [];
    for i := 0 to |lines|
      invariant Reading(true, section, iface, peers) == ReadLines(KeepAll, lines[..i])
      invariant section == "" || section == "interface" || (section == "peer" && peers != [])
    {
      ReadPrefix(KeepAll, lines, i);
      var line := TrimSpace(lines[i]);
      if line == "" || line[0] == '#' || line[0] == ';' {
        continue;
      }
      if IsHeader(line) {
        section := SectionName(line);
        if section == "interface" {
        } else if section == "peer" {
          peers := peers + [NO_PEER];
        } else {
          FailureIsFinal(KeepAll, lines, i + 1);
          return None;
        }
        continue;
      }
      var kv := SplitKeyValue(line);
      if kv.None? {
        FailureIsFinal(KeepAll, lines, i + 1);
        return None;
      }
      var value, key := StripInlineComment(kv.value.1), ToLower(kv.value.0);
      if section == "interface" {
        iface := WithInterfaceField(iface, key, value);
      } else if section == "peer" {
        peers := peers[|peers| - 1 := WithPeerField(peers[|peers| - 1], key, value)];
      } else {
        FailureIsFinal(KeepAll, lines, i + 1);
        return None;
      }
    }
    assert lines[..|lines|] == lines;
    c := CheckRequired(section, iface, peers);
  }

  /** The settings that every configuration must have. */
  method CheckRequired(section: string, iface: Interface, peers: seq<Peer>) returns (c: Option<Config>)
    ensures c == Checked(Reading(true, section, iface, peers))
  {
    hide TableNumber;
    if iface.privateKey == "" || iface.addresses == [] || peers == [] {
      return None;
    }
    for i := 0 to |peers|
      invariant forall j :: 0 <= j < i ==> PeerComplete(peers[j])
    {
      if peers[i].publicKey == "" || peers[i].allowedIPs == [] || peers[i].endpoint == "" {
        return None;
      }
    }
    var routeTable := TableNumber(iface.table);
    return if routeTable.None? then None else Some(Config(iface, peers, routeTable.value));
  }

  // ---- White space at the ends of a text does not matter --------------------

  lemma {:induction false} TrimLeftAppend(s: string, c: char)
    requires IsSpace(c)
    ensures TrimLeft(s + [c]) == if TrimLeft(s) == [] then [] else TrimLeft(s) + [c]
  {
    if s == [] {
      assert (s + [c])[1..] == [];
    } else if IsSpace(s[0]) {
      assert (s + [c])[1..] == s[1..] + [c];
      TrimLeftAppend(s[1..], c);
    }
  }

  lemma TrimSpaceAppend(s: string, c: char)
    requires IsSpace(c)
    ensures TrimSpace(s + [c]) == TrimSpace(s)
  {
    TrimLeftAppend(s, c);
    var t := TrimLeft(s);
    assert (t + [c])[..|t|] == t;
  }

  lemma DropReturnTrims(line: string)
    ensures TrimSpace(DropReturn(line)) == TrimSpace(line)
  {
    if line != "" && line[|line| - 1] == '\r' {
      assert line == line[..|line| - 1] + ['\r'];
      TrimSpaceAppend(line[..|line| - 1], '\r');
    }
  }

  lemma {:induction false} ReadDropReturns(filter: Filter, lines: seq<string>)
    ensures ReadLines(filter, DropReturns(lines)) == ReadLines(filter, lines)
  {
    if lines != [] {
      var n := |lines| - 1;
      assert DropReturns(lines)[..n] == DropReturns(lines[..n]);
      ReadDropReturns(filter, lines[..n]);
      DropReturnTrims(lines[n]);
    }
  }

  lemma ReadBlankLast(filter: Filter, lines: seq<string>)
    ensures ReadLines(filter, lines + [""]) == ReadLines(filter, lines)
  {
    assert (lines + [""])[..|lines|] == lines;
    assert Classify("") == Skipped;
  }

  /** The scanner's treatment of line ends does not change what is read. */
  lemma ReadScanned(filter: Filter, raw: string)
    ensures ReadLines(filter, ScannedLines(raw)) == ReadLines(filter, Split(raw, '\n'))
  {
    var parts := Split(raw, '\n');
    var n := |parts| - 1;
    ReadDropReturns(filter, parts);
    if parts[n] == "" {
      ReadDropReturns(filter, parts[..n]);
      ReadBlankLast(filter, parts[..n]);
      assert parts == parts[..n] + [""];
    }
  }
}
