/** internal/wifi/provision.go: the NetworkManager profile, written, read back, and compared. */
module Keyfile {
  import opened Common
  import opened Outside

  predicate NewlineFree(s: string) { '\n' !in s }

  // ------------------------------------------------------------ lines

  function Unlines(lines: seq<string>): string {
    if lines == [] then "" else lines[0] + "\n" + Unlines(lines[1..])
  }

  function FirstLine(text: string): (l: string)
    ensures l <= text && NewlineFree(l) && (|l| < |text| ==> text[|l|] == '\n')
  {
    if text == "" || text[0] == '\n' then "" else [text[0]] + FirstLine(text[1..])
  }

  /** The lines of a text, each read verbatim up to its newline. */
  function Lines(text: string): (r: seq<string>)
    ensures forall l :: l in r ==> NewlineFree(l)
    decreases |text|
  {
    if text == "" then []
    else
      var l := FirstLine(text);
      if |l| == |text| then [l] else [l] + Lines(text[|l| + 1..])
  }

  lemma FirstLineOf(l: string, rest: string)
    requires NewlineFree(l)
    ensures FirstLine(l + "\n" + rest) == l
  {
    if l != "" {
      assert (l + "\n" + rest)[1..] == l[1..] + "\n" + rest;
      FirstLineOf(l[1..], rest);
    }
  }

  /** Splitting undoes joining, for lines that are lines. */
  lemma {:induction false} LinesOfUnlines(lines: seq<string>)
    requires forall l :: l in lines ==> NewlineFree(l)
    ensures Lines(Unlines(lines)) == lines
  {
    if lines != [] {
      var text := Unlines(lines);
      FirstLineOf(lines[0], Unlines(lines[1..]));
      assert text[|lines[0]| + 1..] == Unlines(lines[1..]);
      LinesOfUnlines(lines[1..]);
      assert lines == [lines[0]] + lines[1..];
    }
  }

  lemma UnlinesAppend(a: seq<string>, b: seq<string>)
    ensures Unlines(a + b) == Unlines(a) + Unlines(b)
  {
    if a == [] {
      assert a + b == b;
    } else {
      assert (a + b)[1..] == a[1..] + b;
      UnlinesAppend(a[1..], b);
    }
  }

  // ------------------------------------------------------------ the profile

  const Header := "# Generated by teslausb from teslausb.toml [wifi]. Do not edit by hand."

  function Connection(ssid: string): seq<string> {
    [Header, "[connection]", "id=" + ssid, "type=wifi", "autoconnect=true", ""]
  }

  function Wifi(ssid: string, hidden: bool): seq<string> {
    ["[wifi]", "ssid=" + ssid, "mode=infrastructure"] + (if hidden then ["hidden=true"] else []) + [""]
  }

  function Security(password: string): seq<string> {
    ["[wifi-security]", "key-mgmt=wpa-psk", "psk=" + password, ""]
  }

  const Addresses: seq<string> := ["[ipv4]", "method=auto", "", "[ipv6]", "method=auto"]

  function ProfileLines(ssid: string, password: string, hidden: bool): seq<string> {
    Connection(ssid) + Wifi(ssid, hidden) + Security(password) + Addresses
  }

  /** The text of the profile, as a specification for the builder below. */
  function Profile(ssid: string, password: string, hidden: bool): string {
    Unlines(ProfileLines(ssid, password, hidden))
  }

  /** One line written to the builder, newline included. */
  method WriteLine(b: string, ghost done: seq<string>, line: string) returns (b': string, ghost done': seq<string>)
    requires b == Unlines(done)
    ensures done' == done + [line]
    ensures b' == b + line + "\n" == Unlines(done')
  {
    UnlinesAppend(done, [line]);
    assert Unlines([line]) == line + "\n" + Unlines([line][1..]);
    assert b + (line + "\n") == b + line + "\n";
    b', done' := b + line + "\n", done + [line];
  }

  method WriteConnection(ssid: string) returns (b: string)
    ensures b == Unlines(Connection(ssid))
  {
    b := "";
    ghost var done: seq<string> := [];   // the lines written so far
    b, done := WriteLine(b, done, Header);
    b, done := WriteLine(b, done, "[connection]");
    b, done := WriteLine(b, done, "id=" + ssid);
    b, done := WriteLine(b, done, "type=wifi");
    b, done := WriteLine(b, done, "autoconnect=true");
    b, done := WriteLine(b, done, "");
    assert done == Connection(ssid);
  }

  method WriteWifi(b: string, ghost done: seq<string>, ssid: string, hidden: bool) returns (b': string)
    requires b == Unlines(done)
    ensures b' == Unlines(done + Wifi(ssid, hidden))
  {
    ghost var d;
    b', d := WriteLine(b, done, "[wifi]");
    b', d := WriteLine(b', d, "ssid=" + ssid);
    b', d := WriteLine(b', d, "mode=infrastructure");
    if hidden {
      b', d := WriteLine(b', d, "hidden=true");
    }
    b', d := WriteLine(b', d, "");
    assert d == done + Wifi(ssid, hidden);
  }

  method WriteSecurity(b: string, ghost done: seq<string>, password: string) returns (b': string)
    requires b == Unlines(done)
    ensures b' == Unlines(done + Security(password))
  {
    ghost var d;
    b', d := WriteLine(b, done, "[wifi-security]");
    b', d := WriteLine(b', d, "key-mgmt=wpa-psk");
    b', d := WriteLine(b', d, "psk=" + password);
    b', d := WriteLine(b', d, "");
    assert d == done + Security(password);
  }

  method WriteAddresses(b: string, ghost done: seq<string>) returns (b': string)
    requires b == Unlines(done)
    ensures b' == Unlines(done + Addresses)
  {
    ghost var d;
    b', d := WriteLine(b, done, "[ipv4]");
    b', d := WriteLine(b', d, "method=auto");
    b', d := WriteLine(b', d, "");
    b', d := WriteLine(b', d, "[ipv6]");
    b', d := WriteLine(b', d, "method=auto");
    assert d == done + Addresses;
  }

  /** RenderHomeKeyfile: the source's string builder, section by section. Where the source writes two
      lines with one call, or opens a section with an empty line, that is two calls here. */
  method RenderHomeKeyfile(ssid: string, password: string, hidden: bool) returns (b: string)
    ensures b == Profile(ssid, password, hidden)
  {
    b := WriteConnection(ssid);
    b := WriteWifi(b, Connection(ssid), ssid, hidden);
    b := WriteSecurity(b, Connection(ssid) + Wifi(ssid, hidden), password);
    b := WriteAddresses(b, Connection(ssid) + Wifi(ssid, hidden) + Security(password));
  }

  // ------------------------------------------------------------ reading it back

  /** The value of the first `key=` line of a section, verbatim to the end of the line. */
  function Value(lines: seq<string>, inside: bool, section: string, key: string): Option<string> {
    if lines == [] then None
    else
      var l := lines[0];
      if "[" <= l then Value(lines[1..], l == "[" + section + "]", section, key)
      else if inside && key + "=" <= l then Some(l[|key| + 1..])
      else Value(lines[1..], inside, section, key)
  }

  datatype Credentials = Credentials(ssid: Option<string>, password: Option<string>, hidden: bool)

  function Read(text: string): Credentials {
    var ls := Lines(text);
    Credentials(Value(ls, false, "wifi", "ssid"), Value(ls, false, "wifi-security", "psk"),
                Value(ls, false, "wifi", "hidden") == Some("true"))
  }

  lemma {:induction false} ValueIsOnOneLine(lines: seq<string>, inside: bool, section: string, key: string)
    requires forall l :: l in lines ==> NewlineFree(l)
    ensures var v := Value(lines, inside, section, key);
      v.Some? ==> NewlineFree(v.value)
  {
    if lines != [] {
      var l := lines[0];
      assert l in lines && NewlineFree(l);
      assert inside && key + "=" <= l ==> forall c :: c in l[|key| + 1..] ==> c in l;
      ValueIsOnOneLine(lines[1..], if "[" <= l then l == "[" + section + "]" else inside, section, key);
    }
  }

  predicate AreLines(lines: seq<string>) { forall l :: l in lines ==> NewlineFree(l) }

  lemma JoinedAreLines(a: seq<string>, b: seq<string>)
    requires AreLines(a) && AreLines(b)
    ensures AreLines(a + b)
  {
  }

  lemma KeyLine(key: string, value: string)
    requires NewlineFree(key) && NewlineFree(value)
    ensures NewlineFree(key + value)
  {
  }

  lemma Joined(a: string, b: string)
    requires NewlineFree(a) && NewlineFree(b)
    ensures NewlineFree(a + b) && (a != "" ==> (a + b)[0] == a[0])
  {
  }

  /** The header, a stretch at a time: a literal of its length is too long to be looked into at once. */
  lemma HeaderStart()
    ensures NewlineFree("# Generated by teslausb from teslausb.toml")
    ensures "# Generated by teslausb from teslausb.toml"[0] == '#'
  {
    Joined("# Generated by teslausb", " from teslausb.toml");
    assert "# Generated by teslausb from teslausb.toml" == "# Generated by teslausb" + " from teslausb.toml";
  }

  lemma HeaderMiddle()
    ensures NewlineFree("# Generated by teslausb from teslausb.toml [wifi]. Do not")
    ensures "# Generated by teslausb from teslausb.toml [wifi]. Do not"[0] == '#'
  {
    HeaderStart();
    Joined("# Generated by teslausb from teslausb.toml", " [wifi]. Do not");
    assert "# Generated by teslausb from teslausb.toml [wifi]. Do not"
        == "# Generated by teslausb from teslausb.toml" + " [wifi]. Do not";
  }

  lemma HeaderIsALine()
    ensures NewlineFree(Header) && Header != "" && Header[0] == '#'
  {
    HeaderMiddle();
    Joined("# Generated by teslausb from teslausb.toml [wifi]. Do not", " edit by hand.");
    assert Header == "# Generated by teslausb from teslausb.toml [wifi]. Do not" + " edit by hand.";
  }

  lemma ConnectionIsLines(ssid: string)
    requires NewlineFree(ssid)
    ensures AreLines(Connection(ssid))
  {
    HeaderIsALine();
    KeyLine("id=", ssid);
  }

  lemma WifiIsLines(ssid: string, hidden: bool)
    requires NewlineFree(ssid)
    ensures AreLines(Wifi(ssid, hidden))
  {
    KeyLine("ssid=", ssid);
  }

  lemma SecurityIsLines(password: string)
    requires NewlineFree(password)
    ensures AreLines(Security(password) + Addresses)
  {
    KeyLine("psk=", password);
  }

  lemma ProfileIsLines(ssid: string, password: string, hidden: bool)
    requires NewlineFree(ssid) && NewlineFree(password)
    ensures Lines(Profile(ssid, password, hidden)) == ProfileLines(ssid, password, hidden)
  {
    hide Connection, Wifi, Security, Lines, Unlines;
    ConnectionIsLines(ssid);
    WifiIsLines(ssid, hidden);
    SecurityIsLines(password);
    JoinedAreLines(Connection(ssid), Wifi(ssid, hidden));
    JoinedAreLines(Connection(ssid) + Wifi(ssid, hidden), Security(password) + Addresses);
    assert ProfileLines(ssid, password, hidden)
        == (Connection(ssid) + Wifi(ssid, hidden)) + (Security(password) + Addresses);
    LinesOfUnlines(ProfileLines(ssid, password, hidden));
  }

  /** Outside the section, everything up to its header is skipped. */
  lemma {:induction false} PassOver(a: seq<string>, rest: seq<string>, section: string, key: string)
    requires forall l :: l in a ==> l != "[" + section + "]"
    ensures Value(a + rest, false, section, key) == Value(rest, false, section, key)
  {
    if a == [] {
      assert a + rest == rest;
    } else {
      assert (a + rest)[1..] == a[1..] + rest;
      assert a[0] in a && (a + rest)[0] == a[0];
      forall l | l in a[1..] ensures l in a { }
      PassOver(a[1..], rest, section, key);
    }
  }

  /** Two strings that part at index i. */
  lemma Differ(a: string, b: string, i: nat)
    requires i < |a| && i < |b| && a[i] != b[i]
    ensures a != b && !(a <= b) && !(b <= a)
  {
  }

  lemma ConnectionIsOther(ssid: string, header: string)
    requires |header| > 1 && header[0] == '[' && header[1] == 'w'
    ensures forall l :: l in Connection(ssid) ==> l != header
  {
    HeaderIsALine();
    Differ(Header, header, 0);
    Differ("[connection]", header, 1);
    Differ("id=" + ssid, header, 0);
    Differ("type=wifi", header, 0);
    Differ("autoconnect=true", header, 0);
  }

  lemma SsidReadsBack(ssid: string, hidden: bool, rest: seq<string>)
    ensures Value(Connection(ssid) + (Wifi(ssid, hidden) + rest), false, "wifi", "ssid") == Some(ssid)
  {
    var ls := Wifi(ssid, hidden) + rest;
    ConnectionIsOther(ssid, "[wifi]");
    assert "[" + "wifi" + "]" == "[wifi]";
    PassOver(Connection(ssid), ls, "wifi", "ssid");
    assert ls[0] == "[wifi]";
    Differ("[", "ssid=" + ssid, 0);
    assert ls[1..][0] == "ssid=" + ssid && "ssid" + "=" == "ssid=" <= "ssid=" + ssid;
    assert ("ssid=" + ssid)[|"ssid"| + 1..] == ssid;
  }

  lemma PskReadsBack(before: seq<string>, password: string, rest: seq<string>)
    requires forall l :: l in before ==> l != "[wifi-security]"
    ensures Value(before + (Security(password) + rest), false, "wifi-security", "psk") == Some(password)
  {
    var ls := Security(password) + rest;
    assert "[" + "wifi-security" + "]" == "[wifi-security]";
    PassOver(before, ls, "wifi-security", "psk");
    assert ls[0] == "[wifi-security]";
    assert "psk" + "=" == "psk=";
    Differ("psk=", "key-mgmt=wpa-psk", 0);
    Differ("[", "key-mgmt=wpa-psk", 0);
    Differ("[", "psk=" + password, 0);
    assert Value(ls, false, "wifi-security", "psk") == Value(ls[1..], true, "wifi-security", "psk");
    assert ls[1..][0] == "key-mgmt=wpa-psk";
    assert Value(ls[1..], true, "wifi-security", "psk") == Value(ls[1..][1..], true, "wifi-security", "psk");
    assert ls[1..][1..][0] == "psk=" + password && "psk=" <= "psk=" + password;
    assert ("psk=" + password)[|"psk"| + 1..] == password;
  }

  lemma HiddenReadsBack(ssid: string, password: string, hidden: bool)
    ensures Value(Connection(ssid) + (Wifi(ssid, hidden) + (Security(password) + Addresses)), false, "wifi", "hidden")
         == if hidden then Some("true") else None
  {
    var rest := Security(password) + Addresses;
    var ls := Wifi(ssid, hidden) + rest;
    ConnectionIsOther(ssid, "[wifi]");
    assert "[" + "wifi" + "]" == "[wifi]" && "hidden" + "=" == "hidden=";
    PassOver(Connection(ssid), ls, "wifi", "hidden");
    assert ls[0] == "[wifi]";
    Differ("[", "ssid=" + ssid, 0);
    Differ("hidden=", "ssid=" + ssid, 0);
    Differ("[", "mode=infrastructure", 0);
    Differ("hidden=", "mode=infrastructure", 0);
    assert ls[1..][0] == "ssid=" + ssid;
    assert ls[1..][1..][0] == "mode=infrastructure";
    var tail := ls[1..][1..][1..];
    assert Value(ls, false, "wifi", "hidden") == Value(ls[1..], true, "wifi", "hidden");
    assert Value(ls[1..], true, "wifi", "hidden") == Value(ls[1..][1..], true, "wifi", "hidden");
    assert Value(ls[1..][1..], true, "wifi", "hidden") == Value(tail, true, "wifi", "hidden");
    if hidden {
      Differ("[", "hidden=true", 0);
      assert tail[0] == "hidden=true" && "hidden=" <= "hidden=true";
      assert "hidden=true"[|"hidden"| + 1..] == "true";
    } else {
      assert tail[0] == "" && tail[1..] == rest;
      assert Value(tail, true, "wifi", "hidden") == Value(rest, true, "wifi", "hidden");
      Differ("[wifi-security]", "[wifi]", 5);
      assert rest[0] == "[wifi-security]";
      assert Value(rest, true, "wifi", "hidden") == Value(rest[1..], false, "wifi", "hidden");
      NoWifiHeader(password);
      assert rest[1..] + [] == rest[1..];
      PassOver(rest[1..], [], "wifi", "hidden");
    }
  }

  lemma NoWifiHeader(password: string)
    ensures forall l :: l in (Security(password) + Addresses)[1..] ==> l != "[" + "wifi" + "]"
  {
    assert "[" + "wifi" + "]" == "[wifi]";
    Differ("key-mgmt=wpa-psk", "[wifi]", 0);
    Differ("psk=" + password, "[wifi]", 0);
    Differ("[ipv4]", "[wifi]", 1);
    Differ("method=auto", "[wifi]", 0);
    Differ("[ipv6]", "[wifi]", 1);
    assert (Security(password) + Addresses)[1..]
        == ["key-mgmt=wpa-psk", "psk=" + password, "", "[ipv4]", "method=auto", "", "[ipv6]", "method=auto"];
  }

  lemma NoSecurityHeader(ssid: string, hidden: bool)
    ensures forall l :: l in Connection(ssid) + Wifi(ssid, hidden) ==> l != "[wifi-security]"
  {
    ConnectionIsOther(ssid, "[wifi-security]");
    Differ("[wifi]", "[wifi-security]", 5);
    Differ("ssid=" + ssid, "[wifi-security]", 0);
    Differ("mode=infrastructure", "[wifi-security]", 0);
    Differ("hidden=true", "[wifi-security]", 0);
  }

  lemma ReadsBack(ssid: string, password: string, hidden: bool)
    ensures var ls := ProfileLines(ssid, password, hidden);
      && Value(ls, false, "wifi", "ssid") == Some(ssid)
      && Value(ls, false, "wifi-security", "psk") == Some(password)
      && (Value(ls, false, "wifi", "hidden") == Some("true") <==> hidden)
  {
    var c, w, s := Connection(ssid), Wifi(ssid, hidden), Security(password);
    assert ProfileLines(ssid, password, hidden) == c + (w + (s + Addresses)) == (c + w) + (s + Addresses);
    SsidReadsBack(ssid, hidden, s + Addresses);
    NoSecurityHeader(ssid, hidden);
    PskReadsBack(c + w, password, Addresses);
    HiddenReadsBack(ssid, password, hidden);
  }

  /** The profile reads back as what it was written from - if and only if neither the SSID nor the
      password holds a newline. */
  lemma ProfileReadsBackIff(ssid: string, password: string, hidden: bool)
    ensures Read(Profile(ssid, password, hidden)) == Credentials(Some(ssid), Some(password), hidden)
       <==> NewlineFree(ssid) && NewlineFree(password)
  {
    if NewlineFree(ssid) && NewlineFree(password) {
      ProfileIsLines(ssid, password, hidden);
      ReadsBack(ssid, password, hidden);
    } else {
      var ls := Lines(Profile(ssid, password, hidden));
      ValueIsOnOneLine(ls, false, "wifi", "ssid");
      ValueIsOnOneLine(ls, false, "wifi-security", "psk");
    }
  }

  /** A key is read where it stands: in its section, behind lines that are neither headers nor that key. */
  lemma ValueAt(before: seq<string>, section: string, mid: seq<string>, key: string, value: string, rest: seq<string>)
    requires key != "" && key[0] != '['
    requires forall l :: l in before ==> l != "[" + section + "]"
    requires forall l :: l in mid ==> !("[" <= l) && !(key + "=" <= l)
    ensures Value(before + (["[" + section + "]"] + (mid + ([key + "=" + value] + rest))), false, section, key)
         == Some(value)
  {
    var tail := mid + ([key + "=" + value] + rest);
    PassOver(before, ["[" + section + "]"] + tail, section, key);
    assert (["[" + section + "]"] + tail)[0] == "[" + section + "]" && (["[" + section + "]"] + tail)[1..] == tail;
    InSection(mid, section, key, value, rest);
  }

  lemma {:induction false} InSection(mid: seq<string>, section: string, key: string, value: string, rest: seq<string>)
    requires key != "" && key[0] != '['
    requires forall l :: l in mid ==> !("[" <= l) && !(key + "=" <= l)
    ensures Value(mid + ([key + "=" + value] + rest), true, section, key) == Some(value)
    decreases |mid|
  {
    var ls := mid + ([key + "=" + value] + rest);
    if mid == [] {
      assert ls[0] == key + "=" + value && ls[0][0] == key[0];
      assert (key + "=" + value)[|key| + 1..] == value;
      assert key + "=" <= ls[0];
    } else {
      assert ls[0] == mid[0] && mid[0] in mid && ls[1..] == mid[1..] + ([key + "=" + value] + rest);
      forall l | l in mid[1..] ensures l in mid { }
      InSection(mid[1..], section, key, value, rest);
    }
  }

  /** A WiFi connection that goes by the name of the network - which is how it is brought up - connects by itself,
      asks for a passphrase, and gets its addresses from the network. */
  predicate Connects(ls: seq<string>, ssid: string) {
    && Value(ls, false, "connection", "id") == Some(ssid)
    && Value(ls, false, "connection", "type") == Some("wifi")
    && Value(ls, false, "connection", "autoconnect") == Some("true")
    && Value(ls, false, "wifi", "mode") == Some("infrastructure")
    && Value(ls, false, "wifi-security", "key-mgmt") == Some("wpa-psk")
    && Value(ls, false, "ipv4", "method") == Some("auto") && Value(ls, false, "ipv6", "method") == Some("auto")
  }

  /** What else NetworkManager reads in the profile of newline-free credentials. */
  lemma ProfileConnects(ssid: string, password: string, hidden: bool)
    requires NewlineFree(ssid) && NewlineFree(password)
    ensures Connects(Lines(Profile(ssid, password, hidden)), ssid)
  {
    ProfileIsLines(ssid, password, hidden);
    hide Connects;
    LinesConnect(ssid, password, hidden);
  }

  lemma LinesConnect(ssid: string, password: string, hidden: bool)
    ensures Connects(ProfileLines(ssid, password, hidden), ssid)
  {
    hide Value, Connection, Wifi, Security;
    var c, w, s := Connection(ssid), Wifi(ssid, hidden), Security(password);
    ReadsConnection(ssid, w + (s + Addresses));
    ReadsMode(ssid, hidden, s + Addresses);
    ReadsKeyMgmt(ssid, password, hidden);
    ReadsAddresses(ssid, password, hidden);
    assert ProfileLines(ssid, password, hidden) == c + (w + (s + Addresses)) == (c + w) + (s + Addresses);
    assert ProfileLines(ssid, password, hidden) == (c + w + s) + Addresses;
  }

  lemma NoAddressHeader(ssid: string, password: string, hidden: bool, header: string)
    requires |header| > 1 && header[0] == '[' && header[1] == 'i'
    ensures forall l :: l in Connection(ssid) + Wifi(ssid, hidden) + Security(password) ==> l != header
  {
    HeaderIsALine();
    Differ(Header, header, 0);
    Differ("[connection]", header, 1);
    Differ("id=" + ssid, header, 0);
    Differ("type=wifi", header, 0);
    Differ("autoconnect=true", header, 0);
    Differ("[wifi]", header, 1);
    Differ("ssid=" + ssid, header, 0);
    Differ("mode=infrastructure", header, 0);
    Differ("hidden=true", header, 0);
    Differ("[wifi-security]", header, 1);
    Differ("key-mgmt=wpa-psk", header, 0);
    Differ("psk=" + password, header, 0);
  }

  lemma ReadsAddresses(ssid: string, password: string, hidden: bool)
    ensures var ls := (Connection(ssid) + Wifi(ssid, hidden) + Security(password)) + Addresses;
      Value(ls, false, "ipv4", "method") == Some("auto") && Value(ls, false, "ipv6", "method") == Some("auto")
  {
    var before := Connection(ssid) + Wifi(ssid, hidden) + Security(password);
    NoAddressHeader(ssid, password, hidden, "[ipv4]");
    NoAddressHeader(ssid, password, hidden, "[ipv6]");
    hide Connection, Wifi, Security, Value;
    assert "[" + "ipv4" + "]" == "[ipv4]" && "[" + "ipv6" + "]" == "[ipv6]";
    assert "method" + "=" == "method=" && "method=" + "auto" == "method=auto";
    ValueAt(before, "ipv4", [], "method", "auto", ["", "[ipv6]", "method=auto"]);
    assert before + Addresses
        == before + (["[ipv4]"] + ([] + (["method=auto"] + ["", "[ipv6]", "method=auto"])));
    var more := ["[ipv4]", "method=auto", ""];
    Differ("[ipv4]", "[ipv6]", 4);
    Differ("method=auto", "[ipv6]", 0);
    ValueAt(before + more, "ipv6", [], "method", "auto", []);
    assert before + Addresses == (before + more) + (["[ipv6]"] + ([] + (["method=auto"] + [])));
  }

  lemma ReadsConnection(ssid: string, rest: seq<string>)
    ensures var ls := Connection(ssid) + rest;
      && Value(ls, false, "connection", "id") == Some(ssid)
      && Value(ls, false, "connection", "type") == Some("wifi")
      && Value(ls, false, "connection", "autoconnect") == Some("true")
  {
    ReadsId(ssid, rest);
    ReadsType(ssid, rest);
    ReadsAutoconnect(ssid, rest);
    hide Value, Connection;
  }

  lemma HeaderIsOther()
    ensures forall l :: l in [Header] ==> l != "[" + "connection" + "]"
    ensures "[" + "connection" + "]" == "[connection]"
  {
    HeaderIsALine();
    assert "[" + "connection" + "]" == "[connection]";
    Differ(Header, "[connection]", 0);
  }

  lemma ReadsId(ssid: string, rest: seq<string>)
    ensures Value(Connection(ssid) + rest, false, "connection", "id") == Some(ssid)
  {
    HeaderIsOther();
    var after := ["type=wifi", "autoconnect=true", ""] + rest;
    assert "id" + "=" == "id=";
    assert Connection(ssid) + rest == [Header] + (["[connection]"] + ([] + (["id=" + ssid] + after)));
    ValueAt([Header], "connection", [], "id", ssid, after);
  }

  lemma ReadsType(ssid: string, rest: seq<string>)
    ensures Value(Connection(ssid) + rest, false, "connection", "type") == Some("wifi")
  {
    HeaderIsOther();
    var after := ["autoconnect=true", ""] + rest;
    Differ("[", "id=" + ssid, 0);
    Differ("type=", "id=" + ssid, 0);
    assert "type" + "=" == "type=" && "type=" + "wifi" == "type=wifi";
    assert Connection(ssid) + rest == [Header] + (["[connection]"] + (["id=" + ssid] + (["type=wifi"] + after)));
    ValueAt([Header], "connection", ["id=" + ssid], "type", "wifi", after);
  }

  lemma ReadsAutoconnect(ssid: string, rest: seq<string>)
    ensures Value(Connection(ssid) + rest, false, "connection", "autoconnect") == Some("true")
  {
    HeaderIsOther();
    var mid, after := ["id=" + ssid, "type=wifi"], [""] + rest;
    Differ("[", "id=" + ssid, 0);
    Differ("[", "type=wifi", 0);
    Differ("autoconnect=", "id=" + ssid, 0);
    Differ("autoconnect=", "type=wifi", 0);
    assert "autoconnect" + "=" == "autoconnect=" && "autoconnect=" + "true" == "autoconnect=true";
    assert Connection(ssid) + rest == [Header] + (["[connection]"] + (mid + (["autoconnect=true"] + after)));
    ValueAt([Header], "connection", mid, "autoconnect", "true", after);
  }

  lemma ReadsMode(ssid: string, hidden: bool, rest: seq<string>)
    ensures Value(Connection(ssid) + (Wifi(ssid, hidden) + rest), false, "wifi", "mode") == Some("infrastructure")
  {
    ConnectionIsOther(ssid, "[wifi]");
    var after := (if hidden then ["hidden=true"] else []) + [""] + rest;
    assert "[" + "wifi" + "]" == "[wifi]" && "mode" + "=" == "mode=";
    assert "mode=" + "infrastructure" == "mode=infrastructure";
    Differ("[", "ssid=" + ssid, 0);
    Differ("mode=", "ssid=" + ssid, 0);
    assert Wifi(ssid, hidden) + rest == ["[wifi]"] + (["ssid=" + ssid] + (["mode=infrastructure"] + after));
    ValueAt(Connection(ssid), "wifi", ["ssid=" + ssid], "mode", "infrastructure", after);
  }

  lemma ReadsKeyMgmt(ssid: string, password: string, hidden: bool)
    ensures Value((Connection(ssid) + Wifi(ssid, hidden)) + (Security(password) + Addresses), false,
                  "wifi-security", "key-mgmt") == Some("wpa-psk")
  {
    NoSecurityHeader(ssid, hidden);
    var after := ["psk=" + password, ""] + Addresses;
    assert "[" + "wifi-security" + "]" == "[wifi-security]" && "key-mgmt" + "=" == "key-mgmt=";
    assert "key-mgmt=" + "wpa-psk" == "key-mgmt=wpa-psk";
    assert Security(password) + Addresses == ["[wifi-security]"] + ([] + (["key-mgmt=wpa-psk"] + after));
    ValueAt(Connection(ssid) + Wifi(ssid, hidden), "wifi-security", [], "key-mgmt", "wpa-psk", after);
  }

  /** So different newline-free credentials never give the same profile. */
  lemma ProfileIsInjective(s1: string, p1: string, h1: bool, s2: string, p2: string, h2: bool)
    requires NewlineFree(s1) && NewlineFree(p1) && NewlineFree(s2) && NewlineFree(p2)
    ensures Profile(s1, p1, h1) == Profile(s2, p2, h2) <==> s1 == s2 && p1 == p2 && h1 == h2
  {
    ProfileReadsBackIff(s1, p1, h1);
    ProfileReadsBackIff(s2, p2, h2);
  }

  // ------------------------------------------------------------ EnsureHomeConnection

  /** The profile on disk: its text, and whether its mode is 0600. */
  datatype File = File(text: string, secret: bool)

  /** file: teslausb-home.nmconnection, if present; reloads: how often NetworkManager was told; loaded: the
      text of the profile it last read, if any. */
  datatype Disk = Disk(file: Option<File>, reloads: nat, loaded: Option<string>)

  datatype Ensured = Ensured(p: Proc, d: Disk, ok: bool)

  function UpToDate(d: Disk, ssid: string, password: string, hidden: bool): bool {
    d.file.Some? && d.file.value.text == Profile(ssid, password, hidden)
  }

  /** The effect of EnsureHomeConnection. */
  function Ensure(p: Proc, d: Disk, ssid: string, password: string, hidden: bool, env: Env): Ensured {
    if ssid == "" || password == "" then Ensured(p, d, true) else
      var look := Ask(p, env);   // ReadFile
      if look.ok && UpToDate(d, ssid, password, hidden) then Ensured(look.p, d, true) else
        var dir := Ask(look.p, env);   // MkdirAll
        if !dir.ok then Ensured(dir.p, d, false) else
          var w := Ask(dir.p, env);   // WriteFile, which keeps the mode of an existing file
          if !w.ok then Ensured(w.p, d, false) else
            var d1 := d.(file := Some(File(Profile(ssid, password, hidden), d.file.None? || d.file.value.secret)));
            var c := Ask(w.p, env);   // Chmod
            if !c.ok then Ensured(c.p, d1, false) else
              var d2 := d1.(file := Some(d1.file.value.(secret := true)));
              var r := Ask(c.p, env);   // nmcli connection reload
              Ensured(r.p, if r.ok then Reloaded(d2) else d2, r.ok)
  }

  /** NetworkManager reads the profile that is on disk. */
  function Reloaded(d: Disk): Disk
    requires d.file.Some?
  {
    d.(reloads := d.reloads + 1, loaded := Some(d.file.value.text))
  }

  /** The NetworkManager side as an object. */
  class Connections {
    var d: Disk

    constructor (d: Disk)
      ensures this.d == d
    {
      this.d := d;
    }

    method EnsureHomeConnection(h: Host, ssid: string, password: string, hidden: bool) returns (ok: bool)
      modifies this, h
      ensures Ensured(h.p, d, ok) == Ensure(old(h.p), old(d), ssid, password, hidden, h.env)
    {
      if ssid == "" || password == "" {
        return true;
      }
      var desired := RenderHomeKeyfile(ssid, password, hidden);
      var readable := h.Do();
      if readable && d.file.Some? && d.file.value.text == desired {
        return true;
      }
      ok := h.Do();   // MkdirAll
      if !ok { return; }
      ok := h.Do();   // WriteFile
      if !ok { return; }
      d := d.(file := Some(File(desired, d.file.None? || d.file.value.secret)));
      ok := h.Do();   // Chmod
      if !ok { return; }
      d := d.(file := Some(d.file.value.(secret := true)));
      ok := h.Do();   // nmcli connection reload
      if !ok { return; }
      d := Reloaded(d);
    }
  }

  /** Provisioning succeeds if and only if there is nothing to provision, or the profile can be read and is up to
      date, or all of mkdir, write, chmod and reload are carried out - in which case the disk holds the profile, with
      mode 0600, and NetworkManager has it. Nothing to provision, and nothing to do, mean nothing is done. */
  lemma EnsureWorksIff(p: Proc, d: Disk, ssid: string, password: string, hidden: bool, env: Env)
    requires !p.dead
    ensures var e := Ensure(p, d, ssid, password, hidden, env);
      var nothing := ssid == "" || password == "";
      var fine := env(p.clock).Done? && UpToDate(d, ssid, password, hidden);
      var all := !env(p.clock).Killed? && forall i :: p.clock + 1 <= i < p.clock + 5 ==> env(i).Done?;
      && (e.ok <==> nothing || fine || all)
      && (nothing ==> e == Ensured(p, d, true)) && (!nothing && fine ==> e.d == d)
      && (!nothing && !fine && all ==>
            e.d == Disk(Some(File(Profile(ssid, password, hidden), true)), d.reloads + 1,
                        Some(Profile(ssid, password, hidden))))
  {
    hide Profile;
  }

  /** On a disk whose profile this code wrote for newline-free credentials, a readable profile is left
      alone - nothing written, nothing reloaded, its mode as it was - exactly when the credentials are
      unchanged; otherwise a successful call leaves a 0600 profile and reloads once. Either way the profile
      reads back as the credentials. */
  lemma SkipsIffUnchanged(p: Proc, d: Disk, s0: string, p0: string, h0: bool,
                          ssid: string, password: string, hidden: bool, env: Env)
    requires !p.dead && ssid != "" && password != "" && NewlineFree(ssid) && NewlineFree(password)
    requires NewlineFree(s0) && NewlineFree(p0) && d.file.Some? && d.file.value.text == Profile(s0, p0, h0)
    ensures var e := Ensure(p, d, ssid, password, hidden, env);
      && (Ask(p, env).ok && (s0, p0, h0) == (ssid, password, hidden) ==> e == Ensured(Ask(p, env).p, d, true))
      && (e.ok && e.d == d ==> (s0, p0, h0) == (ssid, password, hidden))
      && (e.ok && e.d != d ==> e.d.reloads == d.reloads + 1 && e.d.file.Some? && e.d.file.value.secret)
      && (e.ok ==> e.d.file.Some? && Read(e.d.file.value.text) == Credentials(Some(ssid), Some(password), hidden))
  {
    ProfileIsInjective(s0, p0, h0, ssid, password, hidden);
    ProfileReadsBackIff(ssid, password, hidden);
  }

  /** The profile is on disk, but not what NetworkManager runs on. */
  predicate Stale(d: Disk, ssid: string, password: string, hidden: bool) {
    UpToDate(d, ssid, password, hidden) && d.loaded != Some(Profile(ssid, password, hidden))
  }

  /** What a caller wants of success - that NetworkManager has the profile - holds whatever the call meets if
      and only if it did not find the profile on disk and not loaded: then it takes the file for the fact. */
  lemma SuccessMeansLoadedIff(p: Proc, d: Disk, ssid: string, password: string, hidden: bool)
    requires !p.dead && ssid != "" && password != ""
    ensures (forall env :: var e := Ensure(p, d, ssid, password, hidden, env);
                           e.ok ==> e.d.loaded == Some(Profile(ssid, password, hidden)))
       <==> !Stale(d, ssid, password, hidden)
  {
    hide Profile;
    if Stale(d, ssid, password, hidden) {
      var env: Env := n => Done(0);
      assert Ensure(p, d, ssid, password, hidden, env) == Ensured(Ask(p, env).p, d, true);
    }
  }

  /** And a refused reload leads there, from any disk without the profile: the call fails with the profile
      written, and every later call that can read it succeeds at once, without another reload. */
  lemma FailedReloadIsNotRetried(p: Proc, d: Disk, ssid: string, password: string, hidden: bool)
    requires !p.dead && ssid != "" && password != ""
    requires !UpToDate(d, ssid, password, hidden) && d.loaded != Some(Profile(ssid, password, hidden))
    ensures exists env :: var e := Ensure(p, d, ssid, password, hidden, env);
              && !e.ok && !e.p.dead && Stale(e.d, ssid, password, hidden)
              && forall env' :: var again := Ensure(e.p, e.d, ssid, password, hidden, env');
                   Ask(e.p, env').ok ==> again.ok && again.d == e.d && Stale(again.d, ssid, password, hidden)
  {
    hide Profile;
    var env: Env := n => if n == p.clock + 4 then Refused else Done(0);
    var e := Ensure(p, d, ssid, password, hidden, env);
    assert !e.ok && e.p == Proc(p.clock + 5, false) && Stale(e.d, ssid, password, hidden);
  }

  /** The profile is on disk, and others than its owner may read it. */
  predicate Loose(d: Disk, ssid: string, password: string, hidden: bool) {
    UpToDate(d, ssid, password, hidden) && !d.file.value.secret
  }

  /** Success leaves a 0600 profile, whatever the call meets, if and only if it did not find the profile on
      disk with another mode: then it takes it as it is. */
  lemma SuccessMeansSecretIff(p: Proc, d: Disk, ssid: string, password: string, hidden: bool)
    requires !p.dead && ssid != "" && password != ""
    ensures (forall env :: var e := Ensure(p, d, ssid, password, hidden, env);
                           e.ok ==> e.d.file.Some? && e.d.file.value.secret)
       <==> !Loose(d, ssid, password, hidden)
  {
    hide Profile;
    if Loose(d, ssid, password, hidden) {
      var env: Env := n => Done(0);
      assert Ensure(p, d, ssid, password, hidden, env) == Ensured(Ask(p, env).p, d, true);
    }
  }

  /** And a refused chmod leads there, from any disk with a loose file: the call fails with the profile written
      into it, and every later call that can read it succeeds at once and leaves it loose. */
  lemma RefusedChmodIsNotRetried(p: Proc, d: Disk, ssid: string, password: string, hidden: bool)
    requires !p.dead && ssid != "" && password != ""
    requires d.file.Some? && !d.file.value.secret && !UpToDate(d, ssid, password, hidden)
    ensures exists env :: var e := Ensure(p, d, ssid, password, hidden, env);
              && !e.ok && !e.p.dead && Loose(e.d, ssid, password, hidden)
              && forall env' :: var again := Ensure(e.p, e.d, ssid, password, hidden, env');
                   Ask(e.p, env').ok ==> again.ok && again.d == e.d && Loose(again.d, ssid, password, hidden)
  {
    hide Profile;
    var env: Env := n => if n == p.clock + 3 then Refused else Done(0);
    var e := Ensure(p, d, ssid, password, hidden, env);
    assert !e.ok && e.p == Proc(p.clock + 4, false) && Loose(e.d, ssid, password, hidden);
  }
}
