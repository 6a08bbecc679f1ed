/** allowlist.conf: what SaveConfig prints, what LoadConfig parses, and exactly
    which configurations survive the trip. */
module ConfigFile {
  import opened Text
  import opened TextFacts
  import opened Seqs
  import opened Rules
  import opened Files

  datatype Config = Config(
    lan: string,
    hostIP: string,
    hostTCP: seq<string>,
    hostUDP: seq<string>,
    dockerDrop: seq<string>,
    v6Drop: seq<string>)

  datatype Key = Lan | HostIP | HostTCP | HostUDP | DockerDrop | V6Drop

  const KEYS: seq<Key> := [Lan, HostIP, HostTCP, HostUDP, DockerDrop, V6Drop]

  function Name(k: Key): string {
    match k
    case Lan => "LAN"
    case HostIP => "HOST_IP"
    case HostTCP => "HOST_TCP_LAN"
    case HostUDP => "HOST_UDP_LAN"
    case DockerDrop => "DOCKER_DROP_LAN"
    case V6Drop => "V6_DROP"
  }

  // ----- validation -----

  function Natural(s: string): (n: int)
    ensures n >= 0
  {
    if s == "" then 0
    else Natural(s[..|s| - 1]) * 10 + if IsDigit(s[|s| - 1]) then s[|s| - 1] as int - '0' as int else 0
  }

  predicate AllDigits(s: string) {
    s != "" && forall c | c in s :: IsDigit(c)
  }

  /** `strconv.Atoi`, which takes one leading sign. A value too large for the
      machine is an error there and out of the port range here. */
  function Atoi(s: string): Option<int> {
    if AllDigits(s) then Some(Natural(s))
    else if s != "" && s[0] in {'+', '-'} && AllDigits(s[1..])
    then Some(if s[0] == '-' then -Natural(s[1..]) else Natural(s[1..]))
    else None
  }

  predicate PortText(s: string) {
    Atoi(s).Some? && IsPort(Atoi(s).value)
  }

  predicate ValidConfig(net: NetParser, c: Config) {
    && net.isIPv4CIDR(c.lan)
    && net.isIPv4(c.hostIP)
    && forall p | p in c.hostTCP + c.hostUDP + c.dockerDrop + c.v6Drop :: PortText(p)
  }

  // ----- printing -----

  function Value(c: Config, k: Key): string {
    match k
    case Lan => c.lan
    case HostIP => c.hostIP
    case HostTCP => Join(c.hostTCP, ',')
    case HostUDP => Join(c.hostUDP, ',')
    case DockerDrop => Join(c.dockerDrop, ',')
    case V6Drop => Join(c.v6Drop, ',')
  }

  const BANNER: seq<string> := [
    "# ZFW Allowlist — " + "managed by the " + "zfw module UI.",
    "# Hand edits are " + "fine; the UI " + "rewrites this " + "file on save.",
    ""]

  function SettingLine(c: Config, k: Key): string {
    Name(k) + "=" + Value(c, k)
  }

  function SavedLines(c: Config): seq<string> {
    BANNER + seq(|KEYS|, i requires 0 <= i < |KEYS| => SettingLine(c, KEYS[i]))
  }

  /** Every line ended by a newline. */
  function Terminated(lines: seq<string>): string {
    if lines == [] then "" else lines[0] + ['\n'] + Terminated(lines[1..])
  }

  function SaveText(c: Config): string {
    Terminated(SavedLines(c))
  }

  // ----- parsing -----

  function DropCR(s: string): string {
    if s != "" && s[|s| - 1] == '\r' then s[..|s| - 1] else s
  }

  function DropCRs(lines: seq<string>): seq<string> {
    seq(|lines|, i requires 0 <= i < |lines| => DropCR(lines[i]))
  }

  /** `bufio.ScanLines`: no line after the last newline. */
  function Lines(text: string): seq<string> {
    var parts := Split(text, '\n');
    var n := |parts| - 1;
    DropCRs(if parts[n] == "" then parts[..n] else parts)
  }

  /** The part before the first separator, all of it when there is none. */
  function Before(s: string, sep: char): (r: string)
    ensures |r| <= |s| && r == s[..|r|]
    ensures sep !in r
    ensures |r| < |s| ==> s[|r|] == sep
  {
    if s == "" || s[0] == sep then "" else [s[0]] + Before(s[1..], sep)
  }

  /** The key and raw value of one line, unless it is blank, a comment, has no
      `=` or names no known key. */
  function Setting(line: string): Option<(Key, string)> {
    var t := Trim(line);
    var k := Before(t, '=');
    if t == "" || t[0] == '#' || |k| == |t| then None
    else
      match KeyOf(Trim(k))
      case None => None
      case Some(key) => Some((key, t[|k| + 1..]))
  }

  function KeyOf(s: string): Option<Key> {
    if s == "LAN" then Some(Lan)
    else if s == "HOST_IP" then Some(HostIP)
    else if s == "HOST_TCP_LAN" then Some(HostTCP)
    else if s == "HOST_UDP_LAN" then Some(HostUDP)
    else if s == "DOCKER_DROP_LAN" then Some(DockerDrop)
    else if s == "V6_DROP" then Some(V6Drop)
    else None
  }

  /** What the last line that sets a key sets it to. */
  function LastSetting(lines: seq<string>, k: Key): Option<string> {
    if lines == [] then None
    else
      var s := Setting(lines[|lines| - 1]);
      if s.Some? && s.value.0 == k then Some(s.value.1) else LastSetting(lines[..|lines| - 1], k)
  }

  function TextOf(lines: seq<string>, k: Key): string {
    var s := LastSetting(lines, k);
    if s.Some? then Trim(s.value) else ""
  }

  function ListOf(lines: seq<string>, k: Key): seq<string> {
    var s := LastSetting(lines, k);
    if s.Some? then CommaList(s.value) else []
  }

  /** Each field holds what the last line naming it says. */
  function ConfigOf(lines: seq<string>): Config {
    Config(TextOf(lines, Lan), TextOf(lines, HostIP), ListOf(lines, HostTCP), ListOf(lines, HostUDP),
           ListOf(lines, DockerDrop), ListOf(lines, V6Drop))
  }

  /** One key of a configuration set to a raw value. */
  function Updated(c: Config, k: Key, v: string): Config {
    match k
    case Lan => c.(lan := Trim(v))
    case HostIP => c.(hostIP := Trim(v))
    case HostTCP => c.(hostTCP := CommaList(v))
    case HostUDP => c.(hostUDP := CommaList(v))
    case DockerDrop => c.(dockerDrop := CommaList(v))
    case V6Drop => c.(v6Drop := CommaList(v))
  }

  lemma LastSnoc(lines: seq<string>, l: string, k: Key)
    ensures LastSetting(lines + [l], k) ==
      if Setting(l).Some? && Setting(l).value.0 == k then Some(Setting(l).value.1) else LastSetting(lines, k)
  {
    assert (lines + [l])[..|lines|] == lines;
  }

  /** A configuration told by its lines' settings alone. */
  lemma ConfigBy(was: seq<string>, now: seq<string>, s: Option<(Key, string)>)
    requires forall k ::
      LastSetting(now, k) == if s.Some? && s.value.0 == k then Some(s.value.1) else LastSetting(was, k)
    ensures ConfigOf(now) == if s.Some? then Updated(ConfigOf(was), s.value.0, s.value.1) else ConfigOf(was)
  {
  }

  lemma ConfigSnoc(lines: seq<string>, l: string)
    ensures ConfigOf(lines + [l]) ==
      if Setting(l).Some? then Updated(ConfigOf(lines), Setting(l).value.0, Setting(l).value.1) else ConfigOf(lines)
  {
    forall k ensures LastSetting(lines + [l], k) ==
      if Setting(l).Some? && Setting(l).value.0 == k then Some(Setting(l).value.1) else LastSetting(lines, k)
    {
      LastSnoc(lines, l, k);
    }
    ConfigBy(lines, lines + [l], Setting(l));
  }

  function Parsed(text: string): Config {
    ConfigOf(Lines(text))
  }

  // ----- the manager and its file -----

  class Manager {
    var conf: Option<string>
    var tmp: Option<string>

    constructor (conf: Option<string>)
      ensures this.conf == conf && tmp == None
    {
      this.conf := conf;
      tmp := None;
    }

    /** The file holds the old text or the whole new one, never part of it. */
    method SaveConfig(net: NetParser, c: Config, disk: Disk) returns (ok: bool)
      modifies this
      ensures ok <==> ValidConfig(net, c) && disk.writes && disk.renames
      ensures ok ==> conf == Some(SaveText(c))
      ensures !ok ==> conf == old(conf)
      ensures !ValidConfig(net, c) ==> tmp == old(tmp)
    {
      var valid := CheckConfig(net, c);
      if !valid {
        return false;
      }
      var b := Render(c);
      if !disk.writes {
        return false;
      }
      tmp := Some(b);
      if !disk.renames {
        return false;
      }
      conf, tmp := tmp, None;
      return true;
    }

    method LoadConfig() returns (loaded: Option<Config>)
      ensures conf.None? ==> loaded == None
      ensures conf.Some? ==> loaded == Some(Parsed(conf.value))
    {
      if conf.None? {
        return None;
      }
      var lines := Lines(conf.value);
      var c := Config("", "", [], [], [], []);
      for i := 0 to |lines|
        invariant c == ConfigOf(lines[..i])
      {
        ConfigSnoc(lines[..i], lines[i]);
        assert lines[..i + 1] == lines[..i] + [lines[i]];
        var line := Trim(lines[i]);
        if line == "" || line[0] == '#' {
          continue;
        }
        var k := Before(line, '=');
        if |k| == |line| {
          continue;
        }
        var v := line[|k| + 1..];
        var key := KeyOf(Trim(k));
        if key.None? {
          continue;
        }
        match key.value {
          case Lan => c := c.(lan := Trim(v));
          case HostIP => c := c.(hostIP := Trim(v));
          case HostTCP => var ports := SplitPorts(v); c := c.(hostTCP := ports);
          case HostUDP => var ports := SplitPorts(v); c := c.(hostUDP := ports);
          case DockerDrop => var ports := SplitPorts(v); c := c.(dockerDrop := ports);
          case V6Drop => var ports := SplitPorts(v); c := c.(v6Drop := ports);
        }
      }
      assert lines[..|lines|] == lines;
      return Some(c);
    }
  }

  method CheckConfig(net: NetParser, c: Config) returns (ok: bool)
    ensures ok <==> ValidConfig(net, c)
  {
    if !net.isIPv4CIDR(c.lan) || !net.isIPv4(c.hostIP) {
      return false;
    }
    var sets := [c.hostTCP, c.hostUDP, c.dockerDrop, c.v6Drop];
    var all := c.hostTCP + c.hostUDP + c.dockerDrop + c.v6Drop;
    for i := 0 to |sets|
      invariant forall j | 0 <= j < i :: forall p | p in sets[j] :: PortText(p)
    {
      for j := 0 to |sets[i]|
        invariant forall l | 0 <= l < j :: PortText(sets[i][l])
      {
        if !PortText(sets[i][j]) {
          assert sets[i][j] in all;
          return false;
        }
      }
    }
    forall p | p in all ensures PortText(p) {
      assert p in sets[0] || p in sets[1] || p in sets[2] || p in sets[3];
    }
    return true;
  }

  /** `splitPorts`. */
  method SplitPorts(v: string) returns (out: seq<string>)
    ensures out == CommaList(v)
  {
    out := [];
    var parts := Split(v, ',');
    for i := 0 to |parts|
      invariant out == NonBlank(parts[..i])
    {
      assert parts[..i + 1][..i] == parts[..i];
      var p := Trim(parts[i]);
      if p != "" {
        out := out + [p];
      }
    }
    assert parts[..|parts|] == parts;
  }

  lemma {:induction false} TerminatedSnoc(lines: seq<string>, l: string)
    ensures Terminated(lines + [l]) == Terminated(lines) + l + "\n"
  {
    if lines == [] {
      assert ([] + [l])[1..] == [];
    } else {
      TerminatedSnoc(lines[1..], l);
      assert (lines + [l])[1..] == lines[1..] + [l];
    }
  }

  method PutLine(b: string, ghost done: seq<string>, line: string) returns (more: string)
    requires b == Terminated(done)
    ensures more == Terminated(done + [line])
  {
    more := b + line + "\n";
    TerminatedSnoc(done, line);
  }

  /** The banner and the six settings, written one after the other. */
  method Render(c: Config) returns (b: string)
    ensures b == SaveText(c)
  {
    BannerGrows();
    b := PutLine("", [], BANNER[0]);
    b := PutLine(b, [BANNER[0]], BANNER[1]);
    b := PutLine(b, [BANNER[0], BANNER[1]], BANNER[2]);
    ghost var done := BANNER;
    b := PutLine(b, done, SettingLine(c, Lan));
    done := done + [SettingLine(c, Lan)];
    b := PutLine(b, done, SettingLine(c, HostIP));
    done := done + [SettingLine(c, HostIP)];
    b := PutLine(b, done, SettingLine(c, HostTCP));
    done := done + [SettingLine(c, HostTCP)];
    b := PutLine(b, done, SettingLine(c, HostUDP));
    done := done + [SettingLine(c, HostUDP)];
    b := PutLine(b, done, SettingLine(c, DockerDrop));
    done := done + [SettingLine(c, DockerDrop)];
    b := PutLine(b, done, SettingLine(c, V6Drop));
    done := done + [SettingLine(c, V6Drop)];
    SettingsDone(c, done);
  }

  lemma BannerGrows()
    ensures [] + [BANNER[0]] == [BANNER[0]]
    ensures [BANNER[0]] + [BANNER[1]] == [BANNER[0], BANNER[1]]
    ensures [BANNER[0], BANNER[1]] + [BANNER[2]] == BANNER
  {
  }

  lemma SettingsDone(c: Config, done: seq<string>)
    requires done == BANNER + [SettingLine(c, Lan)] + [SettingLine(c, HostIP)] + [SettingLine(c, HostTCP)]
      + [SettingLine(c, HostUDP)] + [SettingLine(c, DockerDrop)] + [SettingLine(c, V6Drop)]
    ensures done == SavedLines(c)
  {
    var lines := seq(|KEYS|, i requires 0 <= i < |KEYS| => SettingLine(c, KEYS[i]));
    assert lines == [SettingLine(c, Lan)] + [SettingLine(c, HostIP)] + [SettingLine(c, HostTCP)]
      + [SettingLine(c, HostUDP)] + [SettingLine(c, DockerDrop)] + [SettingLine(c, V6Drop)];
  }

  // ----- the round trip -----

  /** A value one line of the file can carry. */
  predicate PlainText(s: string) {
    Trimmed(s) && '\n' !in s
  }

  predicate PlainItem(p: string) {
    PlainText(p) && p != "" && ',' !in p
  }

  predicate PlainItems(parts: seq<string>) {
    forall p | p in parts :: PlainItem(p)
  }

  /** What a configuration must look like to be printable in this format. */
  predicate Clean(c: Config) {
    && PlainText(c.lan) && PlainText(c.hostIP)
    && PlainItems(c.hostTCP) && PlainItems(c.hostUDP) && PlainItems(c.dockerDrop) && PlainItems(c.v6Drop)
  }

  lemma {:induction false} BeforeAt(head: string, tail: string, sep: char)
    requires sep !in head
    ensures Before(head + [sep] + tail, sep) == head
  {
    if head != "" {
      var s := head + [sep] + tail;
      assert s[1..] == head[1..] + [sep] + tail;
      BeforeAt(head[1..], tail, sep);
      assert head == [head[0]] + head[1..];
    }
  }

  lemma NameFacts(k: Key)
    ensures var n := Name(k);
            && n != "" && n[0] != '#' && Trimmed(n) && '=' !in n && '\n' !in n && KeyOf(n) == Some(k)
  {
  }

  lemma SettingOfLine(k: Key, name: string, v: string, line: string)
    requires name == Name(k) && line == name + "=" + v && Trimmed(v)
    ensures Setting(line) == Some((k, v))
  {
    NameFacts(k);
    assert line[0] == name[0];
    assert line[|line| - 1] == if v == "" then '=' else v[|v| - 1];
    TrimFacts(line);
    BeforeAt(name, v, '=');
    TrimFacts(name);
    assert line[|name| + 1..] == v;
  }

  /** Settings of distinct keys read back one by one, each from its own line. */
  lemma {:induction false} SettingsReadBack(
      pre: seq<string>, lines: seq<string>, keys: seq<Key>, values: seq<string>, i: nat)
    requires i < |lines| == |keys| == |values|
    requires forall j | 0 <= j < |lines| :: Setting(lines[j]) == Some((keys[j], values[j]))
    requires forall j, l | 0 <= j < l < |keys| :: keys[j] != keys[l]
    ensures LastSetting(pre + lines, keys[i]) == Some(values[i])
  {
    var n := |lines| - 1;
    SplitLast(lines);
    Assoc3(pre, lines[..n], [lines[n]]);
    LastSnoc(pre + lines[..n], lines[n], keys[i]);
    if i < n {
      SettingsReadBack(pre, lines[..n], keys[..n], values[..n], i);
    }
  }

  lemma {:induction false} ItemsJoined(parts: seq<string>)
    requires PlainItems(parts) && parts != []
    ensures PlainText(Join(parts, ',')) && Join(parts, ',') != ""
  {
    assert PlainItem(parts[0]);
    if |parts| > 1 {
      var rest := Join(parts[1..], ',');
      ItemsJoined(parts[1..]);
      assert Join(parts, ',') == parts[0] + [','] + rest;
    }
  }

  lemma {:induction false} NonBlankPlain(parts: seq<string>)
    requires PlainItems(parts)
    ensures NonBlank(parts) == parts
  {
    if parts != [] {
      NonBlankPlain(parts[..|parts| - 1]);
      assert PlainItem(parts[|parts| - 1]);
      TrimFacts(parts[|parts| - 1]);
    }
  }

  lemma ListReadBack(parts: seq<string>)
    requires PlainItems(parts)
    ensures PlainText(Join(parts, ',')) && CommaList(Join(parts, ',')) == parts
  {
    if parts == [] {
      assert NonBlank([""]) == NonBlank([""][..0]);
    } else {
      ItemsJoined(parts);
      SplitOfJoin(parts, ',');
      NonBlankPlain(parts);
    }
  }

  lemma {:induction false} SplitTerminated(lines: seq<string>)
    requires forall l | l in lines :: '\n' !in l
    ensures Split(Terminated(lines), '\n') == lines + [""]
  {
    if lines != [] {
      SplitTerminated(lines[1..]);
      SplitAtSep(lines[0], Terminated(lines[1..]), '\n');
      assert lines == [lines[0]] + lines[1..];
    }
  }

  lemma LinesReadBack(lines: seq<string>)
    requires forall l | l in lines :: '\n' !in l && DropCR(l) == l
    ensures Lines(Terminated(lines)) == lines
  {
    SplitTerminated(lines);
    assert (lines + [""])[..|lines|] == lines;
  }

  lemma ValuesPlain(c: Config, k: Key)
    requires Clean(c)
    ensures PlainText(Value(c, k))
  {
    ListReadBack(c.hostTCP);
    ListReadBack(c.hostUDP);
    ListReadBack(c.dockerDrop);
    ListReadBack(c.v6Drop);
  }

  lemma BannerPlain(l: string)
    requires l in BANNER
    ensures '\n' !in l && DropCR(l) == l
  {
    assert l == BANNER[0] || l == BANNER[1] || l == BANNER[2];
    assert '\n' !in "# ZFW Allowlist — " && '\n' !in "managed by the " && '\n' !in "zfw module UI.";
    assert '\n' !in "# Hand edits are " && '\n' !in "fine; the UI ";
    assert '\n' !in "rewrites this " && '\n' !in "file on save.";
  }

  lemma SavedLinesPlain(c: Config, l: string)
    requires Clean(c) && l in SavedLines(c)
    ensures '\n' !in l && DropCR(l) == l
  {
    if l in BANNER {
      BannerPlain(l);
    } else {
      var i :| 0 <= i < |KEYS| && l == SettingLine(c, KEYS[i]);
      ValuesPlain(c, KEYS[i]);
      SettingLinePlain(KEYS[i], Name(KEYS[i]), Value(c, KEYS[i]), l);
    }
  }

  lemma SettingLinePlain(k: Key, name: string, v: string, line: string)
    requires name == Name(k) && line == name + "=" + v && PlainText(v)
    ensures '\n' !in line && DropCR(line) == line
  {
    NameFacts(k);
    assert line[|line| - 1] == if v == "" then '=' else v[|v| - 1];
  }

  lemma CleanReadsBack(c: Config)
    requires Clean(c)
    ensures Parsed(SaveText(c)) == c
  {
    forall l | l in SavedLines(c) ensures '\n' !in l && DropCR(l) == l {
      SavedLinesPlain(c, l);
    }
    LinesReadBack(SavedLines(c));
    forall k ensures PlainText(Value(c, k)) {
      ValuesPlain(c, k);
    }
    AllReadBack(c);
    FieldsReadBack(c, SavedLines(c));
  }

  lemma KeysDistinct()
    ensures forall j, l | 0 <= j < l < |KEYS| :: KEYS[j] != KEYS[l]
  {
  }

  lemma AllReadBack(c: Config)
    requires forall k :: Trimmed(Value(c, k))
    ensures forall i | 0 <= i < |KEYS| :: LastSetting(SavedLines(c), KEYS[i]) == Some(Value(c, KEYS[i]))
  {
    var lines := seq(|KEYS|, i requires 0 <= i < |KEYS| => SettingLine(c, KEYS[i]));
    var values := seq(|KEYS|, i requires 0 <= i < |KEYS| => Value(c, KEYS[i]));
    KeysDistinct();
    forall i | 0 <= i < |KEYS| ensures Setting(lines[i]) == Some((KEYS[i], values[i])) {
      SettingOfLine(KEYS[i], Name(KEYS[i]), values[i], lines[i]);
    }
    forall i | 0 <= i < |KEYS| ensures LastSetting(SavedLines(c), KEYS[i]) == Some(values[i]) {
      SettingsReadBack(BANNER, lines, KEYS, values, i);
    }
  }

  lemma FieldsReadBack(c: Config, lines: seq<string>)
    requires Clean(c) && forall i | 0 <= i < |KEYS| :: LastSetting(lines, KEYS[i]) == Some(Value(c, KEYS[i]))
    ensures ConfigOf(lines) == c
  {
    assert KEYS[0] == Lan && KEYS[1] == HostIP && KEYS[2] == HostTCP && KEYS[3] == HostUDP
        && KEYS[4] == DockerDrop && KEYS[5] == V6Drop;
    TrimFacts(c.lan);
    TrimFacts(c.hostIP);
    ListReadBack(c.hostTCP);
    ListReadBack(c.hostUDP);
    ListReadBack(c.dockerDrop);
    ListReadBack(c.v6Drop);
  }

  // ----- whatever is loaded is clean -----

  lemma {:induction false} SplitLacks(s: string, sep: char)
    ensures forall part | part in Split(s, sep) :: sep !in part && forall x | x in part :: x in s
  {
    if s != "" {
      SplitLacks(s[1..], sep);
      var rest := Split(s[1..], sep);
      forall part | part in Split(s, sep) ensures sep !in part && forall x | x in part :: x in s {
        assert part == "" || part == [s[0]] + rest[0] || part in rest;
      }
    }
  }

  lemma {:induction false} NonBlankLacks(parts: seq<string>, c: char)
    requires forall p | p in parts :: c !in p
    ensures forall p | p in NonBlank(parts) :: p != "" && Trimmed(p) && c !in p
  {
    if parts != [] {
      NonBlankLacks(parts[..|parts| - 1], c);
      TrimFacts(parts[|parts| - 1]);
    }
  }

  lemma ListIsPlain(v: string)
    requires '\n' !in v
    ensures PlainItems(CommaList(v))
  {
    SplitLacks(v, ',');
    NonBlankLacks(Split(v, ','), ',');
    NonBlankLacks(Split(v, ','), '\n');
  }

  lemma LinesLackNewline(text: string)
    ensures forall l | l in Lines(text) :: '\n' !in l
  {
    SplitLacks(text, '\n');
    var parts := Split(text, '\n');
    forall i | 0 <= i < |Lines(text)| ensures '\n' !in Lines(text)[i] {
      assert parts[i] in parts;
    }
  }

  lemma {:induction false} LastSettingPlain(lines: seq<string>, k: Key)
    requires forall l | l in lines :: '\n' !in l
    ensures var s := LastSetting(lines, k);
            s.Some? ==> '\n' !in s.value
  {
    if lines != [] {
      LastSettingPlain(lines[..|lines| - 1], k);
      TrimFacts(lines[|lines| - 1]);
      assert lines[|lines| - 1] in lines;
    }
  }

  lemma ParsedIsClean(text: string)
    ensures Clean(Parsed(text))
  {
    LinesLackNewline(text);
    var lines := Lines(text);
    forall k ensures PlainText(TextOf(lines, k)) && PlainItems(ListOf(lines, k)) {
      LastSettingPlain(lines, k);
      var s := LastSetting(lines, k);
      if s.Some? {
        TrimFacts(s.value);
        ListIsPlain(s.value);
      }
    }
  }

  /** A configuration comes back unchanged from the file exactly when it is
      clean: texts without outer white space or line breaks, list items neither
      blank nor holding a comma. */
  lemma RoundTripExact(c: Config)
    ensures Parsed(SaveText(c)) == c <==> Clean(c)
  {
    if Clean(c) {
      CleanReadsBack(c);
    } else {
      ParsedIsClean(SaveText(c));
    }
  }

  /** The `net` parsers take no text with white space in it. */
  ghost predicate NoSpaces(net: NetParser) {
    forall s: string | net.isIPv4(s) || net.isIPv4CIDR(s) :: forall x | x in s :: !IsSpace(x)
  }

  lemma PortTextPlain(p: string)
    requires PortText(p)
    ensures PlainItem(p)
  {
    if !AllDigits(p) {
      assert p == [p[0]] + p[1..];
    }
    assert forall x | x in p :: IsDigit(x) || x in {'+', '-'};
    assert p[0] in p && p[|p| - 1] in p;
  }

  /** Every configuration the validator lets through is read back as it was saved. */
  lemma ValidRoundTrip(net: NetParser, c: Config)
    requires NoSpaces(net) && ValidConfig(net, c)
    ensures Parsed(SaveText(c)) == c
  {
    var all := c.hostTCP + c.hostUDP + c.dockerDrop + c.v6Drop;
    forall p | p in all ensures PlainItem(p) {
      PortTextPlain(p);
    }
    PartsPlain(c, all);
    RoundTripExact(c);
  }

  lemma PartsPlain(c: Config, all: seq<string>)
    requires all == c.hostTCP + c.hostUDP + c.dockerDrop + c.v6Drop && PlainItems(all)
    ensures PlainItems(c.hostTCP) && PlainItems(c.hostUDP) && PlainItems(c.dockerDrop) && PlainItems(c.v6Drop)
  {
    forall p | p in c.hostTCP || p in c.hostUDP || p in c.dockerDrop || p in c.v6Drop ensures p in all {
    }
  }

  // ----- the words of the file -----

  lemma OneLineRead(k: Key, name: string, v: string)
    requires name == Name(k) && PlainText(v)
    ensures Lines(name + "=" + v + "\n") == [name + "=" + v]
    ensures forall key :: LastSetting([name + "=" + v], key) == if key == k then Some(v) else None
  {
    var line := name + "=" + v;
    SettingLinePlain(k, name, v, line);
    SettingOfLine(k, name, v, line);
    LinesReadBack([line]);
    assert [line][1..] == [] && [line][..0] == [];
    assert Terminated([line]) == line + ['\n'] + Terminated([]);
    assert Terminated([line]) == line + "\n";
  }

  /** A file of one line, for each of the six words it may set: the two addresses, */
  lemma AddressesRead(v: string)
    requires PlainText(v)
    ensures Parsed("LAN=" + v + "\n") == Config(v, "", [], [], [], [])
    ensures Parsed("HOST_IP=" + v + "\n") == Config("", v, [], [], [], [])
  {
    TrimFacts(v);
    Word(Lan, "LAN", "LAN=", v);
    Word(HostIP, "HOST_IP", "HOST_IP=", v);
  }

  /** the ports of the host, */
  lemma HostPortsRead(v: string)
    requires PlainText(v)
    ensures Parsed("HOST_TCP_LAN=" + v + "\n") == Config("", "", CommaList(v), [], [], [])
    ensures Parsed("HOST_UDP_LAN=" + v + "\n") == Config("", "", [], CommaList(v), [], [])
  {
    Word(HostTCP, "HOST_TCP_LAN", "HOST_TCP_LAN=", v);
    Word(HostUDP, "HOST_UDP_LAN", "HOST_UDP_LAN=", v);
  }

  /** and what is kept from containers and from IPv6. */
  lemma DropsRead(v: string)
    requires PlainText(v)
    ensures Parsed("DOCKER_DROP_LAN=" + v + "\n") == Config("", "", [], [], CommaList(v), [])
    ensures Parsed("V6_DROP=" + v + "\n") == Config("", "", [], [], [], CommaList(v))
  {
    Word(DockerDrop, "DOCKER_DROP_LAN", "DOCKER_DROP_LAN=", v);
    Word(V6Drop, "V6_DROP", "V6_DROP=", v);
  }

  lemma Word(k: Key, name: string, word: string, v: string)
    requires name == Name(k) && word == name + "=" && PlainText(v)
    ensures Parsed(word + v + "\n") == Updated(Config("", "", [], [], [], []), k, v)
  {
    OneLineRead(k, name, v);
    assert word + v + "\n" == name + "=" + v + "\n";
    OneSetting(k, [name + "=" + v], v);
  }

  lemma OneSetting(k: Key, lines: seq<string>, v: string)
    requires forall key :: LastSetting(lines, key) == if key == k then Some(v) else None
    ensures ConfigOf(lines) == Updated(Config("", "", [], [], [], []), k, v)
  {
  }

  // ----- which texts are ports -----

  /** A number as it is usually written. */
  function Decimal(n: nat): string {
    (if n < 10 then "" else Decimal(n / 10)) + ["0123456789"[n % 10]]
  }

  function Zeros(k: nat): string {
    seq(k, _ => '0')
  }

  lemma DigitIs(c: char, d: nat)
    requires d <= 9
    ensures c == "0123456789"[d] <==> IsDigit(c) && c as int - '0' as int == d
  {
  }

  lemma {:induction false} DecimalReads(k: nat, n: nat)
    ensures AllDigits(Zeros(k) + Decimal(n)) && Natural(Zeros(k) + Decimal(n)) == n
  {
    var s := Zeros(k) + Decimal(n);
    var c := "0123456789"[n % 10];
    DigitIs(c, n % 10);
    assert s[|s| - 1] == c;
    if n < 10 {
      assert s[..|s| - 1] == Zeros(k);
      ZerosRead(k);
    } else {
      assert s[..|s| - 1] == Zeros(k) + Decimal(n / 10);
      DecimalReads(k, n / 10);
    }
    assert s == s[..|s| - 1] + [c];
  }

  lemma {:induction false} ZerosRead(k: nat)
    ensures Natural(Zeros(k)) == 0 && forall c | c in Zeros(k) :: IsDigit(c)
  {
    if k > 0 {
      ZerosRead(k - 1);
      assert Zeros(k)[..k - 1] == Zeros(k - 1);
    }
  }

  lemma DecimalGrows(n: nat, d: nat)
    requires n > 0 && d <= 9
    ensures Decimal(10 * n + d) == Decimal(n) + ["0123456789"[d]]
  {
    assert (10 * n + d) / 10 == n && (10 * n + d) % 10 == d;
  }

  lemma NaturalSnoc(front: string, c: char)
    requires IsDigit(c)
    ensures Natural(front + [c]) == 10 * Natural(front) + (c as int - '0' as int)
  {
    assert (front + [c])[..|front|] == front;
  }

  /** A number behind zeros, or zeros alone. */
  function Spelled(k: nat, n: nat): string {
    if n > 0 then Zeros(k) + Decimal(n) else Zeros(k)
  }

  lemma DigitAppended(c: char, d: nat, k: nat, m: nat)
    requires d <= 9 && c == "0123456789"[d]
    ensures Spelled(k, m) + [c] == Spelled(if m == 0 && d == 0 then k + 1 else k, 10 * m + d)
  {
    if m > 0 {
      DecimalGrows(m, d);
      assert Zeros(k) + Decimal(m) + [c] == Zeros(k) + (Decimal(m) + [c]);
    } else if d > 0 {
      assert Decimal(d) == [c];
    }
  }

  lemma NextDigit(front: string, c: char, k: nat, m: nat, n: int) returns (next: nat)
    requires IsDigit(c) && front == Spelled(k, m) && n == 10 * m + (c as int - '0' as int)
    ensures n >= 0 && front + [c] == Spelled(next, n)
  {
    var d: nat := c as int - '0' as int;
    DigitIs(c, d);
    DigitAppended(c, d, k, m);
    next := if m == 0 && d == 0 then k + 1 else k;
  }

  /** Every text of digits is a number behind zeros, zero itself aside. */
  lemma {:induction false} DigitsAreDecimal(s: string, n: nat) returns (k: nat)
    requires (forall c | c in s :: IsDigit(c)) && n == Natural(s)
    ensures s == Spelled(k, n)
  {
    k := 0;
    if s != "" {
      var front, c := s[..|s| - 1], s[|s| - 1];
      assert c in s && forall x | x in front :: x in s;
      k := DigitsAreDecimal(front, Natural(front));
      NaturalSnoc(front, c);
      assert s == front + [c];
      k := NextDigit(front, c, k, Natural(front), n);
    }
  }

  /** The port texts: a number from 1 to 65535, with any zeros in front and perhaps a
      plus sign in front of those. */
  ghost predicate IsPortText(p: string) {
    exists k: nat, n: nat ::
      1 <= n <= 65535 && (p == Zeros(k) + Decimal(n) || p == "+" + (Zeros(k) + Decimal(n)))
  }

  lemma PortTextExact(p: string)
    ensures PortText(p) <==> IsPortText(p)
  {
    if PortText(p) {
      PortIsWritten(p);
    } else if IsPortText(p) {
      WrittenIsPort(p);
    }
  }

  lemma PortIsWritten(p: string)
    requires PortText(p)
    ensures IsPortText(p)
  {
    if AllDigits(p) {
      var k := DigitsWritten(p, Natural(p));
    } else {
      assert p == "+" + p[1..];
      var k := DigitsWritten(p[1..], Natural(p[1..]));
    }
  }

  lemma DigitsWritten(digits: string, n: nat) returns (k: nat)
    requires AllDigits(digits) && n == Natural(digits) && n > 0
    ensures digits == Zeros(k) + Decimal(n)
  {
    k := DigitsAreDecimal(digits, n);
  }

  lemma WrittenIsPort(p: string)
    requires IsPortText(p)
    ensures PortText(p)
  {
    var k: nat, n: nat :|
      1 <= n <= 65535 && (p == Zeros(k) + Decimal(n) || p == "+" + (Zeros(k) + Decimal(n)));
    var digits := Zeros(k) + Decimal(n);
    DecimalReads(k, n);
    if p != digits {
      assert p == "+" + digits;
      SignedReads(p, digits, n);
    }
  }

  lemma SignedReads(p: string, digits: string, n: nat)
    requires p == "+" + digits && AllDigits(digits) && Natural(digits) == n
    ensures Atoi(p) == Some(n)
  {
    assert p[0] == '+' && p[0] in p && p[1..] == digits && !IsDigit(p[0]);
  }

  /** The configurations the validator takes, by their texts. */
  lemma ConfigTaken(net: NetParser, c: Config)
    ensures ValidConfig(net, c) <==>
      && net.isIPv4CIDR(c.lan) && net.isIPv4(c.hostIP)
      && forall p | p in c.hostTCP || p in c.hostUDP || p in c.dockerDrop || p in c.v6Drop :: IsPortText(p)
  {
    var all := c.hostTCP + c.hostUDP + c.dockerDrop + c.v6Drop;
    forall p ensures PortText(p) <==> IsPortText(p) {
      PortTextExact(p);
    }
    assert forall p :: p in all <==> p in c.hostTCP || p in c.hostUDP || p in c.dockerDrop || p in c.v6Drop;
  }
}
