/** The rule model of rules.json and its validation. The source keeps its
    discriminators as strings; each becomes an enumeration with one extra
    constructor for every string the validator refuses. */
module Rules {
  import opened Text

  datatype SourceKind = AnySource | IpSource | RangeSource | CountrySource | OtherSource
  datatype Source = Source(kind: SourceKind, value: string)

  datatype PortsKind = AllPorts | ListPorts | RangePorts | OtherPorts
  datatype Ports = Ports(kind: PortsKind, list: seq<int>, from: int, to: int)

  datatype Action = Allow | Deny | OtherAction
  datatype Protocol = Tcp | Udp | Both | OtherProtocol
  datatype Zone = AutoZone | HostZone | DockerZone | OtherZone
  datatype Direction = Unset | Inbound | Outbound | OtherDirection
  datatype Policy = AllowPolicy | DenyPolicy | OtherPolicy

  datatype RateLimit = RateLimit(conn: int, seconds: int)
  datatype Schedule = Schedule(from: string, to: string, days: seq<string>)

  datatype Rule = Rule(
    id: string,
    order: int,
    enabled: bool,
    name: string,
    action: Action,
    source: Source,
    ports: Ports,
    protocol: Protocol,
    zone: Zone,
    notes: string,
    schedule: Option<Schedule>,
    log: bool,
    rateLimit: Option<RateLimit>,
    direction: Direction,
    containerId: string)
  {
    predicate IsOutbound() {
      direction == Outbound
    }
  }

  datatype RuleSet = RuleSet(
    version: int,
    lan: string,
    hostIP: string,
    policy: Policy,
    v6Drop: seq<int>,
    rules: seq<Rule>)

  /** The Go `net` parsers, which stay uninterpreted. */
  datatype NetParser = NetParser(
    isIP: string -> bool,
    isCIDR: string -> bool,
    isIPv4: string -> bool,
    isIPv4CIDR: string -> bool)

  const MAX_RULES := 256
  const MAX_PORTS_PER_RULE := 128
  const MAX_V6_DROP_PORTS := 128
  const MAX_RULE_COUNTRIES := 32
  const MAX_NOTE_LEN := 256

  function SplitCountries(v: string): seq<string> {
    CommaList(v)
  }

  /** Whether the source is an IPv6 address or CIDR, told by its colon. */
  predicate IsIPv6Source(s: Source) {
    s.kind in {IpSource, RangeSource} && ':' in s.value
  }

  // ----- what a valid rule set is -----

  predicate IsAlpha(s: string) {
    s != "" && forall c | c in s :: 'a' <= c <= 'z' || 'A' <= c <= 'Z'
  }

  predicate IsIdChar(c: char) {
    'a' <= c <= 'z' || 'A' <= c <= 'Z' || IsDigit(c) || c == '-' || c == '_'
  }

  predicate IsSafeRuleID(s: string) {
    |s| <= 16 && forall c | c in s :: IsIdChar(c)
  }

  predicate IsSafeContainerID(s: string) {
    |s| <= 64 && forall c | c in s :: IsIdChar(c) || c == '.'
  }

  predicate IsPort(p: int) {
    1 <= p <= 65535
  }

  predicate ValidSource(net: NetParser, s: Source) {
    match s.kind
    case AnySource => true
    case IpSource => net.isIP(s.value)
    case RangeSource => net.isCIDR(s.value)
    case CountrySource =>
      var codes := SplitCountries(s.value);
      && 0 < |codes| <= MAX_RULE_COUNTRIES
      && forall c | c in codes :: |c| == 2 && IsAlpha(c)
    case OtherSource => false
  }

  /** A port selector every emitter can render: what is left of the check
      once container ports have replaced a list of checked length. */
  predicate WellFormedPorts(p: Ports) {
    match p.kind
    case AllPorts => true
    case ListPorts => p.list != [] && forall x | x in p.list :: IsPort(x)
    case RangePorts => IsPort(p.from) && IsPort(p.to) && p.from <= p.to
    case OtherPorts => false
  }

  predicate ValidPorts(p: Ports) {
    WellFormedPorts(p) && (p.kind == ListPorts ==> |p.list| <= MAX_PORTS_PER_RULE)
  }

  /** `strconv.Atoi` on two characters, which may spend the first on a sign. */
  function AtoiTwo(a: char, b: char): Option<int> {
    if !IsDigit(b) then None
    else
      var units := b as int - '0' as int;
      if IsDigit(a) then Some(10 * (a as int - '0' as int) + units)
      else if a == '+' then Some(units)
      else if a == '-' then Some(-units)
      else None
  }

  predicate IsHHMM(s: string) {
    && |s| == 5 && s[2] == ':'
    && var h, m := AtoiTwo(s[0], s[1]), AtoiTwo(s[3], s[4]);
    && h.Some? && 0 <= h.value <= 23
    && m.Some? && 0 <= m.value <= 59
  }

  predicate ValidSchedule(s: Schedule) {
    && IsHHMM(s.from) && IsHHMM(s.to)
    && |s.days| <= 7
    && forall d | d in s.days :: Lower(d) in {"mon", "tue", "wed", "thu", "fri", "sat", "sun"}
  }

  predicate ValidRateLimit(l: RateLimit) {
    1 <= l.conn <= 1000 && 1 <= l.seconds <= 3600
  }

  predicate ValidRule(net: NetParser, r: Rule) {
    && IsSafeRuleID(r.id)
    && IsSafeContainerID(r.containerId)
    && r.name != ""
    && r.action in {Allow, Deny}
    && ByteLength(r.notes) <= MAX_NOTE_LEN
    && ValidSource(net, r.source)
    && ValidPorts(r.ports)
    && r.protocol in {Tcp, Udp, Both}
    && r.zone in {AutoZone, HostZone, DockerZone}
    && (r.schedule.Some? ==> ValidSchedule(r.schedule.value))
    && (r.rateLimit.Some? ==> ValidRateLimit(r.rateLimit.value))
    && r.direction in {Unset, Inbound, Outbound}
  }

  /** No two rules share a non-empty id. */
  predicate DistinctIDs(rules: seq<Rule>) {
    forall i, j | 0 <= i < j < |rules| && rules[i].id != "" :: rules[i].id != rules[j].id
  }

  predicate ValidHeader(net: NetParser, rs: RuleSet) {
    && rs.policy in {DenyPolicy, AllowPolicy}
    && |rs.rules| <= MAX_RULES
    && |rs.v6Drop| <= MAX_V6_DROP_PORTS
    && (rs.lan != "" ==> net.isIPv4CIDR(rs.lan))
    && (rs.hostIP != "" ==> net.isIPv4(rs.hostIP))
    && forall p | p in rs.v6Drop :: IsPort(p)
  }

  predicate Valid(net: NetParser, rs: RuleSet) {
    && ValidHeader(net, rs)
    && (forall r | r in rs.rules :: ValidRule(net, r))
    && DistinctIDs(rs.rules)
  }

  function IDs(rules: seq<Rule>): set<string> {
    set r | r in rules && r.id != "" :: r.id
  }

  lemma IDsStep(rules: seq<Rule>, i: nat)
    requires i < |rules|
    ensures IDs(rules[..i + 1]) == IDs(rules[..i]) + if rules[i].id == "" then {} else {rules[i].id}
    ensures DistinctIDs(rules[..i + 1]) <==>
      DistinctIDs(rules[..i]) && (rules[i].id == "" || rules[i].id !in IDs(rules[..i]))
    ensures DistinctIDs(rules) ==> DistinctIDs(rules[..i + 1])
  {
    var front, next := rules[..i], rules[..i + 1];
    assert next == front + [rules[i]];
    if rules[i].id != "" && rules[i].id in IDs(front) {
      var j :| 0 <= j < i && front[j].id == rules[i].id;
      assert next[j].id == next[i].id;
    }
  }

  /** One pass over the rules with a set of the ids seen so far accepts exactly
      the valid rule sets: no pair of rules is compared directly. */
  method Validate(net: NetParser, rs: RuleSet) returns (ok: bool)
    ensures ok <==> Valid(net, rs)
  {
    if !ValidHeader(net, rs) {
      return false;
    }
    var seenID: set<string> := {};
    for i := 0 to |rs.rules|
      invariant forall j | 0 <= j < i :: ValidRule(net, rs.rules[j])
      invariant DistinctIDs(rs.rules[..i])
      invariant seenID == IDs(rs.rules[..i])
    {
      IDsStep(rs.rules, i);
      var r := rs.rules[i];
      if !ValidRule(net, r) {
        return false;
      }
      if r.id != "" {
        if r.id in seenID {
          return false;
        }
        seenID := seenID + {r.id};
      }
    }
    assert rs.rules[..|rs.rules|] == rs.rules;
    return true;
  }
}
