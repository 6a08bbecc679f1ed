/** The six compiled chains: fixed lines, the section of the rules in Order, and
    the default at the end. */
module Chains {
  import opened Rules
  import opened Netfilter
  import opened RuleLines
  import opened Ordering

  const ESTABLISHED := StateIn({Established, Related})

  /** Interfaces whose traffic bypasses the rules on the two INPUT chains, and
      the shorter list on DOCKER-USER. */
  const TRUSTED: seq<string> := ["lo", "docker0", "br-+", "virbr0", "tailscale0", "zt+", "wg+"]
  const TRUSTED_DOCKER: seq<string> := ["tailscale0", "zt+", "wg+"]

  function IfaceLine(name: string, v: Verdict): Line {
    Line([InIface(name)], Jump(v))
  }

  function IfaceLines(names: seq<string>, v: Verdict): seq<Line> {
    seq(|names|, i requires 0 <= i < |names| => IfaceLine(names[i], v))
  }

  function UdpLine(port: int, v: Verdict): Line {
    Line([ProtoIs(UDP), Dport(port)], Jump(v))
  }

  /** The lines in front of the rules. */
  function Prologue(k: Kind, rs: RuleSet, extra: seq<string>): seq<Line> {
    match k
    case In =>
      [Line([ESTABLISHED], Jump(Accept)), Line([StateIn({Invalid})], Jump(Drop))]
      + IfaceLines(TRUSTED, Accept)
      + [Line([ProtoIs(ICMP)], Jump(Accept)), UdpLine(68, Accept), UdpLine(41641, Accept), UdpLine(9993, Accept)]
      + IfaceLines(extra, Accept)
    case DockerIn =>
      [Line([ESTABLISHED], Jump(Return)), Line([SrcNet("127.0.0.0/8")], Jump(Return))]
      + (if rs.hostIP != "" then [Line([SrcNet(rs.hostIP)], Jump(Return))] else [])
      + IfaceLines(TRUSTED_DOCKER, Return)
      + IfaceLines(extra, Return)
    case In6 =>
      [Line([ESTABLISHED], Jump(Return)), Line([StateIn({Invalid})], Jump(Drop))]
      + IfaceLines(TRUSTED, Return)
      + IfaceLines(extra, Return)
      + [Line([ProtoIs(ICMPv6)], Jump(Return)), UdpLine(546, Return),
         Line([SrcNet("fe80::/10")], Jump(Return)), Line([SrcNet("ff00::/8")], Jump(Return))]
    case Out => [Line([ESTABLISHED], Jump(Accept)), Line([OutIface("lo")], Jump(Accept))]
    case Out6 => [Line([ESTABLISHED], Jump(Return)), Line([OutIface("lo")], Jump(Return))]
    case FwdOut => [Line([ESTABLISHED], Jump(Return))]
  }

  /** The lines of the enabled rules, in list order. */
  function Section(k: Kind, rl: seq<Rule>, published: set<int>): seq<Line> {
    if rl == [] then []
    else
      var r := rl[|rl| - 1];
      Section(k, rl[..|rl| - 1], published) + if r.enabled then LinesOf(k, r, published) else []
  }

  function V6DropLines(ports: seq<int>): seq<Line> {
    seq(|ports|, i requires 0 <= i < |ports| => Line([ProtoIs(TCP), Dport(ports[i])], Jump(Drop)))
  }

  function LogNew(conds: seq<Match>, prefix: string): Line {
    Line(conds + [StateIn({New})], Log(prefix))
  }

  /** The lines behind the rules. */
  function Epilogue(k: Kind, rs: RuleSet): seq<Line> {
    match k
    case In =>
      if rs.policy == AllowPolicy then [Line([], Jump(Return))]
      else [LogNew([], "ZFW-IN-DROP "), Line([], Jump(Drop))]
    case DockerIn =>
      (if rs.policy == DenyPolicy && rs.lan != ""
       then [LogNew([SrcNet(rs.lan)], "ZFW-DOCK-DROP "), Line([SrcNet(rs.lan)], Jump(Drop))] else [])
      + [Line([], Jump(Return))]
    case In6 =>
      V6DropLines(rs.v6Drop)
      + if rs.policy == AllowPolicy then [Line([], Jump(Return))]
        else [LogNew([], "ZFW-IN6-DROP "), Line([], Jump(Drop))]
    case _ => [Line([], Jump(Return))]
  }

  /** One compiled chain, from rules already in Order. */
  function ChainLines(k: Kind, rs: RuleSet, rl: seq<Rule>, published: set<int>, extra: seq<string>): seq<Line> {
    Prologue(k, rs, extra) + Section(k, rl, published) + Epilogue(k, rs)
  }

  function Compiled(k: Kind, rs: RuleSet, published: set<int>, extra: seq<string>): seq<Line> {
    ChainLines(k, rs, StableSort(rs.rules), published, extra)
  }

  lemma SectionSnoc(k: Kind, rl: seq<Rule>, published: set<int>, i: nat)
    requires i < |rl|
    ensures Section(k, rl[..i + 1], published)
         == Section(k, rl[..i], published) + if rl[i].enabled then LinesOf(k, rl[i], published) else []
  {
    assert rl[..i + 1][..i] == rl[..i];
  }
}
