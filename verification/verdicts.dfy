/** What the compilation theorem gives a user of the rule list: the zone split
    is faithful, IPv6 mirrors only what it can express, outbound chains never
    deny by default, and what must not matter does not. */
module Verdicts {
  import opened Text
  import opened Seqs
  import opened Rules
  import opened Netfilter
  import opened RuleLines
  import opened Clauses
  import opened Ordering
  import opened Chains
  import opened Meaning

  // ----- what must not matter -----

  /** The rule with the fields the verdict must not depend on wiped. */
  function Bare(r: Rule): Rule {
    r.(name := "", notes := "", log := false, containerId := "")
  }

  lemma BareApplies(k: Kind, w: World, r: Rule, published: set<int>, p: Packet)
    ensures Applies(k, w, Bare(r), published, p) == Applies(k, w, r, published, p)
  {
  }

  predicate SameButCosmetics(a: RuleSet, b: RuleSet) {
    && a.policy == b.policy && a.lan == b.lan && a.hostIP == b.hostIP && a.v6Drop == b.v6Drop
    && |a.rules| == |b.rules|
    && forall i | 0 <= i < |a.rules| :: Bare(a.rules[i]) == Bare(b.rules[i])
  }

  lemma BarePair(k: Kind, w: World, a: Rule, b: Rule, published: set<int>, p: Packet)
    requires Bare(a) == Bare(b)
    ensures a.order == b.order && Compilable(a) == Compilable(b)
    ensures Applies(k, w, a, published, p) == Applies(k, w, b, published, p)
  {
    BareApplies(k, w, a, published, p);
    BareApplies(k, w, b, published, p);
    assert a.source == Bare(a).source == Bare(b).source == b.source;
    assert a.ports == Bare(a).ports == Bare(b).ports == b.ports;
    assert a.order == Bare(a).order == Bare(b).order == b.order;
  }

  lemma WinsTransfer(a: seq<Rule>, b: seq<Rule>, m: Rule -> bool)
    requires |a| == |b|
    requires forall i | 0 <= i < |a| :: m(a[i]) == m(b[i]) && a[i].order == b[i].order
    ensures forall i :: Wins(a, m, i) ==> Wins(b, m, i)
    ensures (forall r | r in a :: !m(r)) ==> (forall r | r in b :: !m(r))
  {
    if (forall r | r in a :: !m(r)) {
      forall r | r in b ensures !m(r) {
        var i :| 0 <= i < |b| && b[i] == r;
        assert !m(a[i]);
      }
    }
  }

  /** LOG flags, names and notes change lines but no outcome, on any chain. */
  lemma CosmeticsInvisible(
      k: Kind, w: World, a: RuleSet, b: RuleSet, published: set<int>, extra: seq<string>, p: Packet, st: Recent)
    requires CompilableSet(a) && SameButCosmetics(a, b)
    ensures Eval(w, Compiled(k, a, published, extra), p, st) == Eval(w, Compiled(k, b, published, extra), p, st)
  {
    var m := Governs(k, w, published, p);
    forall i | 0 <= i < |a.rules|
      ensures Compilable(b.rules[i]) && m(a.rules[i]) == m(b.rules[i])
      ensures a.rules[i].order == b.rules[i].order
    {
      assert Compilable(a.rules[i]);
      BarePair(k, w, a.rules[i], b.rules[i], published, p);
    }
    ChainMeaning(k, w, a, published, extra, p, st);
    ChainMeaning(k, w, b, published, extra, p, st);
    WinsTransfer(a.rules, b.rules, m);
    SameFixed(k, w, a, b, extra, p);
    if Bypass(k, w, a, extra, p).None? {
      if i :| Wins(a.rules, m, i) {
        assert Wins(b.rules, m, i);
        BareOutcome(a.rules[i], b.rules[i], Target(k, a.rules[i].action), p, st);
      }
    }
  }

  lemma SameFixed(k: Kind, w: World, a: RuleSet, b: RuleSet, extra: seq<string>, p: Packet)
    requires SameButCosmetics(a, b)
    ensures Bypass(k, w, a, extra, p) == Bypass(k, w, b, extra, p)
    ensures Default(k, w, a, p) == Default(k, w, b, p)
  {
  }

  lemma BareOutcome(a: Rule, b: Rule, target: Verdict, p: Packet, st: Recent)
    requires Bare(a) == Bare(b)
    ensures a.action == b.action
    ensures RuleOutcome(a, target, p, st) == RuleOutcome(b, target, p, st)
  {
    assert a.id == Bare(a).id == Bare(b).id == b.id;
    assert a.action == Bare(a).action == Bare(b).action == b.action;
    assert a.rateLimit == Bare(a).rateLimit == Bare(b).rateLimit == b.rateLimit;
  }

  function EnabledOnly(rl: seq<Rule>): seq<Rule> {
    if rl == [] then []
    else EnabledOnly(rl[..|rl| - 1]) + if rl[|rl| - 1].enabled then [rl[|rl| - 1]] else []
  }

  lemma {:induction false} SectionOfEnabled(k: Kind, rl: seq<Rule>, published: set<int>)
    ensures Section(k, EnabledOnly(rl), published) == Section(k, rl, published)
  {
    if rl != [] {
      var n := |rl| - 1;
      SectionOfEnabled(k, rl[..n], published);
      if rl[n].enabled {
        DropLast(EnabledOnly(rl[..n]), rl[n]);
      } else {
        assert EnabledOnly(rl[..n]) + [] == EnabledOnly(rl[..n]);
      }
    }
  }

  lemma {:induction false} EnabledCons(r: Rule, rl: seq<Rule>)
    ensures EnabledOnly([r] + rl) == (if r.enabled then [r] else []) + EnabledOnly(rl)
  {
    var all := [r] + rl;
    if rl == [] {
      assert all[..0] == [] && EnabledOnly([]) == [];
    } else {
      var n := |rl| - 1;
      assert all[..|all| - 1] == [r] + rl[..n];
      EnabledCons(r, rl[..n]);
    }
  }

  lemma {:induction false} EnabledAreThere(rl: seq<Rule>)
    ensures forall r | r in EnabledOnly(rl) :: r in rl
  {
    if rl != [] {
      EnabledAreThere(rl[..|rl| - 1]);
    }
  }

  lemma InsertPast(r: Rule, x: Rule, rl: seq<Rule>)
    requires r.order > x.order
    ensures Insert(r, [x] + rl) == [x] + Insert(r, rl)
  {
    assert ([x] + rl)[1..] == rl;
  }

  lemma {:induction false} InsertEnabled(r: Rule, rl: seq<Rule>)
    requires SortedByOrder(rl)
    ensures EnabledOnly(Insert(r, rl)) == if r.enabled then Insert(r, EnabledOnly(rl)) else EnabledOnly(rl)
  {
    if rl == [] || r.order <= rl[0].order {
      InsertFirst(r, rl);
    } else {
      var x, rest := rl[0], rl[1..];
      assert rl == [x] + rest;
      InsertEnabled(r, rest);
      InsertPast(r, x, rest);
      EnabledCons(x, Insert(r, rest));
      EnabledCons(x, rest);
      InsertPast(r, x, EnabledOnly(rest));
      assert [] + EnabledOnly(rest) == EnabledOnly(rest)
          && [] + EnabledOnly(Insert(r, rest)) == EnabledOnly(Insert(r, rest));
    }
  }

  lemma InsertFirst(r: Rule, rl: seq<Rule>)
    requires SortedByOrder(rl) && (rl == [] || r.order <= rl[0].order)
    ensures EnabledOnly(Insert(r, rl)) == if r.enabled then Insert(r, EnabledOnly(rl)) else EnabledOnly(rl)
  {
    EnabledCons(r, rl);
    EnabledAreThere(rl);
    LowestFirst(r, rl, EnabledOnly(rl));
  }

  lemma LowestFirst(r: Rule, rl: seq<Rule>, kept: seq<Rule>)
    requires SortedByOrder(rl) && (rl == [] || r.order <= rl[0].order) && forall x | x in kept :: x in rl
    ensures Insert(r, kept) == [r] + kept && [] + kept == kept
  {
    if kept != [] {
      assert kept[0] in rl;
      var i :| 0 <= i < |rl| && rl[i] == kept[0];
      assert rl[0].order <= rl[i].order;
    }
  }

  /** Leaving rules out and sorting commute. */
  lemma {:induction false} SortEnabled(rl: seq<Rule>)
    ensures EnabledOnly(StableSort(rl)) == StableSort(EnabledOnly(rl))
  {
    if rl != [] {
      SortEnabled(rl[1..]);
      SortElements(rl[1..]);
      InsertEnabled(rl[0], StableSort(rl[1..]));
      SortKept(rl, EnabledOnly(rl[1..]));
    }
  }

  lemma SortKept(rl: seq<Rule>, kept: seq<Rule>)
    requires rl != [] && kept == EnabledOnly(rl[1..])
    ensures StableSort(EnabledOnly(rl)) == if rl[0].enabled then Insert(rl[0], StableSort(kept)) else StableSort(kept)
  {
    assert rl == [rl[0]] + rl[1..];
    EnabledCons(rl[0], rl[1..]);
    SortCons(rl[0], kept);
    assert [] + kept == kept;
  }

  lemma SortCons(r: Rule, rl: seq<Rule>)
    ensures StableSort([r] + rl) == Insert(r, StableSort(rl))
  {
    assert ([r] + rl)[1..] == rl;
  }

  /** A rule set compiles to the same chains, line for line, with its disabled
      rules taken out. */
  lemma DisabledInvisible(k: Kind, rs: RuleSet, published: set<int>, extra: seq<string>)
    ensures Compiled(k, rs.(rules := EnabledOnly(rs.rules)), published, extra) == Compiled(k, rs, published, extra)
  {
    var bare := rs.(rules := EnabledOnly(rs.rules));
    SortEnabled(rs.rules);
    SectionOfEnabled(k, StableSort(rs.rules), published);
    FixedLines(k, rs, bare, extra);
  }

  lemma FixedLines(k: Kind, a: RuleSet, b: RuleSet, extra: seq<string>)
    requires b == a.(rules := b.rules)
    ensures Prologue(k, a, extra) == Prologue(k, b, extra) && Epilogue(k, a) == Epilogue(k, b)
  {
  }

  // ----- what a rule and an interface are let through to -----

  /** An allow rule ends the packet's walk on ZFW-IN and the outbound chains, and on
      DOCKER-USER and ZFW-IN6 sends it on to the chains behind. */
  lemma AllowedVerdict(
      k: Kind, w: World, rs: RuleSet, published: set<int>, extra: seq<string>, p: Packet, st: Recent, i: int)
    requires CompilableSet(rs) && Bypass(k, w, rs, extra, p).None? && Wins(rs.rules, Governs(k, w, published, p), i)
    requires rs.rules[i].action == Allow && !OverLimit(rs.rules[i], p, st)
    ensures Eval(w, Compiled(k, rs, published, extra), p, st).verdict ==
      match k
      case In => Accept
      case DockerIn => Return
      case In6 => Return
      case Out => Accept
      case Out6 => Accept
      case FwdOut => Accept
  {
    ChainMeaning(k, w, rs, published, extra, p, st);
  }

  predicate HostIface(iface: string) {
    || iface in {"lo", "docker0", "virbr0", "tailscale0"}
    || "br-" <= iface || "zt" <= iface || "wg" <= iface
  }

  predicate TunnelIface(iface: string) {
    iface == "tailscale0" || "zt" <= iface || "wg" <= iface
  }

  lemma WildIface(pattern: string, stem: string, iface: string)
    requires pattern == stem + "+"
    ensures IfaceMatches(pattern, iface) <==> stem <= iface
  {
    assert pattern[..|pattern| - 1] == stem;
  }

  lemma TrustedExact(iface: string)
    ensures TrustedIface(TRUSTED, iface) <==> HostIface(iface)
    ensures TrustedIface(TRUSTED_DOCKER, iface) <==> TunnelIface(iface)
  {
    WildIface("br-+", "br-", iface);
    WildIface("zt+", "zt", iface);
    WildIface("wg+", "wg", iface);
    assert forall n :: n in TRUSTED <==>
      n == "lo" || n == "docker0" || n == "br-+" || n == "virbr0" || n == "tailscale0" || n == "zt+" || n == "wg+";
    assert forall n :: n in TRUSTED_DOCKER <==> n == "tailscale0" || n == "zt+" || n == "wg+";
    assert IfaceMatches("lo", iface) <==> iface == "lo";
    assert IfaceMatches("docker0", iface) <==> iface == "docker0";
    assert IfaceMatches("virbr0", iface) <==> iface == "virbr0";
    assert IfaceMatches("tailscale0", iface) <==> iface == "tailscale0";
  }

  /** Whatever the rules say, traffic of loopback, of the host's own bridges, of its
      tunnels and of the extra interfaces is let in, and on DOCKER-USER that of the
      tunnels and the extra ones. */
  lemma OwnInterfacesPass(
      k: Kind, w: World, rs: RuleSet, published: set<int>, extra: seq<string>, p: Packet, st: Recent)
    requires CompilableSet(rs) && !k.IsOut() && p.state != Invalid
    requires TrustedIface(extra, p.inIface) || if k == DockerIn then TunnelIface(p.inIface) else HostIface(p.inIface)
    ensures Eval(w, Compiled(k, rs, published, extra), p, st) == Outcome(if k == In then Accept else Return, st)
  {
    TrustedExact(p.inIface);
    TrustedEither(TRUSTED, extra, p.inIface);
    TrustedEither(TRUSTED_DOCKER, extra, p.inIface);
    BypassDecides(k, w, rs, published, extra, p, st);
  }

  lemma TrustedEither(names: seq<string>, extra: seq<string>, iface: string)
    ensures TrustedIface(names + extra, iface) <==> TrustedIface(names, iface) || TrustedIface(extra, iface)
  {
    assert forall n :: n in names + extra <==> n in names || n in extra;
  }

  // ----- zone auto is a faithful split -----

  /** Puts two port lists back together, told for each place which list it came from. */
  function Weave(docker: seq<bool>, hp: seq<int>, dp: seq<int>): Option<seq<int>> {
    if docker == [] then if hp == [] && dp == [] then Some([]) else None
    else
      var n := |docker| - 1;
      if docker[n] then
        if dp == [] then None
        else
          var front := Weave(docker[..n], hp, dp[..|dp| - 1]);
          if front.None? then None else Some(front.value + [dp[|dp| - 1]])
      else
        if hp == [] then None
        else
          var front := Weave(docker[..n], hp[..|hp| - 1], dp);
          if front.None? then None else Some(front.value + [hp[|hp| - 1]])
  }

  function PublishedMask(ports: seq<int>, published: set<int>): seq<bool> {
    seq(|ports|, i requires 0 <= i < |ports| => ports[i] in published)
  }

  /** The host list and the docker list of an auto rule partition its ports, each
      in the original order: weaving them back gives the list, nothing left over. */
  lemma {:induction false} AutoPartition(ports: seq<int>, published: set<int>)
    ensures Weave(PublishedMask(ports, published), Pick(ports, published, false), Pick(ports, published, true))
         == Some(ports)
  {
    if ports != [] {
      var n := |ports| - 1;
      AutoPartition(ports[..n], published);
      assert PublishedMask(ports, published)[..n] == PublishedMask(ports[..n], published);
      var hp, dp := Pick(ports[..n], published, false), Pick(ports[..n], published, true);
      DropLast(dp, ports[n]);
      DropLast(hp, ports[n]);
      assert hp + [] == hp && dp + [] == dp;
      SplitLast(ports);
    }
  }

  /** What the host forwards to containers: transport and port, before DNAT. The
      compiler is told the TCP ports alone. */
  type Exposed = set<(Transport, int)>

  function TcpPorts(exposed: Exposed): set<int> {
    set x | x in exposed && x.0 == TCP :: x.1
  }

  predicate ToContainer(p: Packet, exposed: Exposed) {
    (p.transport, p.origDport) in exposed
  }

  /** One pass over the whole rule list, chains forgotten: host rules speak for
      what stays on the host, docker rules for what goes to containers, auto
      lists for both. */
  predicate Unified(w: World, r: Rule, exposed: Exposed, p: Packet) {
    && r.enabled && !r.IsOutbound()
    && PeerMatches(In, w, r.source, p)
    && ProtocolMatches(r, p)
    && PortSelected(r.ports, p.origDport)
    && (r.schedule.Some? ==> w.active(r.schedule.value, p.time))
    && match r.zone
       case HostZone => !ToContainer(p, exposed)
       case DockerZone => ToContainer(p, exposed)
       case _ => r.ports.kind in {AllPorts, RangePorts} ==> !ToContainer(p, exposed)
  }

  function UnifiedMatch(w: World, exposed: Exposed, p: Packet): Rule -> bool {
    r => Unified(w, r, exposed, p)
  }

  /** The kernel's routing: what is exposed is DNATed and reaches DOCKER-USER,
      anything else reaches INPUT with its port unchanged. */
  function Route(p: Packet, exposed: Exposed): Kind {
    if ToContainer(p, exposed) then DockerIn else In
  }

  /** An auto list rule whose line for this port sits on the other chain: the port
      is TCP-published but the packet's transport is not forwarded, or the other
      way round. */
  predicate Misrouted(r: Rule, exposed: Exposed, p: Packet) {
    && r.zone !in {HostZone, DockerZone} && r.ports.kind !in {AllPorts, RangePorts}
    && (p.origDport in TcpPorts(exposed)) != ToContainer(p, exposed)
  }

  lemma UnifiedIsGoverns(w: World, r: Rule, exposed: Exposed, p: Packet)
    requires !ToContainer(p, exposed) ==> p.dport == p.origDport
    ensures Applies(Route(p, exposed), w, r, TcpPorts(exposed), p) <==>
      Unified(w, r, exposed, p) && !Misrouted(r, exposed, p)
  {
  }

  lemma TcpNeverMisrouted(r: Rule, exposed: Exposed, p: Packet)
    requires p.transport == TCP
    ensures !Misrouted(r, exposed, p)
  {
    if p.origDport in TcpPorts(exposed) {
      var x :| x in exposed && x.0 == TCP && x.1 == p.origDport;
      assert x == (TCP, p.origDport);
    }
  }

  /** The ZFW-IN / DOCKER-USER pair gives the outcome of one first-match pass over
      the whole list, each chain with its own bypass and default: for every TCP
      packet, and for any other unless the pass is decided by a misrouted rule. */
  lemma PairIsOnePass(
      w: World, rs: RuleSet, exposed: Exposed, extra: seq<string>, p: Packet, st: Recent)
    requires CompilableSet(rs)
    requires !ToContainer(p, exposed) ==> p.dport == p.origDport
    ensures var k, m := Route(p, exposed), UnifiedMatch(w, exposed, p);
            var out := Eval(w, Compiled(k, rs, TcpPorts(exposed), extra), p, st);
            && (Bypass(k, w, rs, extra, p).None? ==>
                  && ((forall r | r in rs.rules :: !m(r)) ==> out == Outcome(Default(k, w, rs, p), st))
                  && (forall i | Wins(rs.rules, m, i) && (p.transport == TCP || !Misrouted(rs.rules[i], exposed, p)) ::
                        out == RuleOutcome(rs.rules[i], Target(k, rs.rules[i].action), p, st)))
            && (k == DockerIn && Default(k, w, rs, p) == Drop <==>
                  k == DockerIn && rs.policy == DenyPolicy && rs.lan != "" && w.inNet(rs.lan, p.src))
  {
    var k, m := Route(p, exposed), UnifiedMatch(w, exposed, p);
    var g := Governs(k, w, TcpPorts(exposed), p);
    ChainMeaning(k, w, rs, TcpPorts(exposed), extra, p, st);
    forall r | r in rs.rules ensures g(r) <==> m(r) && !Misrouted(r, exposed, p) {
      UnifiedIsGoverns(w, r, exposed, p);
    }
    forall i | Wins(rs.rules, m, i) && (p.transport == TCP || !Misrouted(rs.rules[i], exposed, p))
      ensures Wins(rs.rules, g, i)
    {
      if p.transport == TCP {
        TcpNeverMisrouted(rs.rules[i], exposed, p);
      }
    }
  }

  /** The split is faithful, the pair and the single pass having the same deciding
      rule, exactly when the pass is not decided by a misrouted rule. */
  lemma SplitExact(w: World, rs: RuleSet, exposed: Exposed, p: Packet)
    requires !ToContainer(p, exposed) ==> p.dport == p.origDport
    ensures var m, g := UnifiedMatch(w, exposed, p), Governs(Route(p, exposed), w, TcpPorts(exposed), p);
            (forall i :: Wins(rs.rules, m, i) <==> Wins(rs.rules, g, i)) <==>
              !exists i :: Wins(rs.rules, m, i) && Misrouted(rs.rules[i], exposed, p)
  {
    var m, g := UnifiedMatch(w, exposed, p), Governs(Route(p, exposed), w, TcpPorts(exposed), p);
    forall r ensures g(r) <==> m(r) && !Misrouted(r, exposed, p) {
      UnifiedIsGoverns(w, r, exposed, p);
    }
    WinnerUnique(rs.rules, g);
    FirstOfSorted(rs.rules, m);
    if !exists i :: Wins(rs.rules, m, i) && Misrouted(rs.rules[i], exposed, p) {
      forall i | Wins(rs.rules, m, i) ensures Wins(rs.rules, g, i) {
      }
      forall i | Wins(rs.rules, g, i) ensures Wins(rs.rules, m, i) {
        assert rs.rules[i] in rs.rules;
        var j :| Wins(rs.rules, m, j);
        assert Wins(rs.rules, g, j);
      }
    }
  }

  /** A UDP packet to a port that is published over TCP alone: the rule that should
      let it in went to the other chain with its port, and the default drops it. */
  lemma UdpMissesAutoList(w: World, port: int, r: Rule, rs: RuleSet, extra: seq<string>, p: Packet, st: Recent)
    requires r == Rule("a", 10, true, "n", Allow, Source(AnySource, ""), Ports(ListPorts, [port], 0, 0),
                       Both, AutoZone, "",
                       None, false, None, Unset, "")
    requires rs == RuleSet(3, "", "", DenyPolicy, [], [r])
    requires p.transport == UDP && p.dport == p.origDport == port && Bypass(In, w, rs, extra, p).None?
    ensures var exposed: Exposed := {(TCP, port)};
            && Route(p, exposed) == In && Wins(rs.rules, UnifiedMatch(w, exposed, p), 0)
            && Eval(w, Compiled(In, rs, TcpPorts(exposed), extra), p, st) == Outcome(Drop, st)
  {
    var exposed: Exposed := {(TCP, port)};
    assert (TCP, port) in exposed && port in TcpPorts(exposed);
    UnifiedIsGoverns(w, r, exposed, p);
    ChainMeaning(In, w, rs, TcpPorts(exposed), extra, p, st);
  }

  // ----- the IPv6 chain -----

  /** A clause that fits the address family. */
  predicate FamilyOk(v6: bool, m: Match) {
    match m
    case SrcNet(net) => (':' in net) == v6
    case DstNet(net) => (':' in net) == v6
    case SrcSet(_) => !v6
    case DstSet(_) => !v6
    case _ => true
  }

  function OfFamily(v6: bool): Match -> bool {
    m => FamilyOk(v6, m)
  }

  lemma FamilyChunks(v6: bool, ports: seq<int>)
    ensures AltsFit(OfFamily(v6), Chunks(ports))
  {
    forall c: seq<int> | c != [] && |c| <= MAX_MULTIPORT && (forall p | p in c :: p in ports)
      ensures Fits(OfFamily(v6), ChunkFrag(c))
    {
    }
    ChunksFit(OfFamily(v6), ports);
  }

  lemma FamilyShare(v6: bool, k: Kind, ps: PortSpec)
    ensures AltsFit(OfFamily(v6), ShareFrags(k, ps))
  {
    FamilyChunks(v6, ps.list);
  }

  lemma FamilyPorts(k: Kind, r: Rule, published: set<int>)
    ensures PortsFit(OfFamily(k.IsV6()), k, r, published)
  {
    if k.IsOut() {
      FamilyChunks(k.IsV6(), r.ports.list);
    } else if Share(k, r, published).Some? {
      FamilyShare(k.IsV6(), k, Share(k, r, published).value);
    }
  }

  lemma FamilyPlain(v6: bool, r: Rule)
    ensures PlainFits(OfFamily(v6), r)
  {
  }

  lemma FamilyPeers(k: Kind, r: Rule, published: set<int>)
    requires Alts(k, r, published) != []
    ensures AltsFit(OfFamily(k.IsV6()), PeerFrags(k, r.source))
  {
    FamilySource(k, r.source);
  }

  lemma FamilySource(k: Kind, s: Source)
    requires k.IsV6() || !IsIPv6Source(s)
    ensures AltsFit(OfFamily(k.IsV6()), PeerFrags(k, s))
  {
  }

  lemma FamilyAlts(k: Kind, r: Rule, published: set<int>)
    ensures AltsFit(OfFamily(k.IsV6()), Alts(k, r, published))
  {
    FamilyPorts(k, r, published);
    FamilyPlain(k.IsV6(), r);
    if Alts(k, r, published) != [] {
      FamilyPeers(k, r, published);
    }
    RuleFits(OfFamily(k.IsV6()), k, r, published);
  }

  /** No IPv4 chain carries an IPv6 rule address nor an IPv6 chain an IPv4 one or
      a country set, inbound and outbound alike, whatever the rules are. */
  lemma {:induction false} FamiliesApart(k: Kind, rl: seq<Rule>, published: set<int>)
    ensures LinesFit(OfFamily(k.IsV6()), Section(k, rl, published))
  {
    if rl != [] {
      var r := rl[|rl| - 1];
      FamiliesApart(k, rl[..|rl| - 1], published);
      FamilyAlts(k, r, published);
      WrapAllFits(OfFamily(k.IsV6()), Alts(k, r, published), r, Target(k, r.action));
    }
  }

  /** Some port the rule selects belongs to the host. */
  ghost predicate HasHostPort(r: Rule, published: set<int>) {
    exists port: int :: PortSelected(r.ports, port) && ZoneCovers(In6, r, published, port)
  }

  lemma {:induction false} SomeLines(alts: seq<seq<Match>>, r: Rule, target: Verdict)
    ensures WrapAll(alts, r, target) == [] <==> alts == []
  {
    if alts != [] {
      assert |Wrapped(alts[|alts| - 1], r, target)| > 0;
    }
  }

  lemma {:induction false} SomeAlts(heads: seq<seq<Match>>, tails: seq<seq<Match>>)
    ensures Cross(heads, tails) == [] <==> heads == [] || tails == []
  {
    if heads != [] {
      SomeAlts(heads[..|heads| - 1], tails);
      assert tails != [] ==> |Prepend(heads[|heads| - 1], tails)| > 0;
    }
  }

  lemma SomeTails(r: Rule, ps: PortSpec)
    ensures InTails(r, ps, PortFrags(ps)) == [] <==> !ps.all && !ps.IsRange() && ps.list == []
  {
    SomeAlts(PortFrags(ps), [ScheduleArg(r.schedule)]);
    SomeAlts(ProtoFrags(r.protocol), Cross(PortFrags(ps), [ScheduleArg(r.schedule)]));
  }

  lemma HostShare(r: Rule, published: set<int>)
    requires WellFormedPorts(r.ports)
    ensures var ps := ZonePorts(r, published, WantHost);
            HasHostPort(r, published) <==>
              ps.Some? && (ps.value.all || ps.value.IsRange() || ps.value.list != [])
  {
    var ps := ZonePorts(r, published, WantHost);
    forall port ensures PortSelected(r.ports, port) && ZoneCovers(In6, r, published, port) <==>
      ps.Some? && (ps.value.all || if ps.value.IsRange() then ps.value.from <= port <= ps.value.to
                                   else port in ps.value.list)
    {
      ZonePortsMeaning(In6, r, published, port);
    }
    if ps.Some? {
      var port := if ps.value.all || ps.value.list == [] then ps.value.from else ps.value.list[0];
      assert ps.value.all || ps.value.IsRange() || ps.value.list != [] ==>
        PortSelected(r.ports, port) && ZoneCovers(In6, r, published, port);
    }
  }

  /** The IPv6 chain mirrors exactly the inbound rules with an `any` or IPv6
      source that have a port on the host. */
  lemma MirrorExact(r: Rule, published: set<int>)
    requires WellFormedPorts(r.ports)
    ensures LinesOf(In6, r, published) != [] <==>
      !r.IsOutbound() && (r.source.kind == AnySource || IsIPv6Source(r.source)) && HasHostPort(r, published)
  {
    var ps, src := ZonePorts(r, published, WantHost), Source6Arg(r.source);
    SomeLines(Alts(In6, r, published), r, Target(In6, r.action));
    HostShare(r, published);
    if ps.Some? && src.Some? {
      SomeTails(r, ps.value);
      SomeAlts([src.value], InTails(r, ps.value, PortFrags(ps.value)));
    }
  }

  /** V6Drop runs behind the mirrored rules, so a port on that list is dropped
      exactly when no rule let the packet through first. */
  lemma V6DropExact(w: World, rs: RuleSet, published: set<int>, extra: seq<string>, p: Packet, st: Recent)
    requires CompilableSet(rs) && p.transport == TCP && p.dport in rs.v6Drop
    requires Bypass(In6, w, rs, extra, p).None?
    ensures Eval(w, Compiled(In6, rs, published, extra), p, st).verdict == Drop <==>
      !exists i :: && Wins(rs.rules, Governs(In6, w, published, p), i)
                   && rs.rules[i].action != Deny && !OverLimit(rs.rules[i], p, st)
  {
    var m := Governs(In6, w, published, p);
    WinnerUnique(rs.rules, m);
    if i :| Wins(rs.rules, m, i) {
      WinnerDrops(In6, w, rs, published, extra, p, st, i);
    } else {
      NobodyWins(In6, w, rs, published, extra, p, st);
    }
  }

  /** The comment's own case, a port on the list that a rule allows: it stays open. */
  lemma AllowBeatsV6Drop(
      w: World, port: int, r: Rule, rs: RuleSet, published: set<int>, extra: seq<string>, p: Packet, st: Recent)
    requires r == Rule("a", 10, true, "n", Allow, Source(AnySource, ""), Ports(ListPorts, [port], 0, 0),
                       Tcp, HostZone, "",
                       None, false, None, Unset, "")
    requires rs == RuleSet(3, "", "", DenyPolicy, [port], [r])
    requires p.transport == TCP && p.dport == port && Bypass(In6, w, rs, extra, p).None?
    ensures Eval(w, Compiled(In6, rs, published, extra), p, st).verdict == Return
  {
    assert Applies(In6, w, r, published, p);
    assert Wins(rs.rules, Governs(In6, w, published, p), 0);
    ChainMeaning(In6, w, rs, published, extra, p, st);
  }

  /** When a winner drops the packet. */
  lemma WinnerDrops(
      k: Kind, w: World, rs: RuleSet, published: set<int>, extra: seq<string>, p: Packet, st: Recent, i: int)
    requires CompilableSet(rs) && Bypass(k, w, rs, extra, p).None? && Wins(rs.rules, Governs(k, w, published, p), i)
    ensures Eval(w, Compiled(k, rs, published, extra), p, st).verdict == Drop <==>
      rs.rules[i].action == Deny || OverLimit(rs.rules[i], p, st)
  {
    ChainMeaning(k, w, rs, published, extra, p, st);
    OutcomeDrops(k, rs.rules[i], p, st);
  }

  lemma OutcomeDrops(k: Kind, r: Rule, p: Packet, st: Recent)
    ensures RuleOutcome(r, Target(k, r.action), p, st).verdict == Drop <==> r.action == Deny || OverLimit(r, p, st)
  {
  }

  lemma NobodyWins(k: Kind, w: World, rs: RuleSet, published: set<int>, extra: seq<string>, p: Packet, st: Recent)
    requires CompilableSet(rs) && Bypass(k, w, rs, extra, p).None?
    requires forall i :: !Wins(rs.rules, Governs(k, w, published, p), i)
    ensures Eval(w, Compiled(k, rs, published, extra), p, st) == Outcome(Default(k, w, rs, p), st)
  {
    ChainMeaning(k, w, rs, published, extra, p, st);
  }

  lemma BypassDecides(k: Kind, w: World, rs: RuleSet, published: set<int>, extra: seq<string>, p: Packet, st: Recent)
    requires CompilableSet(rs) && Bypass(k, w, rs, extra, p).Some?
    ensures Eval(w, Compiled(k, rs, published, extra), p, st) == Outcome(Bypass(k, w, rs, extra, p).value, st)
  {
    ChainMeaning(k, w, rs, published, extra, p, st);
  }

  // ----- outbound -----

  /** An outbound chain drops a packet only when its winning rule denies it or
      its sender is over that rule's limit: there is no default deny. */
  lemma OutboundNeverDefaultDenies(
      k: Kind, w: World, rs: RuleSet, published: set<int>, extra: seq<string>, p: Packet, st: Recent)
    requires k.IsOut() && CompilableSet(rs)
    ensures Eval(w, Compiled(k, rs, published, extra), p, st).verdict == Drop <==>
      && Bypass(k, w, rs, extra, p).None?
      && exists i :: && Wins(rs.rules, Governs(k, w, published, p), i)
                     && (rs.rules[i].action == Deny || OverLimit(rs.rules[i], p, st))
  {
    var m := Governs(k, w, published, p);
    WinnerUnique(rs.rules, m);
    if Bypass(k, w, rs, extra, p).Some? {
      BypassDecides(k, w, rs, published, extra, p, st);
    } else if i :| Wins(rs.rules, m, i) {
      WinnerDrops(k, w, rs, published, extra, p, st, i);
    } else {
      NobodyWins(k, w, rs, published, extra, p, st);
    }
  }

  predicate OutboundFor(r: Rule, zone: Zone) {
    r.enabled && r.direction == Outbound && (r.zone == zone || r.zone == AutoZone)
  }

  lemma OutAltsExact(k: Kind, r: Rule, published: set<int>)
    requires k.IsOut() && Compilable(r) && WellFormedPorts(r.ports)
    ensures Alts(k, r, published) != [] <==>
      && r.direction == Outbound && r.zone in {AutoZone, if k == FwdOut then DockerZone else HostZone}
      && (if k == Out6 then r.source.kind == AnySource || IsIPv6Source(r.source) else !IsIPv6Source(r.source))
  {
    var peers, sch := DestFrags(r.source, k == Out6), [ScheduleArg(r.schedule)];
    SomeOutTails(r);
    SomePeers(r.source, k == Out6);
    SomeAlts(peers, sch);
    SomeAlts(Cross(peers, sch), OutTails(r));
  }

  lemma SomeOutTails(r: Rule)
    requires WellFormedPorts(r.ports)
    ensures OutTails(r) != []
  {
    SomeAlts(ProtoFrags(r.protocol), [[DportRange(r.ports.from, r.ports.to)]]);
    SomeAlts(ProtoFrags(r.protocol), Chunks(r.ports.list));
  }

  lemma SomePeers(s: Source, v6: bool)
    requires s.kind != OtherSource && (s.kind == CountrySource ==> SplitCountries(s.value) != [])
    ensures DestFrags(s, v6) != [] <==> !v6 || s.kind == AnySource || IsIPv6Source(s)
  {
  }

  lemma {:induction false} SomeSection(k: Kind, rl: seq<Rule>, published: set<int>)
    ensures Section(k, rl, published) != [] <==> exists r :: r in rl && r.enabled && Alts(k, r, published) != []
  {
    if rl != [] {
      var n := |rl| - 1;
      SomeSection(k, rl[..n], published);
      SplitLast(rl);
      SomeLines(Alts(k, rl[n], published), rl[n], Target(k, rl[n].action));
      assert forall r :: r in rl <==> r in rl[..n] || r == rl[n];
    }
  }

  /** The outbound chains have lines of rules exactly when some enabled outbound rule
      is for their zone: for the host on the chain of one family or the other, for
      forwarded traffic unless all such rules are for IPv6 peers. */
  lemma OutboundLinesExact(rl: seq<Rule>, published: set<int>)
    requires forall r | r in rl :: Compilable(r) && WellFormedPorts(r.ports)
    ensures Section(Out, rl, published) != [] || Section(Out6, rl, published) != []
       <==> exists r :: r in rl && OutboundFor(r, HostZone)
    ensures Section(FwdOut, rl, published) != []
       <==> exists r :: r in rl && OutboundFor(r, DockerZone) && !IsIPv6Source(r.source)
  {
    forall k | k == Out || k == Out6 || k == FwdOut
      ensures Section(k, rl, published) != [] <==> exists r :: r in rl && r.enabled && Alts(k, r, published) != []
    {
      SomeSection(k, rl, published);
    }
    forall r | r in rl
      ensures (r.enabled && Alts(Out, r, published) != []) || (r.enabled && Alts(Out6, r, published) != [])
         <==> OutboundFor(r, HostZone)
      ensures r.enabled && Alts(FwdOut, r, published) != [] <==>
        OutboundFor(r, DockerZone) && !IsIPv6Source(r.source)
    {
      OutAltsExact(Out, r, published);
      OutAltsExact(Out6, r, published);
      OutAltsExact(FwdOut, r, published);
    }
  }

  /** The sender already has all but one of its allowance in the window. */
  predicate OverLimit(r: Rule, p: Packet, st: Recent) {
    && r.rateLimit.Some? && r.rateLimit.value.conn >= 1 && r.rateLimit.value.seconds >= 1
    && Hits(Stamp(st, BucketName(r), p), BucketName(r), p, r.rateLimit.value.seconds) >= r.rateLimit.value.conn
  }
}
