/** The compiler preserves meaning. The source language is the rule list: the
    first enabled rule in Order that governs a packet decides it, else the
    default. The target is a chain of lines. The two agree on every packet and
    every recent table, for each of the six chains. */
module Meaning {
  import opened Text
  import opened Seqs
  import opened Rules
  import opened Netfilter
  import opened RuleLines
  import opened Ordering
  import opened Chains

  // ----- the source language -----

  /** What the compiler needs of a rule; validation provides it. */
  predicate Compilable(r: Rule) {
    && r.source.kind != OtherSource
    && (r.source.kind == CountrySource ==> SplitCountries(r.source.value) != [])
    && (r.ports.kind == RangePorts ==> r.ports.from != 0)
  }

  predicate CompilableSet(rs: RuleSet) {
    forall r | r in rs.rules :: Compilable(r)
  }

  predicate InSomeCountry(w: World, codes: seq<string>, a: Addr) {
    exists c | c in codes :: w.inSet(SetName(c), a)
  }

  /** The rule's peer is the packet's source inbound, its destination outbound.
      A literal address belongs to one family; countries are IPv4. */
  predicate PeerMatches(k: Kind, w: World, s: Source, p: Packet) {
    var a := if k.IsOut() then p.dst else p.src;
    match s.kind
    case AnySource => true
    case IpSource => (':' in s.value) == k.IsV6() && w.inNet(s.value, a)
    case RangeSource => (':' in s.value) == k.IsV6() && w.inNet(s.value, a)
    case CountrySource => !k.IsV6() && InSomeCountry(w, SplitCountries(s.value), a)
    case OtherSource => false
  }

  predicate ProtocolMatches(r: Rule, p: Packet) {
    match r.protocol
    case Tcp => p.transport == TCP
    case Udp => p.transport == UDP
    case Both => r.ports.kind == AllPorts || p.transport in {TCP, UDP}
    case OtherProtocol => false
  }

  predicate PortSelected(ports: Ports, port: int) {
    match ports.kind
    case AllPorts => true
    case RangePorts => ports.from <= port <= ports.to
    case _ => port in ports.list
  }

  /** DOCKER-USER sees traffic after DNAT and matches the port from before it. */
  function PortOn(k: Kind, p: Packet): int {
    if k == DockerIn then p.origDport else p.dport
  }

  /** Whether the rule's zone sends this port to this chain. An auto list is
      split port by port; anything else auto goes to the host whole. */
  predicate ZoneCovers(k: Kind, r: Rule, published: set<int>, port: int) {
    match r.zone
    case HostZone => k != DockerIn && k != FwdOut
    case DockerZone => k == DockerIn || k == FwdOut
    case AutoZone =>
      if k.IsOut() then true
      else if r.ports.kind in {AllPorts, RangePorts} then k != DockerIn
      else (port in published) == (k == DockerIn)
    case OtherZone =>
      if k.IsOut() then false
      else if r.ports.kind in {AllPorts, RangePorts} then k != DockerIn
      else (port in published) == (k == DockerIn)
  }

  /** Rule r, as written, governs packet p on chain k. */
  predicate Applies(k: Kind, w: World, r: Rule, published: set<int>, p: Packet) {
    && r.enabled
    && r.IsOutbound() == k.IsOut()
    && PeerMatches(k, w, r.source, p)
    && ProtocolMatches(r, p)
    && PortSelected(r.ports, PortOn(k, p))
    && ZoneCovers(k, r, published, PortOn(k, p))
    && (r.schedule.Some? ==> w.active(r.schedule.value, p.time))
  }

  function Governs(k: Kind, w: World, published: set<int>, p: Packet): Rule -> bool {
    r => Applies(k, w, r, published, p)
  }

  /** What a governing rule does: a rate-limited rule stamps the sender's bucket
      once and drops when the bucket, that stamp included, holds `conn` stamps
      of the last `seconds`; otherwise the action. */
  function RuleOutcome(r: Rule, target: Verdict, p: Packet, st: Recent): Outcome {
    if r.rateLimit.Some? && r.rateLimit.value.conn >= 1 && r.rateLimit.value.seconds >= 1 then
      var stamped := Stamp(st, BucketName(r), p);
      if Hits(stamped, BucketName(r), p, r.rateLimit.value.seconds) >= r.rateLimit.value.conn
      then Outcome(Drop, Stamp(stamped, BucketName(r), p))
      else Outcome(target, stamped)
    else Outcome(target, st)
  }

  predicate TrustedIface(names: seq<string>, iface: string) {
    exists n | n in names :: IfaceMatches(n, iface)
  }

  /** The verdict that stands above every rule, if the packet has one. */
  function Bypass(k: Kind, w: World, rs: RuleSet, extra: seq<string>, p: Packet): Option<Verdict> {
    var known := p.state in {Established, Related};
    match k
    case In =>
      if known then Some(Accept)
      else if p.state == Invalid then Some(Drop)
      else if || TrustedIface(TRUSTED + extra, p.inIface) || p.transport == ICMP
              || (p.transport == UDP && p.dport in {68, 41641, 9993}) then Some(Accept)
      else None
    case DockerIn =>
      if || known || w.inNet("127.0.0.0/8", p.src) || (rs.hostIP != "" && w.inNet(rs.hostIP, p.src))
         || TrustedIface(TRUSTED_DOCKER + extra, p.inIface) then Some(Return)
      else None
    case In6 =>
      if known then Some(Return)
      else if p.state == Invalid then Some(Drop)
      else if || TrustedIface(TRUSTED + extra, p.inIface) || p.transport == ICMPv6
              || (p.transport == UDP && p.dport == 546)
              || w.inNet("fe80::/10", p.src) || w.inNet("ff00::/8", p.src) then Some(Return)
      else None
    case Out => if known || IfaceMatches("lo", p.outIface) then Some(Accept) else None
    case Out6 => if known || IfaceMatches("lo", p.outIface) then Some(Return) else None
    case FwdOut => if known then Some(Return) else None
  }

  /** What happens to a packet no rule governs. */
  function Default(k: Kind, w: World, rs: RuleSet, p: Packet): Verdict {
    match k
    case In => if rs.policy == AllowPolicy then Return else Drop
    case DockerIn => if rs.policy == DenyPolicy && rs.lan != "" && w.inNet(rs.lan, p.src) then Drop else Return
    case In6 =>
      if (p.transport == TCP && p.dport in rs.v6Drop) || rs.policy != AllowPolicy then Drop else Return
    case _ => Return
  }

  // ----- alternatives mean what the rule says -----

  predicate AnyHold(w: World, alts: seq<seq<Match>>, p: Packet) {
    exists i | 0 <= i < |alts| :: AllHold(w, alts[i], p)
  }

  lemma AllHoldAppend(w: World, a: seq<Match>, b: seq<Match>, p: Packet)
    ensures AllHold(w, a + b, p) <==> AllHold(w, a, p) && AllHold(w, b, p)
  {
    if AllHold(w, a + b, p) {
      forall i | 0 <= i < |a| ensures Holds(w, a[i], p) {
        assert (a + b)[i] == a[i];
      }
      forall i | 0 <= i < |b| ensures Holds(w, b[i], p) {
        assert (a + b)[|a| + i] == b[i];
      }
    }
  }

  lemma AnyHoldAppend(w: World, a: seq<seq<Match>>, b: seq<seq<Match>>, p: Packet)
    ensures AnyHold(w, a + b, p) <==> AnyHold(w, a, p) || AnyHold(w, b, p)
  {
    if i :| 0 <= i < |a| && AllHold(w, a[i], p) {
      assert (a + b)[i] == a[i];
    }
    if i :| 0 <= i < |b| && AllHold(w, b[i], p) {
      assert (a + b)[|a| + i] == b[i];
    }
  }

  lemma AnyHoldOne(w: World, alt: seq<Match>, p: Packet)
    ensures AnyHold(w, [alt], p) <==> AllHold(w, alt, p)
  {
    assert [alt][0] == alt;
  }

  lemma {:induction false} AnyHoldPrepend(w: World, head: seq<Match>, tails: seq<seq<Match>>, p: Packet)
    ensures AnyHold(w, Prepend(head, tails), p) <==> AllHold(w, head, p) && AnyHold(w, tails, p)
  {
    if tails != [] {
      var n := |tails| - 1;
      AnyHoldPrepend(w, head, tails[..n], p);
      AnyHoldAppend(w, Prepend(head, tails[..n]), [head + tails[n]], p);
      AnyHoldOne(w, head + tails[n], p);
      AllHoldAppend(w, head, tails[n], p);
      AnyHoldAppend(w, tails[..n], [tails[n]], p);
      AnyHoldOne(w, tails[n], p);
      assert tails[..n] + [tails[n]] == tails;
    }
  }

  /** A product of alternatives matches exactly when both factors do. */
  lemma {:induction false} AnyHoldCross(w: World, heads: seq<seq<Match>>, tails: seq<seq<Match>>, p: Packet)
    ensures AnyHold(w, Cross(heads, tails), p) <==> AnyHold(w, heads, p) && AnyHold(w, tails, p)
  {
    if heads != [] {
      var n := |heads| - 1;
      AnyHoldCross(w, heads[..n], tails, p);
      AnyHoldAppend(w, Cross(heads[..n], tails), Prepend(heads[n], tails), p);
      AnyHoldPrepend(w, heads[n], tails, p);
      AnyHoldAppend(w, heads[..n], [heads[n]], p);
      AnyHoldOne(w, heads[n], p);
      assert heads[..n] + [heads[n]] == heads;
    }
  }

  /** Cutting a port list into runs of fifteen changes nothing. */
  lemma {:induction false} ChunksMeaning(w: World, ports: seq<int>, p: Packet)
    ensures AnyHold(w, Chunks(ports), p) <==> p.dport in ports
  {
    if ports == [] {
    } else if |ports| <= MAX_MULTIPORT {
      AnyHoldOne(w, ChunkFrag(ports), p);
      ChunkFragMeaning(w, ports, p);
    } else {
      var front, back := ports[..MAX_MULTIPORT], ports[MAX_MULTIPORT..];
      ChunksMeaning(w, back, p);
      AnyHoldAppend(w, [ChunkFrag(front)], Chunks(back), p);
      AnyHoldOne(w, ChunkFrag(front), p);
      ChunkFragMeaning(w, front, p);
      assert ports == front + back;
    }
  }

  lemma ChunkFragMeaning(w: World, chunk: seq<int>, p: Packet)
    requires chunk != []
    ensures AllHold(w, ChunkFrag(chunk), p) <==> p.dport in chunk
  {
    assert ChunkFrag(chunk)[0] in ChunkFrag(chunk);
    assert |chunk| == 1 ==> chunk == [chunk[0]];
  }

  lemma OrigPortsMeaning(w: World, ps: PortSpec, p: Packet)
    ensures AnyHold(w, OrigPortFrags(ps), p) <==>
      if ps.IsRange() then ps.from <= p.origDport <= ps.to else p.origDport in ps.list
  {
    if !ps.IsRange() {
      forall i | 0 <= i < |ps.list|
        ensures AllHold(w, OrigPortFrags(ps)[i], p) <==> p.origDport == ps.list[i]
      {
        assert OrigPortFrags(ps)[i] == [OrigDport(ps.list[i])];
        assert [OrigDport(ps.list[i])][0] == OrigDport(ps.list[i]);
      }
      if p.origDport in ps.list {
        var i :| 0 <= i < |ps.list| && ps.list[i] == p.origDport;
        assert AllHold(w, OrigPortFrags(ps)[i], p);
      }
    } else {
      AnyHoldOne(w, [OrigDportRange(ps.from, ps.to)], p);
      assert [OrigDportRange(ps.from, ps.to)][0] == OrigDportRange(ps.from, ps.to);
    }
  }

  lemma PortFragsMeaning(w: World, ps: PortSpec, p: Packet)
    ensures AnyHold(w, PortFrags(ps), p) <==>
      if ps.IsRange() then ps.from <= p.dport <= ps.to else p.dport in ps.list
  {
    if ps.IsRange() {
      AnyHoldOne(w, [DportRange(ps.from, ps.to)], p);
      assert [DportRange(ps.from, ps.to)][0] == DportRange(ps.from, ps.to);
    } else {
      ChunksMeaning(w, ps.list, p);
    }
  }

  lemma SingleHolds(w: World, m: Match, p: Packet)
    ensures AllHold(w, [m], p) <==> Holds(w, m, p)
  {
    assert [m][0] == m;
  }

  lemma ScheduleMeaning(w: World, s: Option<Schedule>, p: Packet)
    ensures AllHold(w, ScheduleArg(s), p) <==> (s.Some? ==> w.active(s.value, p.time))
    ensures AnyHold(w, [ScheduleArg(s)], p) <==> (s.Some? ==> w.active(s.value, p.time))
  {
    AnyHoldOne(w, ScheduleArg(s), p);
    if s.Some? {
      SingleHolds(w, TimeWindow(s.value), p);
    }
  }

  lemma ProtoMeaning(w: World, pr: Protocol, p: Packet)
    ensures AnyHold(w, ProtoFrags(pr), p) <==>
      match pr case Tcp => p.transport == TCP case Udp => p.transport == UDP
               case Both => p.transport in {TCP, UDP} case OtherProtocol => false
  {
    if pr == Both {
      AnyHoldAppend(w, [[ProtoIs(TCP)]], [[ProtoIs(UDP)]], p);
      assert [[ProtoIs(TCP)]] + [[ProtoIs(UDP)]] == ProtoFrags(pr);
      AnyHoldOne(w, [ProtoIs(TCP)], p);
      AnyHoldOne(w, [ProtoIs(UDP)], p);
      SingleHolds(w, ProtoIs(TCP), p);
      SingleHolds(w, ProtoIs(UDP), p);
    } else {
      AnyHoldOne(w, [ProtoArg(pr)], p);
      SingleHolds(w, ProtoArg(pr), p);
    }
  }

  lemma SetFragsMeaning(w: World, codes: seq<string>, dst: bool, p: Packet)
    ensures AnyHold(w, SetFrags(codes, dst), p) <==> InSomeCountry(w, codes, if dst then p.dst else p.src)
  {
    var a := if dst then p.dst else p.src;
    forall i | 0 <= i < |codes|
      ensures AllHold(w, SetFrags(codes, dst)[i], p) <==> w.inSet(SetName(codes[i]), a)
    {
      SingleHolds(w, if dst then DstSet(SetName(codes[i])) else SrcSet(SetName(codes[i])), p);
    }
    if InSomeCountry(w, codes, a) {
      var c :| c in codes && w.inSet(SetName(c), a);
      var i :| 0 <= i < |codes| && codes[i] == c;
      assert AllHold(w, SetFrags(codes, dst)[i], p);
    }
  }

  lemma {:induction false} PickMeaning(ports: seq<int>, published: set<int>, want: bool, x: int)
    ensures x in Pick(ports, published, want) <==> x in ports && (x in published) == want
  {
    if ports != [] {
      PickMeaning(ports[..|ports| - 1], published, want, x);
      assert ports == ports[..|ports| - 1] + [ports[|ports| - 1]];
    }
  }

  /** The port part of an inbound rule, through the zone split. */
  lemma ZonePortsMeaning(k: Kind, r: Rule, published: set<int>, port: int)
    requires !k.IsOut()
    requires r.ports.kind == RangePorts ==> r.ports.from != 0
    ensures var ps := ZonePorts(r, published, if k == DockerIn then WantDocker else WantHost);
            PortSelected(r.ports, port) && ZoneCovers(k, r, published, port) <==>
            ps.Some? && (ps.value.all || if ps.value.IsRange() then ps.value.from <= port <= ps.value.to
                                         else port in ps.value.list)
  {
    match r.zone {
      case HostZone =>
      case DockerZone =>
      case _ =>
        if r.ports.kind !in {AllPorts, RangePorts} {
          PickMeaning(r.ports.list, published, k == DockerIn, port);
        }
    }
  }

  lemma InTailsMeaning(w: World, r: Rule, ps: PortSpec, frags: seq<seq<Match>>, p: Packet)
    requires ps.all <==> r.ports.kind == AllPorts
    ensures AnyHold(w, InTails(r, ps, frags), p) <==>
      && ProtocolMatches(r, p)
      && (ps.all || AnyHold(w, frags, p))
      && (r.schedule.Some? ==> w.active(r.schedule.value, p.time))
  {
    var sch := ScheduleArg(r.schedule);
    ScheduleMeaning(w, r.schedule, p);
    ProtoMeaning(w, r.protocol, p);
    if ps.all {
      AnyHoldOne(w, [ProtoArg(r.protocol)] + sch, p);
      AllHoldAppend(w, [ProtoArg(r.protocol)], sch, p);
      SingleHolds(w, ProtoArg(r.protocol), p);
    } else {
      AnyHoldCross(w, ProtoFrags(r.protocol), Cross(frags, [sch]), p);
      AnyHoldCross(w, frags, [sch], p);
    }
  }

  lemma SourceMeaning(w: World, s: Source, p: Packet)
    requires s.kind != OtherSource && !IsIPv6Source(s)
    requires s.kind == CountrySource ==> SplitCountries(s.value) != []
    ensures AnyHold(w, SourceFrags(s), p) <==> PeerMatches(In, w, s, p)
    ensures PeerMatches(DockerIn, w, s, p) <==> PeerMatches(In, w, s, p)
  {
    match s.kind {
      case IpSource => OneSourceMeaning(w, s.value, p);
      case RangeSource => OneSourceMeaning(w, s.value, p);
      case CountrySource => SetFragsMeaning(w, SplitCountries(s.value), false, p);
      case _ => AnyHoldOne(w, [], p);
    }
  }

  lemma OneSourceMeaning(w: World, net: string, p: Packet)
    ensures AnyHold(w, [[SrcNet(net)]], p) <==> w.inNet(net, p.src)
  {
    AnyHoldOne(w, [SrcNet(net)], p);
    SingleHolds(w, SrcNet(net), p);
  }

  lemma DestMeaning(k: Kind, w: World, s: Source, p: Packet)
    requires k.IsOut() && s.kind != OtherSource && (k != Out6 ==> !IsIPv6Source(s))
    ensures AnyHold(w, DestFrags(s, k == Out6), p) <==> PeerMatches(k, w, s, p)
  {
    match s.kind {
      case IpSource => OneDestMeaning(w, s.value, p);
      case RangeSource => OneDestMeaning(w, s.value, p);
      case CountrySource => SetFragsMeaning(w, SplitCountries(s.value), true, p);
      case _ => AnyHoldOne(w, [], p);
    }
  }

  lemma OneDestMeaning(w: World, net: string, p: Packet)
    ensures AnyHold(w, [[DstNet(net)]], p) <==> w.inNet(net, p.dst)
  {
    AnyHoldOne(w, [DstNet(net)], p);
    SingleHolds(w, DstNet(net), p);
  }

  lemma OutTailsMeaning(w: World, r: Rule, p: Packet)
    ensures AnyHold(w, OutTails(r), p) <==> ProtocolMatches(r, p) && PortSelected(r.ports, p.dport)
  {
    ProtoMeaning(w, r.protocol, p);
    AnyHoldOne(w, [], p);
    AnyHoldOne(w, [ProtoArg(r.protocol)], p);
    var range := [DportRange(r.ports.from, r.ports.to)];
    AnyHoldCross(w, ProtoFrags(r.protocol), [range], p);
    AnyHoldOne(w, range, p);
    SingleHolds(w, range[0], p);
    AnyHoldCross(w, ProtoFrags(r.protocol), Chunks(r.ports.list), p);
    ChunksMeaning(w, r.ports.list, p);
  }

  lemma OutAltsMeaning(k: Kind, w: World, r: Rule, published: set<int>, p: Packet)
    requires k.IsOut() && Compilable(r)
    ensures r.enabled && AnyHold(w, Alts(k, r, published), p) <==> Applies(k, w, r, published, p)
  {
    if OutTargeted(k, r) {
      var dests, sch := DestFrags(r.source, k == Out6), ScheduleArg(r.schedule);
      AnyHoldCross(w, Cross(dests, [sch]), OutTails(r), p);
      AnyHoldCross(w, dests, [sch], p);
      DestMeaning(k, w, r.source, p);
      ScheduleMeaning(w, r.schedule, p);
      OutTailsMeaning(w, r, p);
    }
  }

  lemma InAltsMeaning(k: Kind, w: World, r: Rule, published: set<int>, p: Packet)
    requires k in {In, DockerIn} && Compilable(r)
    ensures r.enabled && AnyHold(w, Alts(k, r, published), p) <==> Applies(k, w, r, published, p)
  {
    var ps := ZonePorts(r, published, if k == DockerIn then WantDocker else WantHost);
    ZonePortsMeaning(k, r, published, PortOn(k, p));
    if !r.IsOutbound() && ps.Some? && !IsIPv6Source(r.source) {
      var frags := if k == DockerIn then OrigPortFrags(ps.value) else PortFrags(ps.value);
      OrigPortsMeaning(w, ps.value, p);
      PortFragsMeaning(w, ps.value, p);
      InTailsMeaning(w, r, ps.value, frags, p);
      AnyHoldCross(w, SourceFrags(r.source), InTails(r, ps.value, frags), p);
      SourceMeaning(w, r.source, p);
    }
  }

  lemma In6AltsMeaning(w: World, r: Rule, published: set<int>, p: Packet)
    requires Compilable(r)
    ensures r.enabled && AnyHold(w, Alts(In6, r, published), p) <==> Applies(In6, w, r, published, p)
  {
    var ps, src := ZonePorts(r, published, WantHost), Source6Arg(r.source);
    ZonePortsMeaning(In6, r, published, p.dport);
    if !r.IsOutbound() && ps.Some? && src.Some? {
      PortFragsMeaning(w, ps.value, p);
      InTailsMeaning(w, r, ps.value, PortFrags(ps.value), p);
      AnyHoldCross(w, [src.value], InTails(r, ps.value, PortFrags(ps.value)), p);
      AnyHoldOne(w, src.value, p);
      SingleHolds(w, SrcNet(r.source.value), p);
    }
  }

  /** Some line of the rule matches the packet exactly when the rule, as
      written, governs it: countries, protocols, port chunks and the zone split
      all cancel out. */
  lemma AltsMeaning(k: Kind, w: World, r: Rule, published: set<int>, p: Packet)
    requires Compilable(r)
    ensures r.enabled && AnyHold(w, Alts(k, r, published), p) <==> Applies(k, w, r, published, p)
  {
    if k.IsOut() {
      OutAltsMeaning(k, w, r, published, p);
    } else if k == In6 {
      In6AltsMeaning(w, r, published, p);
    } else {
      InAltsMeaning(k, w, r, published, p);
    }
  }

  // ----- lines to outcomes -----

  lemma EvalWrapped(w: World, conds: seq<Match>, r: Rule, target: Verdict, rest: seq<Line>, p: Packet, st: Recent)
    ensures Eval(w, Wrapped(conds, r, target) + rest, p, st) ==
      if AllHold(w, conds, p) then RuleOutcome(r, target, p, st) else Eval(w, rest, p, st)
  {
    var jump := Line(conds, Jump(target));
    var afterLimit := (if r.log then [Line(conds, Log("ZFW-RULE-" + r.id + " "))] else []) + ([jump] + rest);
    forall st' ensures Eval(w, afterLimit, p, st') ==
        if AllHold(w, conds, p) then Outcome(target, st') else Eval(w, rest, p, st')
    {
      EvalStep(w, jump, rest, p, st');
      if r.log {
        EvalStep(w, Line(conds, Log("ZFW-RULE-" + r.id + " ")), [jump] + rest, p, st');
      } else {
        assert afterLimit == [jump] + rest;
      }
    }
    if RateLimited(r) {
      var name, limit := BucketName(r), r.rateLimit.value;
      var set_, update := Line(conds, RecentSet(name)), Line(conds, RecentUpdate(name, limit.seconds, limit.conn));
      assert Wrapped(conds, r, target) + rest == [set_] + ([update] + afterLimit);
      EvalStep(w, set_, [update] + afterLimit, p, st);
      EvalStep(w, update, afterLimit, p, st);
      EvalStep(w, update, afterLimit, p, Stamp(st, name, p));
    } else {
      assert Wrapped(conds, r, target) + rest == afterLimit;
    }
  }

  /** A rule's lines act once, whichever of its alternatives match. */
  lemma {:induction false} EvalWrapAll(
      w: World, alts: seq<seq<Match>>, r: Rule, target: Verdict, rest: seq<Line>, p: Packet, st: Recent)
    ensures Eval(w, WrapAll(alts, r, target) + rest, p, st) ==
      if AnyHold(w, alts, p) then RuleOutcome(r, target, p, st) else Eval(w, rest, p, st)
  {
    if alts == [] {
      assert WrapAll(alts, r, target) + rest == rest;
    } else {
      var n := |alts| - 1;
      var last := Wrapped(alts[n], r, target);
      assert WrapAll(alts, r, target) + rest == WrapAll(alts[..n], r, target) + (last + rest);
      EvalWrapAll(w, alts[..n], r, target, last + rest, p, st);
      EvalWrapped(w, alts[n], r, target, rest, p, st);
      AnyHoldAppend(w, alts[..n], [alts[n]], p);
      AnyHoldOne(w, alts[n], p);
      assert alts[..n] + [alts[n]] == alts;
    }
  }

  lemma EvalRule(k: Kind, w: World, r: Rule, published: set<int>, rest: seq<Line>, p: Packet, st: Recent)
    requires Compilable(r)
    ensures Eval(w, (if r.enabled then LinesOf(k, r, published) else []) + rest, p, st) ==
      if Applies(k, w, r, published, p) then RuleOutcome(r, Target(k, r.action), p, st) else Eval(w, rest, p, st)
  {
    AltsMeaning(k, w, r, published, p);
    EvalWrapAll(w, Alts(k, r, published), r, Target(k, r.action), rest, p, st);
    assert [] + rest == rest;
  }

  /** The section of the rules decides by the first governing rule of its list. */
  lemma {:induction false} EvalSection(
      k: Kind, w: World, rl: seq<Rule>, published: set<int>, rest: seq<Line>, p: Packet, st: Recent)
    requires forall r | r in rl :: Compilable(r)
    ensures var f := First(rl, Governs(k, w, published, p));
            Eval(w, Section(k, rl, published) + rest, p, st) ==
            if f.Some? then RuleOutcome(f.value, Target(k, f.value.action), p, st) else Eval(w, rest, p, st)
  {
    if rl == [] {
      assert Section(k, rl, published) + rest == rest;
    } else {
      var n := |rl| - 1;
      var r, m := rl[n], Governs(k, w, published, p);
      var last := if r.enabled then LinesOf(k, r, published) else [];
      SplitLast(rl);
      FirstSnoc(rl[..n], r, m);
      SectionRest(k, rl, published, last, rest);
      EvalSection(k, w, rl[..n], published, last + rest, p, st);
      EvalRule(k, w, r, published, rest, p, st);
    }
  }

  lemma SectionRest(k: Kind, rl: seq<Rule>, published: set<int>, last: seq<Line>, rest: seq<Line>)
    requires rl != []
    requires last == if rl[|rl| - 1].enabled then LinesOf(k, rl[|rl| - 1], published) else []
    ensures Section(k, rl, published) + rest == Section(k, rl[..|rl| - 1], published) + (last + rest)
  {
  }

  lemma {:induction false} FirstSnoc(rl: seq<Rule>, r: Rule, m: Rule -> bool)
    ensures First(rl + [r], m) ==
      if First(rl, m).Some? then First(rl, m) else if m(r) then Some(r) else None
  {
    if rl != [] {
      FirstSnoc(rl[1..], r, m);
      assert (rl + [r])[1..] == rl[1..] + [r];
    }
  }

  // ----- the fixed lines -----

  lemma AnyLineAppend(w: World, a: seq<Line>, b: seq<Line>, p: Packet)
    ensures AnyLine(w, a + b, p) <==> AnyLine(w, a, p) || AnyLine(w, b, p)
  {
    assert forall l :: l in a + b <==> l in a || l in b;
  }

  lemma AnyLineOne(w: World, l: Line, p: Packet)
    ensures AnyLine(w, [l], p) <==> AllHold(w, l.conds, p)
  {
    assert l in [l];
  }

  lemma IfaceLinesMeaning(w: World, names: seq<string>, v: Verdict, p: Packet)
    ensures AnyLine(w, IfaceLines(names, v), p) <==> TrustedIface(names, p.inIface)
  {
    forall i | 0 <= i < |names|
      ensures AllHold(w, IfaceLines(names, v)[i].conds, p) <==> IfaceMatches(names[i], p.inIface)
    {
      SingleHolds(w, InIface(names[i]), p);
    }
    if TrustedIface(names, p.inIface) {
      var n :| n in names && IfaceMatches(n, p.inIface);
      var i :| 0 <= i < |names| && names[i] == n;
      assert IfaceLines(names, v)[i] in IfaceLines(names, v);
    }
  }

  lemma OneCond(w: World, m: Match, v: Verdict, p: Packet)
    ensures AnyLine(w, [Line([m], Jump(v))], p) <==> Holds(w, m, p)
  {
    AnyLineOne(w, Line([m], Jump(v)), p);
    SingleHolds(w, m, p);
  }

  lemma UdpLineMeaning(w: World, port: int, v: Verdict, p: Packet)
    ensures AnyLine(w, [UdpLine(port, v)], p) <==> p.transport == UDP && p.dport == port
  {
    AnyLineOne(w, UdpLine(port, v), p);
    AllHoldAppend(w, [ProtoIs(UDP)], [Dport(port)], p);
    SingleHolds(w, ProtoIs(UDP), p);
    SingleHolds(w, Dport(port), p);
    assert UdpLine(port, v).conds == [ProtoIs(UDP)] + [Dport(port)];
  }

  lemma TrustedAppend(a: seq<string>, b: seq<string>, iface: string)
    ensures TrustedIface(a + b, iface) <==> TrustedIface(a, iface) || TrustedIface(b, iface)
  {
    assert forall n :: n in a + b <==> n in a || n in b;
  }

  lemma EvalState(w: World, states: set<CtState>, v: Verdict, rest: seq<Line>, p: Packet, st: Recent)
    ensures Eval(w, [Line([StateIn(states)], Jump(v))] + rest, p, st) ==
      if p.state in states then Outcome(v, st) else Eval(w, rest, p, st)
  {
    EvalStep(w, Line([StateIn(states)], Jump(v)), rest, p, st);
    SingleHolds(w, StateIn(states), p);
  }

  lemma AcceptsMeaning(w: World, extra: seq<string>, accepts: seq<Line>, p: Packet)
    requires accepts == IfaceLines(TRUSTED, Accept)
      + ([Line([ProtoIs(ICMP)], Jump(Accept))] + ([UdpLine(68, Accept)] + ([UdpLine(41641, Accept)]
      + ([UdpLine(9993, Accept)] + IfaceLines(extra, Accept)))))
    ensures AnyLine(w, accepts, p) <==>
      || TrustedIface(TRUSTED + extra, p.inIface) || p.transport == ICMP
      || (p.transport == UDP && p.dport in {68, 41641, 9993})
  {
    var a := IfaceLines(TRUSTED, Accept);
    var c1, c2, c3, c4 :=
      [Line([ProtoIs(ICMP)], Jump(Accept))], [UdpLine(68, Accept)], [UdpLine(41641, Accept)], [UdpLine(9993, Accept)];
    var e := IfaceLines(extra, Accept);
    AnyLineAppend(w, a, c1 + (c2 + (c3 + (c4 + e))), p);
    AnyLineAppend(w, c1, c2 + (c3 + (c4 + e)), p);
    AnyLineAppend(w, c2, c3 + (c4 + e), p);
    AnyLineAppend(w, c3, c4 + e, p);
    AnyLineAppend(w, c4, e, p);
    IfaceLinesMeaning(w, TRUSTED, Accept, p);
    IfaceLinesMeaning(w, extra, Accept, p);
    OneCond(w, ProtoIs(ICMP), Accept, p);
    UdpLineMeaning(w, 68, Accept, p);
    UdpLineMeaning(w, 41641, Accept, p);
    UdpLineMeaning(w, 9993, Accept, p);
    TrustedAppend(TRUSTED, extra, p.inIface);
  }

  lemma PrologueInParts(rs: RuleSet, extra: seq<string>, rest: seq<Line>, accepts: seq<Line>)
    requires accepts == IfaceLines(TRUSTED, Accept)
      + ([Line([ProtoIs(ICMP)], Jump(Accept))] + ([UdpLine(68, Accept)] + ([UdpLine(41641, Accept)]
      + ([UdpLine(9993, Accept)] + IfaceLines(extra, Accept)))))
    ensures Prologue(In, rs, extra) + rest
         == [Line([ESTABLISHED], Jump(Accept))] + ([Line([StateIn({Invalid})], Jump(Drop))] + (accepts + rest))
  {
  }

  /** Two state lines, then lines that all jump alike. */
  lemma StatesThen(w: World, known: Verdict, jumps: seq<Line>, v: Verdict, rest: seq<Line>, p: Packet, st: Recent)
    requires forall l | l in jumps :: l.act == Jump(v)
    ensures Eval(w, [Line([ESTABLISHED], Jump(known))]
                    + ([Line([StateIn({Invalid})], Jump(Drop))] + (jumps + rest)), p, st) ==
      if p.state in {Established, Related} then Outcome(known, st)
      else if p.state == Invalid then Outcome(Drop, st)
      else if AnyLine(w, jumps, p) then Outcome(v, st)
      else Eval(w, rest, p, st)
  {
    EvalState(w, {Established, Related}, known, [Line([StateIn({Invalid})], Jump(Drop))] + (jumps + rest), p, st);
    EvalState(w, {Invalid}, Drop, jumps + rest, p, st);
    EvalSameJump(w, jumps, v, rest, p, st);
  }

  lemma PrologueIn(w: World, rs: RuleSet, extra: seq<string>, rest: seq<Line>, p: Packet, st: Recent)
    ensures var b := Bypass(In, w, rs, extra, p);
            Eval(w, Prologue(In, rs, extra) + rest, p, st) ==
            if b.Some? then Outcome(b.value, st) else Eval(w, rest, p, st)
  {
    var accepts := IfaceLines(TRUSTED, Accept)
      + ([Line([ProtoIs(ICMP)], Jump(Accept))] + ([UdpLine(68, Accept)] + ([UdpLine(41641, Accept)]
      + ([UdpLine(9993, Accept)] + IfaceLines(extra, Accept)))));
    PrologueInParts(rs, extra, rest, accepts);
    StatesThen(w, Accept, accepts, Accept, rest, p, st);
    AcceptsMeaning(w, extra, accepts, p);
  }

  lemma PrologueDocker(w: World, rs: RuleSet, extra: seq<string>, rest: seq<Line>, p: Packet, st: Recent)
    ensures var b := Bypass(DockerIn, w, rs, extra, p);
            Eval(w, Prologue(DockerIn, rs, extra) + rest, p, st) ==
            if b.Some? then Outcome(b.value, st) else Eval(w, rest, p, st)
  {
    var s1, s2 := [Line([ESTABLISHED], Jump(Return))], [Line([SrcNet("127.0.0.0/8")], Jump(Return))];
    var h := if rs.hostIP != "" then [Line([SrcNet(rs.hostIP)], Jump(Return))] else [];
    var a, e := IfaceLines(TRUSTED_DOCKER, Return), IfaceLines(extra, Return);
    var backs := s1 + (s2 + (h + (a + e)));
    assert Prologue(DockerIn, rs, extra) == backs;
    EvalSameJump(w, backs, Return, rest, p, st);
    AnyLineAppend(w, s1, s2 + (h + (a + e)), p);
    AnyLineAppend(w, s2, h + (a + e), p);
    AnyLineAppend(w, h, a + e, p);
    AnyLineAppend(w, a, e, p);
    OneCond(w, ESTABLISHED, Return, p);
    OneCond(w, SrcNet("127.0.0.0/8"), Return, p);
    OneCond(w, SrcNet(rs.hostIP), Return, p);
    IfaceLinesMeaning(w, TRUSTED_DOCKER, Return, p);
    IfaceLinesMeaning(w, extra, Return, p);
    TrustedAppend(TRUSTED_DOCKER, extra, p.inIface);
  }

  /** What IPv6 cannot work without. */
  const IN6_NEEDED: seq<Line> :=
    [Line([ProtoIs(ICMPv6)], Jump(Return)), UdpLine(546, Return),
     Line([SrcNet("fe80::/10")], Jump(Return)), Line([SrcNet("ff00::/8")], Jump(Return))]

  lemma NeededMeaning(w: World, p: Packet)
    ensures AnyLine(w, IN6_NEEDED, p) <==>
      || p.transport == ICMPv6 || (p.transport == UDP && p.dport == 546)
      || w.inNet("fe80::/10", p.src) || w.inNet("ff00::/8", p.src)
  {
    var c1, c2 := [Line([ProtoIs(ICMPv6)], Jump(Return))], [UdpLine(546, Return)];
    var c3, c4 := [Line([SrcNet("fe80::/10")], Jump(Return))], [Line([SrcNet("ff00::/8")], Jump(Return))];
    assert IN6_NEEDED == c1 + (c2 + (c3 + c4));
    AnyLineAppend(w, c1, c2 + (c3 + c4), p);
    AnyLineAppend(w, c2, c3 + c4, p);
    AnyLineAppend(w, c3, c4, p);
    OneCond(w, ProtoIs(ICMPv6), Return, p);
    UdpLineMeaning(w, 546, Return, p);
    OneCond(w, SrcNet("fe80::/10"), Return, p);
    OneCond(w, SrcNet("ff00::/8"), Return, p);
  }

  lemma BacksMeaning(w: World, extra: seq<string>, backs: seq<Line>, p: Packet)
    requires backs == IfaceLines(TRUSTED, Return) + (IfaceLines(extra, Return) + IN6_NEEDED)
    ensures AnyLine(w, backs, p) <==>
      || TrustedIface(TRUSTED + extra, p.inIface) || p.transport == ICMPv6
      || (p.transport == UDP && p.dport == 546)
      || w.inNet("fe80::/10", p.src) || w.inNet("ff00::/8", p.src)
  {
    var a, e := IfaceLines(TRUSTED, Return), IfaceLines(extra, Return);
    AnyLineAppend(w, a, e + IN6_NEEDED, p);
    AnyLineAppend(w, e, IN6_NEEDED, p);
    IfaceLinesMeaning(w, TRUSTED, Return, p);
    IfaceLinesMeaning(w, extra, Return, p);
    NeededMeaning(w, p);
    TrustedAppend(TRUSTED, extra, p.inIface);
  }

  lemma PrologueIn6Parts(rs: RuleSet, extra: seq<string>, rest: seq<Line>, backs: seq<Line>)
    requires backs == IfaceLines(TRUSTED, Return) + (IfaceLines(extra, Return) + IN6_NEEDED)
    ensures Prologue(In6, rs, extra) + rest
         == [Line([ESTABLISHED], Jump(Return))] + ([Line([StateIn({Invalid})], Jump(Drop))] + (backs + rest))
  {
  }

  lemma PrologueIn6(w: World, rs: RuleSet, extra: seq<string>, rest: seq<Line>, p: Packet, st: Recent)
    ensures var b := Bypass(In6, w, rs, extra, p);
            Eval(w, Prologue(In6, rs, extra) + rest, p, st) ==
            if b.Some? then Outcome(b.value, st) else Eval(w, rest, p, st)
  {
    var backs := IfaceLines(TRUSTED, Return) + (IfaceLines(extra, Return) + IN6_NEEDED);
    PrologueIn6Parts(rs, extra, rest, backs);
    StatesThen(w, Return, backs, Return, rest, p, st);
    BacksMeaning(w, extra, backs, p);
  }

  lemma PrologueOut(k: Kind, w: World, rs: RuleSet, extra: seq<string>, rest: seq<Line>, p: Packet, st: Recent)
    requires k.IsOut()
    ensures var b := Bypass(k, w, rs, extra, p);
            Eval(w, Prologue(k, rs, extra) + rest, p, st) ==
            if b.Some? then Outcome(b.value, st) else Eval(w, rest, p, st)
  {
    var v := if k == Out then Accept else Return;
    var lo := Line([OutIface("lo")], Jump(v));
    EvalState(w, {Established, Related}, v, rest, p, st);
    EvalState(w, {Established, Related}, v, [lo] + rest, p, st);
    EvalStep(w, lo, rest, p, st);
    SingleHolds(w, OutIface("lo"), p);
    if k != FwdOut {
      assert Prologue(k, rs, extra) + rest == [Line([ESTABLISHED], Jump(v))] + ([lo] + rest);
    }
  }

  lemma V6DropMeaning(w: World, ports: seq<int>, p: Packet)
    ensures AnyLine(w, V6DropLines(ports), p) <==> p.transport == TCP && p.dport in ports
  {
    var lines := V6DropLines(ports);
    forall i | 0 <= i < |ports|
      ensures AllHold(w, lines[i].conds, p) <==> p.transport == TCP && p.dport == ports[i]
    {
      AllHoldAppend(w, [ProtoIs(TCP)], [Dport(ports[i])], p);
      SingleHolds(w, ProtoIs(TCP), p);
      SingleHolds(w, Dport(ports[i]), p);
      assert lines[i].conds == [ProtoIs(TCP)] + [Dport(ports[i])];
    }
    if p.transport == TCP && p.dport in ports {
      var i :| 0 <= i < |ports| && ports[i] == p.dport;
      assert lines[i] in lines;
    }
  }

  /** A LOG line in front never changes the outcome. */
  lemma EvalEnd(w: World, log: Line, end: Line, p: Packet, st: Recent)
    requires log.act.Log? && end.act.Jump? && end.conds == []
    ensures Eval(w, [end], p, st) == Outcome(end.act.verdict, st)
    ensures Eval(w, [log, end], p, st) == Outcome(end.act.verdict, st)
  {
    EvalStep(w, end, [], p, st);
    EvalStep(w, log, [end], p, st);
    assert [end] + [] == [end] && [log] + [end] == [log, end];
  }

  lemma EpilogueMeaning(k: Kind, w: World, rs: RuleSet, p: Packet, st: Recent)
    ensures Eval(w, Epilogue(k, rs), p, st) == Outcome(Default(k, w, rs, p), st)
  {
    var ret, drop := Line([], Jump(Return)), Line([], Jump(Drop));
    EvalEnd(w, LogNew([], "ZFW-IN-DROP "), ret, p, st);
    EvalEnd(w, LogNew([], "ZFW-IN-DROP "), drop, p, st);
    EvalEnd(w, LogNew([], "ZFW-IN6-DROP "), drop, p, st);
    if k == DockerIn && rs.policy == DenyPolicy && rs.lan != "" {
      var log, lanDrop := LogNew([SrcNet(rs.lan)], "ZFW-DOCK-DROP "), Line([SrcNet(rs.lan)], Jump(Drop));
      assert Epilogue(k, rs) == [log] + ([lanDrop] + [ret]);
      EvalStep(w, log, [lanDrop] + [ret], p, st);
      EvalStep(w, lanDrop, [ret], p, st);
      SingleHolds(w, SrcNet(rs.lan), p);
    }
    if k == In6 {
      var tail := if rs.policy == AllowPolicy then [ret] else [LogNew([], "ZFW-IN6-DROP "), drop];
      EvalSameJump(w, V6DropLines(rs.v6Drop), Drop, tail, p, st);
      V6DropMeaning(w, rs.v6Drop, p);
    }
  }

  // ----- the theorem -----

  /** The outcome the rule list asks for: the bypass verdict, else the winner's
      outcome, else the default; and without a winner no rule matches. */
  ghost predicate AsRuled(
      k: Kind, w: World, rs: RuleSet, published: set<int>, extra: seq<string>, p: Packet, st: Recent, z: Outcome) {
    var m, bypass := Governs(k, w, published, p), Bypass(k, w, rs, extra, p);
    && (bypass.Some? ==> z == Outcome(bypass.value, st))
    && (bypass.None? && (forall r | r in rs.rules :: !m(r)) ==> z == Outcome(Default(k, w, rs, p), st))
    && (forall i | bypass.None? && Wins(rs.rules, m, i) ::
          z == RuleOutcome(rs.rules[i], Target(k, rs.rules[i].action), p, st))
    && ((forall r | r in rs.rules :: !m(r)) || (exists i :: Wins(rs.rules, m, i)))
  }

  /** Compilation preserves meaning, on every chain, for every packet and every
      state of the recent table:
      a bypass verdict stands above the rules; otherwise the winner, the matching
      rule of least Order and earliest place, decides alone; otherwise the
      default does. Only the winner's bucket is ever touched. */
  lemma ChainMeaning(
      k: Kind, w: World, rs: RuleSet, published: set<int>, extra: seq<string>, p: Packet, st: Recent)
    requires CompilableSet(rs)
    ensures AsRuled(k, w, rs, published, extra, p, st, Eval(w, Compiled(k, rs, published, extra), p, st))
  {
    var rl, m := StableSort(rs.rules), Governs(k, w, published, p);
    var section, tail := Section(k, rl, published), Epilogue(k, rs);
    assert Compiled(k, rs, published, extra) == Prologue(k, rs, extra) + (section + tail);
    match k {
      case In => PrologueIn(w, rs, extra, section + tail, p, st);
      case DockerIn => PrologueDocker(w, rs, extra, section + tail, p, st);
      case In6 => PrologueIn6(w, rs, extra, section + tail, p, st);
      case _ => PrologueOut(k, w, rs, extra, section + tail, p, st);
    }
    SortElements(rs.rules);
    forall r | r in rl ensures Compilable(r) {
      assert r in multiset(rl);
    }
    EvalSection(k, w, rl, published, tail, p, st);
    EpilogueMeaning(k, w, rs, p, st);
    FirstOfSorted(rs.rules, m);
  }
}
