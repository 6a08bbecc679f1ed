/** The two back ends. Each appends to a builder in its own loops and spells out
    its own fixed lines; both are proved against one description of the script. */
module Scripts {
  import opened Seqs
  import opened Rules
  import opened Netfilter
  import opened RuleLines
  import opened Ordering
  import opened Chains
  import opened Tables

  // ----- the scripts -----

  /** Whether an enabled outbound rule wants the host chains, or the docker one. */
  predicate WantsOut(rl: seq<Rule>, zone: Zone) {
    exists r | r in rl :: r.enabled && r.IsOutbound() && r.zone in {zone, AutoZone}
  }

  function Populate(k: Kind, lines: seq<Line>): Script {
    [Try(NewChain(k.IsV6(), Own(k))), Must(FlushChain(k.IsV6(), Own(k)))] + Appends(k.IsV6(), Own(k), lines)
  }

  /** The built-in chain that jumps to a ZFW chain. */
  function Parent(k: Kind): Chain {
    match k
    case In => Input
    case In6 => Input
    case Out => Output
    case Out6 => Output
    case FwdOut => Forward
    case DockerIn => Forward
  }

  function HookUp(k: Kind): Cmd {
    Must(EnsureHook(k.IsV6(), Parent(k), Own(k)))
  }

  function GeoSection(codes: seq<string>): Script {
    seq(|codes|, i requires 0 <= i < |codes| => Must(LoadSet(SetName(codes[i]))))
  }

  /** The compiled chains a script installs. */
  datatype Parts = Parts(
    zfwIn: seq<Line>, docker: seq<Line>, zfwIn6: seq<Line>, zfwOut: seq<Line>, zfwOut6: seq<Line>, fwdOut: seq<Line>,
    hostOut: bool, dockerOut: bool)
  {
    function Lines(k: Kind): seq<Line> {
      match k
      case In => zfwIn
      case DockerIn => docker
      case In6 => zfwIn6
      case Out => zfwOut
      case Out6 => zfwOut6
      case FwdOut => fwdOut
    }
  }

  /** Everything that decides a script. */
  datatype Job = Job(rs: RuleSet, published: set<int>, codes: seq<string>, extra: seq<string>) {
    function Rl(): seq<Rule> {
      StableSort(rs.rules)
    }

    function Lines(k: Kind): seq<Line> {
      Compiled(k, rs, published, extra)
    }

    function Compiled6(): Parts {
      Parts(Lines(In), Lines(DockerIn), Lines(In6), Lines(Out), Lines(Out6), Lines(FwdOut),
            WantsOut(Rl(), HostZone), WantsOut(Rl(), DockerZone))
    }
  }

  function HostSection(q: Parts): Script {
    Populate(In, q.zfwIn) + [HookUp(In)]
  }

  function DockerSection(q: Parts): Script {
    [IfChain(Own(DockerIn)), Must(FlushChain(false, Own(DockerIn)))]
    + Appends(false, Own(DockerIn), q.docker) + [EndIf]
  }

  function V6Section(q: Parts): Script {
    [IfIp6tables] + Populate(In6, q.zfwIn6) + [HookUp(In6), EndIf]
  }

  function HostOutSection(q: Parts): Script {
    Populate(Out, q.zfwOut) + [HookUp(Out)]
    + [IfIp6tables] + Populate(Out6, q.zfwOut6) + [HookUp(Out6), EndIf]
  }

  function DockerOutSection(q: Parts): Script {
    Populate(FwdOut, q.fwdOut) + [HookUp(FwdOut)]
  }

  function OutSection(q: Parts): Script {
    (if q.hostOut then HostOutSection(q) else []) + (if q.dockerOut then DockerOutSection(q) else [])
  }

  function BashOf(q: Parts, codes: seq<string>): Script {
    GeoSection(codes) + HostSection(q) + DockerSection(q) + V6Section(q) + OutSection(q)
  }

  /** compiled.sh. */
  function BashScript(j: Job): Script {
    BashOf(j.Compiled6(), j.codes)
  }

  function Tagged(k: Kind, lines: seq<Line>): seq<(Chain, Line)> {
    seq(|lines|, i requires 0 <= i < |lines| => (Own(k), lines[i]))
  }

  function V4Doc(q: Parts): Doc {
    Doc([Own(In), Own(DockerIn)] + (if q.hostOut then [Own(Out)] else []) + (if q.dockerOut then [Own(FwdOut)] else []),
        Tagged(In, q.zfwIn) + Tagged(DockerIn, q.docker)
        + (if q.hostOut then Tagged(Out, q.zfwOut) else [])
        + (if q.dockerOut then Tagged(FwdOut, q.fwdOut) else []))
  }

  function V6Doc(q: Parts): Doc {
    Doc([Own(In6)] + (if q.hostOut then [Own(Out6)] else []),
        Tagged(In6, q.zfwIn6) + (if q.hostOut then Tagged(Out6, q.zfwOut6) else []))
  }

  function RestoreHooks(q: Parts): Script {
    [HookUp(In), IfIp6tables, HookUp(In6), EndIf]
    + (if q.hostOut then [HookUp(Out), IfIp6tables, HookUp(Out6), EndIf] else [])
    + (if q.dockerOut then [HookUp(FwdOut)] else [])
  }

  function RestoreOf(q: Parts, codes: seq<string>): Script {
    GeoSection(codes)
    + [Must(Restore(false, V4Doc(q))), IfIp6restore, Must(Restore(true, V6Doc(q))), EndIf]
    + RestoreHooks(q)
  }

  /** compiled.restore.sh. */
  function RestoreScript(j: Job): Script {
    RestoreOf(j.Compiled6(), j.codes)
  }

  // ----- the bash back end -----

  class Builder {
    var cmds: Script

    constructor ()
      ensures cmds == []
    {
      cmds := [];
    }

    method Write(c: Cmd)
      modifies this
      ensures cmds == old(cmds) + [c]
    {
      cmds := cmds + [c];
    }

    method WriteLines(fam6: bool, chain: Chain, lines: seq<Line>)
      modifies this
      ensures cmds == old(cmds) + Appends(fam6, chain, lines)
    {
      for i := 0 to |lines|
        invariant cmds == old(cmds) + Appends(fam6, chain, lines[..i])
      {
        Write(Must(Append(fam6, chain, lines[i])));
        assert Appends(fam6, chain, lines[..i + 1])
            == Appends(fam6, chain, lines[..i]) + [Must(Append(fam6, chain, lines[i]))];
      }
      assert lines[..|lines|] == lines;
    }
  }

  /** Writing piece after piece is writing their concatenation. */
  lemma Glue<T>(a: seq<T>, head: seq<T>, x: seq<T>, y: seq<T>, z: seq<T>)
    ensures a + head + x + y + z == a + (head + (x + y + z))
  {
  }

  lemma AppendsConcat(fam6: bool, c: Chain, a: seq<Line>, b: seq<Line>)
    ensures Appends(fam6, c, a + b) == Appends(fam6, c, a) + Appends(fam6, c, b)
  {
  }

  lemma IfaceSnoc(names: seq<string>, i: nat, v: Verdict)
    requires i < |names|
    ensures IfaceLines(names[..i + 1], v) == IfaceLines(names[..i], v) + [IfaceLine(names[i], v)]
  {
  }

  method EmitGeoSets(b: Builder, codes: seq<string>)
    modifies b
    ensures b.cmds == old(b.cmds) + GeoSection(codes)
  {
    for i := 0 to |codes|
      invariant b.cmds == old(b.cmds) + GeoSection(codes[..i])
    {
      b.Write(Must(LoadSet(SetName(codes[i]))));
      assert GeoSection(codes[..i + 1]) == GeoSection(codes[..i]) + [Must(LoadSet(SetName(codes[i])))];
    }
    assert codes[..|codes|] == codes;
  }

  lemma AppendsOne(fam6: bool, c: Chain, l: Line)
    ensures Appends(fam6, c, [l]) == [Must(Append(fam6, c, l))]
  {
  }

  lemma AppendsTwo(fam6: bool, c: Chain, l: Line, m: Line)
    ensures Appends(fam6, c, [l, m]) == [Must(Append(fam6, c, l)), Must(Append(fam6, c, m))]
  {
  }

  /** The line emitter a chain uses for one enabled rule, with the gates the
      outbound loops put in front of it. */
  method LinesFor(k: Kind, r: Rule, published: set<int>) returns (lines: seq<Line>)
    ensures lines == LinesOf(k, r, published)
  {
    match k {
      case In => lines := HostLines(r, published);
      case DockerIn => lines := DockerLines(r, published);
      case In6 => lines := HostLines6(r, published);
      case Out | FwdOut =>
        if !r.IsOutbound() || r.zone !in {if k == Out then HostZone else DockerZone, AutoZone}
           || IsIPv6Source(r.source) {
          NotTargeted(k, r, published);
          return [];
        }
        lines := OutboundLines(r);
        OutGate(k, r, published);
      case Out6 =>
        if !r.IsOutbound() || r.zone !in {HostZone, AutoZone} {
          NotTargeted(k, r, published);
          return [];
        }
        lines := OutboundLines6(r);
        Out6Gate(r, published);
    }
  }

  lemma NotTargeted(k: Kind, r: Rule, published: set<int>)
    requires k.IsOut() && !OutTargeted(k, r)
    ensures LinesOf(k, r, published) == []
  {
  }

  lemma OutGate(k: Kind, r: Rule, published: set<int>)
    requires k in {Out, FwdOut} && OutTargeted(k, r)
    ensures WrapAll(Cross(Cross(DestFrags(r.source, false), [ScheduleArg(r.schedule)]), OutTails(r)), r,
                    if r.action == Deny then Drop else Accept) == LinesOf(k, r, published)
  {
  }

  /** The IPv6 emitter's own address test makes the IPv6-source gate redundant. */
  lemma Out6Gate(r: Rule, published: set<int>)
    requires r.IsOutbound() && r.zone in {HostZone, AutoZone}
    ensures WrapAll(Cross(Cross(DestFrags(r.source, true), [ScheduleArg(r.schedule)]), OutTails(r)), r,
                    if r.action == Deny then Drop else Accept) == LinesOf(Out6, r, published)
  {
  }

  /** The loop over the sorted rules that every emitter of this back end runs. */
  method WriteSection(b: Builder, k: Kind, rl: seq<Rule>, published: set<int>)
    modifies b
    ensures b.cmds == old(b.cmds) + Appends(k.IsV6(), Own(k), Section(k, rl, published))
  {
    ghost var body: seq<Line> := [];
    for i := 0 to |rl|
      invariant body == Section(k, rl[..i], published)
      invariant b.cmds == old(b.cmds) + Appends(k.IsV6(), Own(k), body)
    {
      SectionSnoc(k, rl, published, i);
      if !rl[i].enabled {
        assert body + [] == body;
        continue;
      }
      var lines := LinesFor(k, rl[i], published);
      b.WriteLines(k.IsV6(), Own(k), lines);
      AppendsConcat(k.IsV6(), Own(k), body, lines);
      Assoc3(old(b.cmds), Appends(k.IsV6(), Own(k), body), Appends(k.IsV6(), Own(k), lines));
      body := body + lines;
    }
    assert rl[..|rl|] == rl;
  }

  lemma ThreeParts(fam6: bool, c: Chain, x: seq<Line>, y: seq<Line>, z: seq<Line>)
    ensures Appends(fam6, c, x + y + z) == Appends(fam6, c, x) + Appends(fam6, c, y) + Appends(fam6, c, z)
  {
  }

  lemma LogNewPlain(prefix: string)
    ensures LogNew([], prefix) == Line([StateIn({New})], Log(prefix))
  {
    assert [] + [StateIn({New})] == [StateIn({New})];
  }

  /** Head, fixed lines, rules and default, written in turn, are the chain. */
  lemma Finish(cmds: Script, start: Script, head: Script, k: Kind, rs: RuleSet, rl: seq<Rule>,
               published: set<int>, extra: seq<string>)
    requires var f, c := k.IsV6(), Own(k);
             cmds == start + head + Appends(f, c, Prologue(k, rs, extra))
               + Appends(f, c, Section(k, rl, published)) + Appends(f, c, Epilogue(k, rs))
    ensures cmds == start + (head + Appends(k.IsV6(), Own(k), ChainLines(k, rs, rl, published, extra)))
  {
    var f, c := k.IsV6(), Own(k);
    ThreeParts(f, c, Prologue(k, rs, extra), Section(k, rl, published), Epilogue(k, rs));
    Glue(start, head, Appends(f, c, Prologue(k, rs, extra)), Appends(f, c, Section(k, rl, published)),
         Appends(f, c, Epilogue(k, rs)));
  }

  method EmitHostChain(b: Builder, rs: RuleSet, rl: seq<Rule>, published: set<int>, extra: seq<string>)
    modifies b
    ensures b.cmds == old(b.cmds) + Populate(In, ChainLines(In, rs, rl, published, extra)) + [HookUp(In)]
  {
    ghost var start, head := b.cmds, [Try(NewChain(false, Own(In))), Must(FlushChain(false, Own(In)))];
    b.Write(Try(NewChain(false, Own(In))));
    b.Write(Must(FlushChain(false, Own(In))));
    assert b.cmds == start + head;
    var hostBypass := [
      Line([StateIn({Established, Related})], Jump(Accept)),
      Line([StateIn({Invalid})], Jump(Drop)),
      Line([InIface("lo")], Jump(Accept)),
      Line([InIface("docker0")], Jump(Accept)),
      Line([InIface("br-+")], Jump(Accept)),
      Line([InIface("virbr0")], Jump(Accept)),
      Line([InIface("tailscale0")], Jump(Accept)),
      Line([InIface("zt+")], Jump(Accept)),
      Line([InIface("wg+")], Jump(Accept)),
      Line([ProtoIs(ICMP)], Jump(Accept)),
      Line([ProtoIs(UDP), Dport(68)], Jump(Accept)),
      Line([ProtoIs(UDP), Dport(41641)], Jump(Accept)),
      Line([ProtoIs(UDP), Dport(9993)], Jump(Accept))];
    ghost var fixed := hostBypass;
    for i := 0 to |extra|
      invariant b.cmds == start + head && hostBypass == fixed + IfaceLines(extra[..i], Accept)
    {
      hostBypass := hostBypass + [Line([InIface(extra[i])], Jump(Accept))];
      IfaceSnoc(extra, i, Accept);
    }
    assert extra[..|extra|] == extra;
    assert hostBypass == Prologue(In, rs, extra);
    b.WriteLines(false, Own(In), hostBypass);
    WriteSection(b, In, rl, published);
    ghost var mid := b.cmds;
    if rs.policy == AllowPolicy {
      b.Write(Must(Append(false, Own(In), Line([], Jump(Return)))));
      AppendsOne(false, Own(In), Line([], Jump(Return)));
    } else {
      b.Write(Must(Append(false, Own(In), Line([StateIn({New})], Log("ZFW-IN-DROP ")))));
      b.Write(Must(Append(false, Own(In), Line([], Jump(Drop)))));
      AppendsTwo(false, Own(In), Line([StateIn({New})], Log("ZFW-IN-DROP ")), Line([], Jump(Drop)));
      LogNewPlain("ZFW-IN-DROP ");
    }
    assert b.cmds == mid + Appends(false, Own(In), Epilogue(In, rs));
    Finish(b.cmds, start, head, In, rs, rl, published, extra);
    b.Write(Must(EnsureHook(false, Input, Own(In))));
  }

  method EmitDockerChain(b: Builder, rs: RuleSet, rl: seq<Rule>, published: set<int>, extra: seq<string>)
    modifies b
    ensures b.cmds == old(b.cmds) + ([IfChain(Own(DockerIn)), Must(FlushChain(false, Own(DockerIn)))]
      + Appends(false, Own(DockerIn), ChainLines(DockerIn, rs, rl, published, extra))) + [EndIf]
  {
    var c := Own(DockerIn);
    ghost var start, head := b.cmds, [IfChain(c), Must(FlushChain(false, c))];
    b.Write(IfChain(c));
    b.Write(Must(FlushChain(false, c)));
    assert b.cmds == start + head;
    var fixed := [Line([StateIn({Established, Related})], Jump(Return)), Line([SrcNet("127.0.0.0/8")], Jump(Return))];
    if rs.hostIP != "" {
      fixed := fixed + [Line([SrcNet(rs.hostIP)], Jump(Return))];
    }
    fixed := fixed + [Line([InIface("tailscale0")], Jump(Return)), Line([InIface("zt+")], Jump(Return)),
                      Line([InIface("wg+")], Jump(Return))];
    ghost var base := fixed;
    for i := 0 to |extra|
      invariant b.cmds == start + head && fixed == base + IfaceLines(extra[..i], Return)
    {
      fixed := fixed + [Line([InIface(extra[i])], Jump(Return))];
      IfaceSnoc(extra, i, Return);
    }
    assert extra[..|extra|] == extra;
    assert fixed == Prologue(DockerIn, rs, extra);
    b.WriteLines(false, c, fixed);
    WriteSection(b, DockerIn, rl, published);
    WriteDockerDefault(b, rs);
    Finish(b.cmds, start, head, DockerIn, rs, rl, published, extra);
    b.Write(EndIf);
  }

  /** Under a deny policy the LAN is logged and dropped; the rest returns. */
  method WriteDockerDefault(b: Builder, rs: RuleSet)
    modifies b
    ensures b.cmds == old(b.cmds) + Appends(false, Own(DockerIn), Epilogue(DockerIn, rs))
  {
    var c := Own(DockerIn);
    ghost var mid := b.cmds;
    ghost var drops: seq<Line> := [];
    if rs.policy == DenyPolicy && rs.lan != "" {
      b.Write(Must(Append(false, c, Line([SrcNet(rs.lan), StateIn({New})], Log("ZFW-DOCK-DROP ")))));
      b.Write(Must(Append(false, c, Line([SrcNet(rs.lan)], Jump(Drop)))));
      AppendsTwo(false, c, Line([SrcNet(rs.lan), StateIn({New})], Log("ZFW-DOCK-DROP ")),
                 Line([SrcNet(rs.lan)], Jump(Drop)));
      assert LogNew([SrcNet(rs.lan)], "ZFW-DOCK-DROP ")
          == Line([SrcNet(rs.lan), StateIn({New})], Log("ZFW-DOCK-DROP "));
      drops := [LogNew([SrcNet(rs.lan)], "ZFW-DOCK-DROP "), Line([SrcNet(rs.lan)], Jump(Drop))];
    }
    assert b.cmds == mid + Appends(false, c, drops);
    b.Write(Must(Append(false, c, Line([], Jump(Return)))));
    AppendsOne(false, c, Line([], Jump(Return)));
    AppendsConcat(false, c, drops, [Line([], Jump(Return))]);
  }

  method EmitV6Chain(b: Builder, rs: RuleSet, rl: seq<Rule>, published: set<int>, extra: seq<string>)
    modifies b
    ensures b.cmds == old(b.cmds) + ([IfIp6tables, Try(NewChain(true, Own(In6))), Must(FlushChain(true, Own(In6)))]
      + Appends(true, Own(In6), ChainLines(In6, rs, rl, published, extra))) + [HookUp(In6), EndIf]
  {
    var c := Own(In6);
    ghost var start, head := b.cmds, [IfIp6tables, Try(NewChain(true, c)), Must(FlushChain(true, c))];
    b.Write(IfIp6tables);
    b.Write(Try(NewChain(true, c)));
    b.Write(Must(FlushChain(true, c)));
    assert b.cmds == start + head;
    var fixed := V6Bypass(rs, extra);
    b.WriteLines(true, c, fixed);
    WriteSection(b, In6, rl, published);
    WriteV6Default(b, rs);
    Finish(b.cmds, start, head, In6, rs, rl, published, extra);
    b.Write(Must(EnsureHook(true, Input, c)));
    b.Write(EndIf);
  }

  /** The fixed lines of ZFW-IN6, the extra interfaces before what IPv6 needs. */
  method V6Bypass(ghost rs: RuleSet, extra: seq<string>) returns (fixed: seq<Line>)
    ensures fixed == Prologue(In6, rs, extra)
  {
    fixed := [
      Line([StateIn({Established, Related})], Jump(Return)),
      Line([StateIn({Invalid})], Jump(Drop)),
      Line([InIface("lo")], Jump(Return)),
      Line([InIface("docker0")], Jump(Return)),
      Line([InIface("br-+")], Jump(Return)),
      Line([InIface("virbr0")], Jump(Return)),
      Line([InIface("tailscale0")], Jump(Return)),
      Line([InIface("zt+")], Jump(Return)),
      Line([InIface("wg+")], Jump(Return))];
    ghost var base := fixed;
    for i := 0 to |extra|
      invariant fixed == base + IfaceLines(extra[..i], Return)
    {
      fixed := fixed + [Line([InIface(extra[i])], Jump(Return))];
      IfaceSnoc(extra, i, Return);
    }
    assert extra[..|extra|] == extra;
    fixed := fixed + [
      Line([ProtoIs(ICMPv6)], Jump(Return)),
      Line([ProtoIs(UDP), Dport(546)], Jump(Return)),
      Line([SrcNet("fe80::/10")], Jump(Return)),
      Line([SrcNet("ff00::/8")], Jump(Return))];
  }

  /** The V6Drop ports, then the default. */
  method WriteV6Default(b: Builder, rs: RuleSet)
    modifies b
    ensures b.cmds == old(b.cmds) + Appends(true, Own(In6), Epilogue(In6, rs))
  {
    var c := Own(In6);
    WriteV6Drops(b, rs.v6Drop);
    if rs.policy == AllowPolicy {
      b.Write(Must(Append(true, c, Line([], Jump(Return)))));
      AppendsOne(true, c, Line([], Jump(Return)));
      AppendsConcat(true, c, V6DropLines(rs.v6Drop), [Line([], Jump(Return))]);
    } else {
      b.Write(Must(Append(true, c, Line([StateIn({New})], Log("ZFW-IN6-DROP ")))));
      b.Write(Must(Append(true, c, Line([], Jump(Drop)))));
      AppendsTwo(true, c, Line([StateIn({New})], Log("ZFW-IN6-DROP ")), Line([], Jump(Drop)));
      LogNewPlain("ZFW-IN6-DROP ");
      AppendsConcat(true, c, V6DropLines(rs.v6Drop), [LogNew([], "ZFW-IN6-DROP "), Line([], Jump(Drop))]);
    }
  }

  method WriteV6Drops(b: Builder, ports: seq<int>)
    modifies b
    ensures b.cmds == old(b.cmds) + Appends(true, Own(In6), V6DropLines(ports))
  {
    for i := 0 to |ports|
      invariant b.cmds == old(b.cmds) + Appends(true, Own(In6), V6DropLines(ports[..i]))
    {
      var line := Line([ProtoIs(TCP), Dport(ports[i])], Jump(Drop));
      b.Write(Must(Append(true, Own(In6), line)));
      assert V6DropLines(ports[..i + 1]) == V6DropLines(ports[..i]) + [line];
      AppendsConcat(true, Own(In6), V6DropLines(ports[..i]), [line]);
      AppendsOne(true, Own(In6), line);
    }
    assert ports[..|ports|] == ports;
  }

  /** One outbound chain: create, flush, fixed lines, rules, RETURN, hook. */
  method EmitOutChain(b: Builder, k: Kind, fixed: seq<Line>, rs: RuleSet, rl: seq<Rule>, published: set<int>)
    requires k.IsOut() && fixed == Prologue(k, rs, [])
    modifies b
    ensures b.cmds == old(b.cmds) + Populate(k, ChainLines(k, rs, rl, published, [])) + [HookUp(k)]
  {
    ghost var start, head := b.cmds, [Try(NewChain(k.IsV6(), Own(k))), Must(FlushChain(k.IsV6(), Own(k)))];
    b.Write(Try(NewChain(k.IsV6(), Own(k))));
    b.Write(Must(FlushChain(k.IsV6(), Own(k))));
    assert b.cmds == start + head;
    b.WriteLines(k.IsV6(), Own(k), fixed);
    WriteSection(b, k, rl, published);
    b.Write(Must(Append(k.IsV6(), Own(k), Line([], Jump(Return)))));
    AppendsOne(k.IsV6(), Own(k), Line([], Jump(Return)));
    Finish(b.cmds, start, head, k, rs, rl, published, []);
    b.Write(HookUp(k));
  }

  method OutboundZones(rl: seq<Rule>) returns (host: bool, docker: bool)
    ensures host == WantsOut(rl, HostZone) && docker == WantsOut(rl, DockerZone)
  {
    host, docker := false, false;
    for i := 0 to |rl|
      invariant host == WantsOut(rl[..i], HostZone) && docker == WantsOut(rl[..i], DockerZone)
    {
      assert rl[..i + 1] == rl[..i] + [rl[i]];
      if !rl[i].enabled || !rl[i].IsOutbound() {
        continue;
      }
      if rl[i].zone == HostZone || rl[i].zone == AutoZone {
        host := true;
      }
      if rl[i].zone == DockerZone || rl[i].zone == AutoZone {
        docker := true;
      }
    }
    assert rl[..|rl|] == rl;
  }

  /** The extra bypass interfaces play no part outbound. */
  lemma OutLinesIgnoreExtra(k: Kind, j: Job)
    requires k.IsOut()
    ensures ChainLines(k, j.rs, j.Rl(), j.published, []) == j.Lines(k)
  {
  }

  method EmitOutboundChains(b: Builder, rl: seq<Rule>, j: Job)
    requires rl == j.Rl()
    modifies b
    ensures b.cmds == old(b.cmds) + OutSection(j.Compiled6())
  {
    ghost var start := b.cmds;
    var hasHostOut, hasDockerOut := OutboundZones(rl);
    if hasHostOut {
      EmitHostOut(b, rl, j);
    }
    ghost var host := if hasHostOut then HostOutSection(j.Compiled6()) else [];
    assert b.cmds == start + host;
    if hasDockerOut {
      OutLinesIgnoreExtra(FwdOut, j);
      EmitOutChain(b, FwdOut, [Line([StateIn({Established, Related})], Jump(Return))], j.rs, rl, j.published);
      Assoc3(start + host, Populate(FwdOut, j.Lines(FwdOut)), [HookUp(FwdOut)]);
    }
    ghost var docker := if hasDockerOut then DockerOutSection(j.Compiled6()) else [];
    assert b.cmds == start + host + docker;
    Assoc3(start, host, docker);
  }

  method EmitHostOut(b: Builder, rl: seq<Rule>, j: Job)
    requires rl == j.Rl()
    modifies b
    ensures b.cmds == old(b.cmds) + HostOutSection(j.Compiled6())
  {
    ghost var start := b.cmds;
    OutLinesIgnoreExtra(Out, j);
    OutLinesIgnoreExtra(Out6, j);
    EmitOutChain(b, Out,
      [Line([StateIn({Established, Related})], Jump(Accept)), Line([OutIface("lo")], Jump(Accept))],
      j.rs, rl, j.published);
    ghost var p1 := Populate(Out, j.Lines(Out)) + [HookUp(Out)];
    Assoc3(start, Populate(Out, j.Lines(Out)), [HookUp(Out)]);
    b.Write(IfIp6tables);
    EmitOutChain(b, Out6,
      [Line([StateIn({Established, Related})], Jump(Return)), Line([OutIface("lo")], Jump(Return))],
      j.rs, rl, j.published);
    ghost var p2 := Populate(Out6, j.Lines(Out6));
    b.Write(EndIf);
    HostOutGlue(start, p1, [IfIp6tables], p2, HookUp(Out6));
  }

  lemma HostOutGlue(start: Script, p1: Script, p2: Script, p3: Script, hook: Cmd)
    ensures start + p1 + p2 + p3 + [hook] + [EndIf] == start + (p1 + p2 + p3 + [hook, EndIf])
  {
  }

  /** The bash back end emits exactly the described script. */
  method Compile(j: Job) returns (script: Script)
    ensures script == BashScript(j)
  {
    var b := new Builder();
    EmitGeoSets(b, j.codes);
    assert b.cmds == GeoSection(j.codes);
    var rl := StableSort(j.rs.rules);
    ghost var s1 := b.cmds;
    EmitHostChain(b, j.rs, rl, j.published, j.extra);
    Assoc3(s1, Populate(In, j.Lines(In)), [HookUp(In)]);
    ghost var s2 := b.cmds;
    EmitDockerChain(b, j.rs, rl, j.published, j.extra);
    Assoc3(s2, [IfChain(Own(DockerIn)), Must(FlushChain(false, Own(DockerIn)))]
      + Appends(false, Own(DockerIn), j.Lines(DockerIn)), [EndIf]);
    ghost var s3 := b.cmds;
    EmitV6Chain(b, j.rs, rl, j.published, j.extra);
    V6Glue(s3, j.Lines(In6));
    EmitOutboundChains(b, rl, j);
    script := b.cmds;
  }

  lemma V6Glue(start: Script, lines: seq<Line>)
    ensures start + ([IfIp6tables, Try(NewChain(true, Own(In6))), Must(FlushChain(true, Own(In6)))]
                     + Appends(true, Own(In6), lines)) + [HookUp(In6), EndIf]
         == start + ([IfIp6tables] + Populate(In6, lines) + [HookUp(In6), EndIf])
  {
    var a := Appends(true, Own(In6), lines);
    assert [IfIp6tables] + Populate(In6, lines)
        == [IfIp6tables, Try(NewChain(true, Own(In6))), Must(FlushChain(true, Own(In6)))] + a;
  }
}
