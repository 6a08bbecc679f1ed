/** The restore back end: its own rule builders, with the fixed lines written out
    a second time, and the script around the two documents. */
module RestoreBackEnd {
  import opened Rules
  import opened Netfilter
  import opened RuleLines
  import opened Ordering
  import opened Chains
  import opened Tables
  import opened Scripts

  /** The loop over the sorted rules that the six builders run. */
  method SectionRules(k: Kind, rl: seq<Rule>, published: set<int>) returns (out: seq<Line>)
    ensures out == Section(k, rl, published)
  {
    out := [];
    for i := 0 to |rl|
      invariant out == Section(k, rl[..i], published)
    {
      SectionSnoc(k, rl, published, i);
      if !rl[i].enabled {
        assert out + [] == out;
        continue;
      }
      var lines := LinesFor(k, rl[i], published);
      out := out + lines;
    }
    assert rl[..|rl|] == rl;
  }

  method AppendIfaces(out: seq<Line>, extra: seq<string>, v: Verdict) returns (more: seq<Line>)
    ensures more == out + IfaceLines(extra, v)
  {
    more := out;
    for i := 0 to |extra|
      invariant more == out + IfaceLines(extra[..i], v)
    {
      more := more + [Line([InIface(extra[i])], Jump(v))];
      IfaceSnoc(extra, i, v);
    }
    assert extra[..|extra|] == extra;
  }

  method ZfwInRules(rs: RuleSet, rl: seq<Rule>, published: set<int>, extra: seq<string>) returns (out: seq<Line>)
    ensures out == ChainLines(In, rs, rl, published, extra)
  {
    out := [
      Line([StateIn({Established, Related})], Jump(Accept)),
      Line([StateIn({Invalid})], Jump(Drop)),
      Line([InIface("lo")], Jump(Accept)),
      Line([InIface("docker0")], Jump(Accept)),
      Line([InIface("br-+")], Jump(Accept)),
      Line([InIface("virbr0")], Jump(Accept)),
      Line([InIface("tailscale0")], Jump(Accept)),
      Line([InIface("zt+")], Jump(Accept)),
      Line([InIface("wg+")], Jump(Accept)),
      Line([ProtoIs(ICMP)], Jump(Accept)),
      Line([ProtoIs(UDP), Dport(68)], Jump(Accept)),
      Line([ProtoIs(UDP), Dport(41641)], Jump(Accept)),
      Line([ProtoIs(UDP), Dport(9993)], Jump(Accept))];
    out := AppendIfaces(out, extra, Accept);
    assert out == Prologue(In, rs, extra);
    var lines := SectionRules(In, rl, published);
    out := out + lines;
    if rs.policy == AllowPolicy {
      out := out + [Line([], Jump(Return))];
    } else {
      LogNewPlain("ZFW-IN-DROP ");
      out := out + [Line([StateIn({New})], Log("ZFW-IN-DROP ")), Line([], Jump(Drop))];
    }
  }

  method DockerUserRules(rs: RuleSet, rl: seq<Rule>, published: set<int>, extra: seq<string>) returns (out: seq<Line>)
    ensures out == ChainLines(DockerIn, rs, rl, published, extra)
  {
    out := [Line([StateIn({Established, Related})], Jump(Return)), Line([SrcNet("127.0.0.0/8")], Jump(Return))];
    if rs.hostIP != "" {
      out := out + [Line([SrcNet(rs.hostIP)], Jump(Return))];
    }
    out := out + [Line([InIface("tailscale0")], Jump(Return)), Line([InIface("zt+")], Jump(Return)),
                  Line([InIface("wg+")], Jump(Return))];
    out := AppendIfaces(out, extra, Return);
    assert out == Prologue(DockerIn, rs, extra);
    var lines := SectionRules(DockerIn, rl, published);
    out := out + lines;
    ghost var body, tail := out, Epilogue(DockerIn, rs);
    if rs.policy == DenyPolicy && rs.lan != "" {
      out := out + [Line([SrcNet(rs.lan), StateIn({New})], Log("ZFW-DOCK-DROP ")), Line([SrcNet(rs.lan)], Jump(Drop))];
      assert LogNew([SrcNet(rs.lan)], "ZFW-DOCK-DROP ").conds == [SrcNet(rs.lan), StateIn({New})];
    }
    out := out + [Line([], Jump(Return))];
    assert out == body + tail;
  }

  method ZfwIn6Rules(rs: RuleSet, rl: seq<Rule>, published: set<int>, extra: seq<string>) returns (out: seq<Line>)
    ensures out == ChainLines(In6, rs, rl, published, extra)
  {
    out := [
      Line([StateIn({Established, Related})], Jump(Return)),
      Line([StateIn({Invalid})], Jump(Drop)),
      Line([InIface("lo")], Jump(Return)),
      Line([InIface("docker0")], Jump(Return)),
      Line([InIface("br-+")], Jump(Return)),
      Line([InIface("virbr0")], Jump(Return)),
      Line([InIface("tailscale0")], Jump(Return)),
      Line([InIface("zt+")], Jump(Return)),
      Line([InIface("wg+")], Jump(Return))];
    out := AppendIfaces(out, extra, Return);
    out := out + [
      Line([ProtoIs(ICMPv6)], Jump(Return)),
      Line([ProtoIs(UDP), Dport(546)], Jump(Return)),
      Line([SrcNet("fe80::/10")], Jump(Return)),
      Line([SrcNet("ff00::/8")], Jump(Return))];
    assert out == Prologue(In6, rs, extra);
    var lines := SectionRules(In6, rl, published);
    out := out + lines;
    ghost var body := out;
    for i := 0 to |rs.v6Drop|
      invariant out == body + V6DropLines(rs.v6Drop[..i])
    {
      out := out + [Line([ProtoIs(TCP), Dport(rs.v6Drop[i])], Jump(Drop))];
      assert V6DropLines(rs.v6Drop[..i + 1])
          == V6DropLines(rs.v6Drop[..i]) + [Line([ProtoIs(TCP), Dport(rs.v6Drop[i])], Jump(Drop))];
    }
    assert rs.v6Drop[..|rs.v6Drop|] == rs.v6Drop;
    if rs.policy == AllowPolicy {
      out := out + [Line([], Jump(Return))];
    } else {
      LogNewPlain("ZFW-IN6-DROP ");
      out := out + [Line([StateIn({New})], Log("ZFW-IN6-DROP ")), Line([], Jump(Drop))];
    }
    assert out == body + Epilogue(In6, rs);
  }

  method ZfwOutRules(k: Kind, rs: RuleSet, rl: seq<Rule>, published: set<int>, extra: seq<string>)
    returns (out: seq<Line>)
    requires k.IsOut()
    ensures out == ChainLines(k, rs, rl, published, extra)
  {
    match k {
      case Out => out := [Line([StateIn({Established, Related})], Jump(Accept)), Line([OutIface("lo")], Jump(Accept))];
      case Out6 => out := [Line([StateIn({Established, Related})], Jump(Return)), Line([OutIface("lo")], Jump(Return))];
      case _ => out := [Line([StateIn({Established, Related})], Jump(Return))];
    }
    var lines := SectionRules(k, rl, published);
    out := out + lines + [Line([], Jump(Return))];
  }

  method WriteChain(doc: Doc, k: Kind, lines: seq<Line>) returns (more: Doc)
    ensures more == Doc(doc.chains, doc.appends + Tagged(k, lines))
  {
    var appends := doc.appends;
    for i := 0 to |lines|
      invariant appends == doc.appends + Tagged(k, lines[..i])
    {
      appends := appends + [(Own(k), lines[i])];
      assert Tagged(k, lines[..i + 1]) == Tagged(k, lines[..i]) + [(Own(k), lines[i])];
    }
    assert lines[..|lines|] == lines;
    more := Doc(doc.chains, appends);
  }

  method RestoreV4(j: Job, rl: seq<Rule>) returns (doc: Doc)
    requires rl == j.Rl()
    ensures doc == V4Doc(j.Compiled6())
  {
    var hasHostOut, hasDockerOut := OutboundZones(rl);
    var chains := [Own(In), Own(DockerIn)];
    if hasHostOut {
      chains := chains + [Own(Out)];
    }
    if hasDockerOut {
      chains := chains + [Own(FwdOut)];
    }
    doc := Doc(chains, []);
    ghost var p1, p2 := Tagged(In, j.Lines(In)), Tagged(DockerIn, j.Lines(DockerIn));
    var lines := ZfwInRules(j.rs, rl, j.published, j.extra);
    doc := WriteChain(doc, In, lines);
    assert doc == Doc(chains, p1);
    lines := DockerUserRules(j.rs, rl, j.published, j.extra);
    doc := WriteChain(doc, DockerIn, lines);
    assert doc == Doc(chains, p1 + p2);
    ghost var p3 := if hasHostOut then Tagged(Out, j.Lines(Out)) else [];
    if hasHostOut {
      lines := ZfwOutRules(Out, j.rs, rl, j.published, j.extra);
      doc := WriteChain(doc, Out, lines);
    }
    assert doc.appends == p1 + p2 + p3;
    if hasDockerOut {
      lines := ZfwOutRules(FwdOut, j.rs, rl, j.published, j.extra);
      doc := WriteChain(doc, FwdOut, lines);
    }
    assert doc.appends == p1 + p2 + p3 + if hasDockerOut then Tagged(FwdOut, j.Lines(FwdOut)) else [];
    assert doc.chains == V4Doc(j.Compiled6()).chains;
  }

  method RestoreV6(j: Job, rl: seq<Rule>) returns (doc: Doc)
    requires rl == j.Rl()
    ensures doc == V6Doc(j.Compiled6())
  {
    var hasHostOut, _ := OutboundZones(rl);
    doc := Doc([Own(In6)] + if hasHostOut then [Own(Out6)] else [], []);
    ghost var p1 := Tagged(In6, j.Lines(In6));
    var lines := ZfwIn6Rules(j.rs, rl, j.published, j.extra);
    doc := WriteChain(doc, In6, lines);
    assert doc.appends == p1;
    if hasHostOut {
      lines := ZfwOutRules(Out6, j.rs, rl, j.published, j.extra);
      doc := WriteChain(doc, Out6, lines);
    }
    assert doc.appends == p1 + if hasHostOut then Tagged(Out6, j.Lines(Out6)) else [];
  }

  /** The restore back end emits exactly the described script. */
  /** The country sets, then the two documents, IPv6 behind its tool. */
  method WriteDocs(b: Builder, codes: seq<string>, v4: Doc, v6: Doc)
    requires b.cmds == []
    modifies b
    ensures b.cmds == GeoSection(codes) + [Must(Restore(false, v4)), IfIp6restore, Must(Restore(true, v6)), EndIf]
  {
    EmitGeoSets(b, codes);
    assert [] + GeoSection(codes) == GeoSection(codes);
    b.Write(Must(Restore(false, v4)));
    b.Write(IfIp6restore);
    b.Write(Must(Restore(true, v6)));
    b.Write(EndIf);
    FourCommands(GeoSection(codes), Must(Restore(false, v4)), IfIp6restore, Must(Restore(true, v6)), EndIf);
  }

  lemma FourCommands(l: Script, a: Cmd, b: Cmd, c: Cmd, d: Cmd)
    ensures l + [a] + [b] + [c] + [d] == l + [a, b, c, d]
  {
  }

  method CompileRestoreScript(j: Job) returns (script: Script)
    ensures script == RestoreScript(j)
  {
    var rl := StableSort(j.rs.rules);
    var v4 := RestoreV4(j, rl);
    var v6 := RestoreV6(j, rl);
    var hasHostOut, hasDockerOut := OutboundZones(rl);
    var b := new Builder();
    WriteDocs(b, j.codes, v4, v6);
    EmitHooks(b, hasHostOut, hasDockerOut, j.Compiled6());
    script := b.cmds;
  }

  method EmitHooks(b: Builder, hasHostOut: bool, hasDockerOut: bool, ghost q: Parts)
    requires hasHostOut == q.hostOut && hasDockerOut == q.dockerOut
    modifies b
    ensures b.cmds == old(b.cmds) + RestoreHooks(q)
  {
    b.Write(Must(EnsureHook(false, Input, Own(In))));
    b.Write(IfIp6tables);
    b.Write(Must(EnsureHook(true, Input, Own(In6))));
    b.Write(EndIf);
    if hasHostOut {
      b.Write(Must(EnsureHook(false, Output, Own(Out))));
      b.Write(IfIp6tables);
      b.Write(Must(EnsureHook(true, Output, Own(Out6))));
      b.Write(EndIf);
    }
    if hasDockerOut {
      b.Write(Must(EnsureHook(false, Forward, Own(FwdOut))));
    }
  }
}
