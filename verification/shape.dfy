/** Every compiled line is one iptables accepts by shape, on the right address
    family and with its country sets loaded, even after container ports of any
    number were substituted behind the validator's back. */
module Shape {
  import opened Text
  import opened Rules
  import opened Netfilter
  import opened RuleLines
  import opened Clauses
  import opened Ordering
  import opened Chains
  import opened Meaning

  // ----- container ports, as recompilation substitutes them -----

  datatype Container = Container(id: string, name: string, ports: seq<int>)

  /** The entry a map filled in list order holds for the key: the last one wins. */
  function LastByID(cs: seq<Container>, key: string): Option<seq<int>> {
    if cs == [] then None
    else if cs[|cs| - 1].id != "" && cs[|cs| - 1].id == key then Some(cs[|cs| - 1].ports)
    else LastByID(cs[..|cs| - 1], key)
  }

  function LastByName(cs: seq<Container>, key: string): Option<seq<int>> {
    if cs == [] then None
    else if cs[|cs| - 1].name != "" && cs[|cs| - 1].name == key then Some(cs[|cs| - 1].ports)
    else LastByName(cs[..|cs| - 1], key)
  }

  /** The rule with its bound container's current ports, when there are any. */
  function BoundRule(r: Rule, cs: seq<Container>): Rule {
    var byID, byName := LastByID(cs, r.containerId), LastByName(cs, r.containerId);
    var found := if byID.Some? then byID else byName;
    if r.containerId == "" || found.None? || found.value == [] then r
    else r.(ports := Ports(ListPorts, found.value, 0, 0))
  }

  method BindContainerPorts(rules: array<Rule>, containers: seq<Container>)
    modifies rules
    ensures forall i | 0 <= i < rules.Length :: rules[i] == BoundRule(old(rules[i]), containers)
  {
    if |containers| == 0 {
      return;
    }
    var byID: map<string, seq<int>> := map[];
    var byName: map<string, seq<int>> := map[];
    for i := 0 to |containers|
      invariant forall key :: LastByID(containers[..i], key) == if key in byID then Some(byID[key]) else None
      invariant forall key :: LastByName(containers[..i], key) == if key in byName then Some(byName[key]) else None
    {
      var c := containers[i];
      assert containers[..i + 1][..i] == containers[..i];
      if c.id != "" {
        byID := byID[c.id := c.ports];
      }
      if c.name != "" {
        byName := byName[c.name := c.ports];
      }
    }
    assert containers[..|containers|] == containers;
    for i := 0 to rules.Length
      invariant forall j | 0 <= j < i :: rules[j] == BoundRule(old(rules[j]), containers)
      invariant forall j | i <= j < rules.Length :: rules[j] == old(rules[j])
    {
      var cid := rules[i].containerId;
      if cid != "" {
        var ports, ok := [], false;
        if cid in byID {
          ports, ok := byID[cid], true;
        } else if cid in byName {
          ports, ok := byName[cid], true;
        }
        assert ok == (LastByID(containers, cid).Some? || LastByName(containers, cid).Some?);
        if ok && |ports| != 0 {
          rules[i] := rules[i].(ports := Ports(ListPorts, ports, 0, 0));
        }
      }
    }
  }

  /** The last entry that satisfies the key decides: none behind it does. */
  lemma {:induction false} LastByExact(cs: seq<Container>, key: string)
    ensures LastByID(cs, key).None? <==> forall c | c in cs :: c.id == "" || c.id != key
    ensures forall i | 0 <= i < |cs| && cs[i].id == key && key != "" && (forall j | i < j < |cs| :: cs[j].id != key) ::
      LastByID(cs, key) == Some(cs[i].ports)
    ensures LastByName(cs, key).None? <==> forall c | c in cs :: c.name == "" || c.name != key
    ensures forall i | 0 <= i < |cs| && cs[i].name == key && key != ""
                       && (forall j | i < j < |cs| :: cs[j].name != key) ::
      LastByName(cs, key) == Some(cs[i].ports)
  {
    if cs != [] {
      var n := |cs| - 1;
      LastByExact(cs[..n], key);
      assert forall c :: c in cs <==> c in cs[..n] || c == cs[n];
      forall i | 0 <= i < n ensures cs[..n][i] == cs[i] {
      }
    }
  }

  /** A bound rule takes the ports of the last container with the id it names, else of
      the last with the name; without one, or when that has no ports, it keeps its
      own. Nothing but the ports ever changes. */
  lemma BindingExact(r: Rule, cs: seq<Container>, i: nat)
    ensures BoundRule(r, cs).(ports := r.ports) == r
    ensures i < |cs| && cs[i].id == r.containerId != "" && (forall j | i < j < |cs| :: cs[j].id != r.containerId) ==>
      BoundRule(r, cs).ports == if cs[i].ports == [] then r.ports else Ports(ListPorts, cs[i].ports, 0, 0)
    ensures i < |cs| && cs[i].name == r.containerId != "" && (forall j | i < j < |cs| :: cs[j].name != r.containerId)
            && (forall c | c in cs :: c.id != r.containerId)
        ==> BoundRule(r, cs).ports == if cs[i].ports == [] then r.ports else Ports(ListPorts, cs[i].ports, 0, 0)
    ensures r.containerId == "" || (forall c | c in cs :: c.id != r.containerId && c.name != r.containerId) ==>
      BoundRule(r, cs) == r
  {
    LastByExact(cs, r.containerId);
  }

  /** The country codes whose sets the script loads before any chain. */
  function GeoCodes(rules: seq<Rule>): set<string> {
    set r, c | r in rules && r.source.kind == CountrySource && c in SplitCountries(r.source.value) :: Lower(c)
  }

  function Lowered(codes: seq<string>): set<string> {
    set c | c in codes :: Lower(c)
  }

  lemma LoweredStep(codes: seq<string>, j: nat)
    requires j < |codes|
    ensures Lowered(codes[..j + 1]) == Lowered(codes[..j]) + {Lower(codes[j])}
  {
    assert codes[..j + 1] == codes[..j] + [codes[j]];
  }

  lemma GeoCodesStep(rules: seq<Rule>, i: nat)
    requires i < |rules|
    ensures GeoCodes(rules[..i + 1]) == GeoCodes(rules[..i])
      + if rules[i].source.kind == CountrySource then Lowered(SplitCountries(rules[i].source.value)) else {}
  {
    var r := rules[i];
    var more := if r.source.kind == CountrySource then Lowered(SplitCountries(r.source.value)) else {};
    assert rules[..i + 1] == rules[..i] + [r];
    assert forall x :: x in rules[..i + 1] <==> x in rules[..i] || x == r;
    forall g ensures g in GeoCodes(rules[..i + 1]) <==> g in GeoCodes(rules[..i]) || g in more {
    }
  }

  method CollectGeoCodes(rules: seq<Rule>) returns (geo: set<string>)
    ensures geo == GeoCodes(rules)
  {
    geo := {};
    for i := 0 to |rules|
      invariant geo == GeoCodes(rules[..i])
    {
      GeoCodesStep(rules, i);
      if rules[i].source.kind == CountrySource {
        var codes := SplitCountries(rules[i].source.value);
        for j := 0 to |codes|
          invariant geo == GeoCodes(rules[..i]) + Lowered(codes[..j])
        {
          LoweredStep(codes, j);
          geo := geo + {Lower(codes[j])};
        }
        assert codes[..|codes|] == codes;
      }
    }
    assert rules[..|rules|] == rules;
  }

  // ----- what iptables accepts -----

  /** One clause, on a chain of one family, with these country sets loaded. */
  predicate MatchOk(v6: bool, loaded: set<string>, m: Match) {
    match m
    case SrcNet(net) => (':' in net) == v6
    case DstNet(net) => (':' in net) == v6
    case SrcSet(name) => !v6 && name in loaded
    case DstSet(name) => !v6 && name in loaded
    case BadProto => false
    case Dport(port) => IsPort(port)
    case DportRange(low, high) => IsPort(low) && IsPort(high) && low <= high
    case Multiport(ports) => 2 <= |ports| <= 15 && forall p | p in ports :: IsPort(p)
    case OrigDport(port) => IsPort(port)
    case OrigDportRange(low, high) => IsPort(low) && IsPort(high) && low <= high
    case _ => true
  }

  function Shaped(v6: bool, loaded: set<string>): Match -> bool {
    m => MatchOk(v6, loaded, m)
  }

  predicate ActOk(a: Act) {
    match a
    case RecentSet(name) => 0 < |name| <= 17
    case RecentUpdate(name, seconds, hitcount) => 0 < |name| <= 17 && seconds >= 1 && hitcount >= 1
    case _ => true
  }

  predicate IsPortClause(m: Match) {
    m.Dport? || m.DportRange? || m.Multiport? || m.OrigDport? || m.OrigDportRange?
  }

  predicate NamesPorts(m: Match) {
    m == ProtoIs(TCP) || m == ProtoIs(UDP)
  }

  /** Every port clause stands behind `-p tcp` or `-p udp`. */
  predicate PortsLed(conds: seq<Match>) {
    forall i | 0 <= i < |conds| && IsPortClause(conds[i]) :: exists j | 0 <= j < i :: NamesPorts(conds[j])
  }

  predicate LineOk(v6: bool, loaded: set<string>, l: Line) {
    Fits(Shaped(v6, loaded), l.conds) && PortsLed(l.conds) && ActOk(l.act)
  }

  predicate LinesOk(v6: bool, loaded: set<string>, lines: seq<Line>) {
    forall l | l in lines :: LineOk(v6, loaded, l)
  }

  function LoadedSets(geo: set<string>): set<string> {
    set c | c in geo :: SetName(c)
  }

  // ----- proofs, bottom up -----

  lemma ChunksOk(v6: bool, loaded: set<string>, ports: seq<int>)
    requires forall p | p in ports :: IsPort(p)
    ensures AltsFit(Shaped(v6, loaded), Chunks(ports))
  {
    forall c: seq<int> | c != [] && |c| <= MAX_MULTIPORT && (forall p | p in c :: p in ports)
      ensures Fits(Shaped(v6, loaded), ChunkFrag(c))
    {
      ChunkOk(v6, loaded, c);
    }
    ChunksFit(Shaped(v6, loaded), ports);
  }

  lemma ChunkOk(v6: bool, loaded: set<string>, c: seq<int>)
    requires c != [] && |c| <= MAX_MULTIPORT && forall p | p in c :: IsPort(p)
    ensures Fits(Shaped(v6, loaded), ChunkFrag(c))
  {
    assert c[0] in c;
  }

  function PortsIn(frag: seq<Match>): seq<int> {
    if |frag| == 1 && frag[0].Dport? then [frag[0].port]
    else if |frag| == 1 && frag[0].Multiport? then frag[0].ports
    else []
  }

  function PortsInAll(frags: seq<seq<Match>>): seq<int> {
    if frags == [] then [] else PortsIn(frags[0]) + PortsInAll(frags[1..])
  }

  /** The chunks, read back in order, are the port list: none lost, none added,
      none moved, and only the last chunk may be short. */
  lemma {:induction false} ChunksReadBack(ports: seq<int>)
    ensures PortsInAll(Chunks(ports)) == ports
    ensures |Chunks(ports)| == (|ports| + 14) / 15
    ensures forall i | 0 <= i < |Chunks(ports)| - 1 :: |PortsIn(Chunks(ports)[i])| == 15
  {
    if |ports| > MAX_MULTIPORT {
      var front, back := ports[..MAX_MULTIPORT], ports[MAX_MULTIPORT..];
      ChunksReadBack(back);
      assert Chunks(ports)[1..] == Chunks(back);
      assert front + back == ports;
    } else if ports != [] {
      assert Chunks(ports) == [ChunkFrag(ports)];
      assert PortsIn(ChunkFrag(ports)) == ports;
    }
  }

  lemma TrimAlpha(s: string)
    requires IsAlpha(s)
    ensures Trim(s) == s && IsAlpha(Lower(s)) && Lower(Lower(s)) == Lower(s)
  {
    assert s[0] in s && s[|s| - 1] in s;
    forall c | c in Lower(s) ensures 'a' <= c <= 'z' {
      var i :| 0 <= i < |s| && Lower(s)[i] == c;
      assert s[i] in s;
    }
  }

  /** The set a line names is the set loaded for the lower-cased code. */
  lemma SetNameLower(code: string)
    requires IsAlpha(code)
    ensures SetName(Lower(code)) == SetName(code)
  {
    TrimAlpha(code);
    TrimAlpha(Lower(code));
  }

  lemma SetFragOk(code: string, dst: bool, loaded: set<string>)
    requires IsAlpha(code) && SetName(Lower(code)) in loaded
    ensures Fits(Shaped(false, loaded), [if dst then DstSet(SetName(code)) else SrcSet(SetName(code))])
  {
    SetNameLower(code);
  }

  lemma SetFragsOk(s: Source, dst: bool, net: NetParser, loaded: set<string>)
    requires s.kind == CountrySource && ValidSource(net, s)
    requires forall c | c in SplitCountries(s.value) :: SetName(Lower(c)) in loaded
    ensures AltsFit(Shaped(false, loaded), SetFrags(SplitCountries(s.value), dst))
  {
    var codes := SplitCountries(s.value);
    forall i | 0 <= i < |codes| ensures Fits(Shaped(false, loaded), SetFrags(codes, dst)[i]) {
      SetFragOk(codes[i], dst, loaded);
    }
  }

  lemma {:induction false} PickSub(ports: seq<int>, published: set<int>, want: bool)
    ensures forall p | p in Pick(ports, published, want) :: p in ports
  {
    if ports != [] {
      PickSub(ports[..|ports| - 1], published, want);
    }
  }

  /** A rule as the compiler may get it: valid, but with any number of ports. */
  predicate Substituted(net: NetParser, r: Rule) {
    && WellFormedPorts(r.ports)
    && ValidRule(net, r.(ports := Ports(AllPorts, [], 0, 0)))
  }

  lemma PortsOk(k: Kind, loaded: set<string>, r: Rule, published: set<int>)
    requires WellFormedPorts(r.ports)
    ensures PortsFit(Shaped(k.IsV6(), loaded), k, r, published)
  {
    if k.IsOut() {
      if r.ports.kind == ListPorts {
        ChunksOk(k.IsV6(), loaded, r.ports.list);
      }
    } else {
      var ps := Share(k, r, published);
      PickSub(r.ports.list, published, k == DockerIn);
      if ps.Some? && !ps.value.all && !ps.value.IsRange() {
        ChunksOk(k.IsV6(), loaded, ps.value.list);
      }
    }
  }

  lemma PlainOk(v6: bool, net: NetParser, loaded: set<string>, r: Rule)
    requires Substituted(net, r)
    ensures PlainFits(Shaped(v6, loaded), r)
  {
    assert r.protocol in {Tcp, Udp, Both};
  }

  lemma PeersOk(k: Kind, net: NetParser, loaded: set<string>, r: Rule, published: set<int>)
    requires Substituted(net, r) && Alts(k, r, published) != []
    requires r.source.kind == CountrySource ==>
      forall c | c in SplitCountries(r.source.value) :: SetName(Lower(c)) in loaded
    ensures AltsFit(Shaped(k.IsV6(), loaded), PeerFrags(k, r.source))
  {
    if r.source.kind == CountrySource {
      SetFragsOk(r.source, k.IsOut(), net, loaded);
    }
  }

  lemma AltsOk(k: Kind, net: NetParser, loaded: set<string>, r: Rule, published: set<int>)
    requires Substituted(net, r)
    requires r.source.kind == CountrySource ==>
      forall c | c in SplitCountries(r.source.value) :: SetName(Lower(c)) in loaded
    ensures AltsFit(Shaped(k.IsV6(), loaded), Alts(k, r, published))
  {
    PortsOk(k, loaded, r, published);
    PlainOk(k.IsV6(), net, loaded, r);
    if Alts(k, r, published) != [] {
      PeersOk(k, net, loaded, r, published);
    }
    RuleFits(Shaped(k.IsV6(), loaded), k, r, published);
  }

  // ----- protocols in front of ports -----

  predicate AltsLed(alts: seq<seq<Match>>) {
    forall a | a in alts :: PortsLed(a)
  }

  function NoPort(): Match -> bool {
    m => !IsPortClause(m)
  }

  predicate StartsWithProto(conds: seq<Match>) {
    conds != [] && NamesPorts(conds[0])
  }

  lemma LedByProto(conds: seq<Match>)
    requires StartsWithProto(conds)
    ensures PortsLed(conds)
  {
  }

  lemma LedBehind(head: seq<Match>, tail: seq<Match>)
    requires Fits(NoPort(), head) && PortsLed(tail)
    ensures PortsLed(head + tail)
  {
    var all := head + tail;
    forall i | 0 <= i < |head| ensures !IsPortClause(all[i]) {
      assert head[i] in head && NoPort()(head[i]);
    }
    forall i | |head| <= i < |all| && IsPortClause(all[i]) ensures exists j | 0 <= j < i :: NamesPorts(all[j]) {
      var j :| 0 <= j < i - |head| && NamesPorts(tail[j]);
      assert all[|head| + j] == tail[j];
    }
  }

  lemma {:induction false} PrependedByProto(head: seq<Match>, tails: seq<seq<Match>>)
    requires StartsWithProto(head)
    ensures AltsLed(Prepend(head, tails))
  {
    if tails != [] {
      PrependedByProto(head, tails[..|tails| - 1]);
      LedByProto(head + tails[|tails| - 1]);
    }
  }

  lemma {:induction false} PrependedPortFree(head: seq<Match>, tails: seq<seq<Match>>)
    requires Fits(NoPort(), head) && AltsLed(tails)
    ensures AltsLed(Prepend(head, tails))
  {
    if tails != [] {
      assert tails[|tails| - 1] in tails && forall a | a in tails[..|tails| - 1] :: a in tails;
      PrependedPortFree(head, tails[..|tails| - 1]);
      LedBehind(head, tails[|tails| - 1]);
    }
  }

  lemma {:induction false} CrossedByProto(heads: seq<seq<Match>>, tails: seq<seq<Match>>)
    requires forall h | h in heads :: StartsWithProto(h)
    ensures AltsLed(Cross(heads, tails))
  {
    if heads != [] {
      assert heads[|heads| - 1] in heads && forall h | h in heads[..|heads| - 1] :: h in heads;
      CrossedByProto(heads[..|heads| - 1], tails);
      PrependedByProto(heads[|heads| - 1], tails);
    }
  }

  lemma {:induction false} CrossedPortFree(heads: seq<seq<Match>>, tails: seq<seq<Match>>)
    requires AltsFit(NoPort(), heads) && AltsLed(tails)
    ensures AltsLed(Cross(heads, tails))
  {
    if heads != [] {
      var head := heads[|heads| - 1];
      assert head in heads && Fits(NoPort(), head);
      assert forall h | h in heads[..|heads| - 1] :: h in heads;
      CrossedPortFree(heads[..|heads| - 1], tails);
      PrependedPortFree(head, tails);
    }
  }

  lemma PortFree(conds: seq<Match>)
    requires Fits(NoPort(), conds)
    ensures PortsLed(conds)
  {
    forall i | 0 <= i < |conds| ensures !IsPortClause(conds[i]) {
      assert conds[i] in conds && NoPort()(conds[i]);
    }
  }

  lemma WholeTailsLed(r: Rule)
    requires r.protocol in {Tcp, Udp, Both}
    ensures PortsLed(ScheduleArg(r.schedule)) && PortsLed([ProtoArg(r.protocol)] + ScheduleArg(r.schedule))
    ensures PortsLed([ProtoArg(r.protocol)]) && PortsLed([])
  {
    PortFree(ScheduleArg(r.schedule));
    PortFree([ProtoArg(r.protocol)] + ScheduleArg(r.schedule));
    PortFree([ProtoArg(r.protocol)]);
  }

  lemma TailsLed(r: Rule, ps: PortSpec, frags: seq<seq<Match>>)
    requires r.protocol in {Tcp, Udp, Both}
    ensures AltsLed(InTails(r, ps, frags)) && AltsLed(OutTails(r))
  {
    WholeTailsLed(r);
    var protos := ProtoFrags(r.protocol);
    CrossedByProto(protos, Cross(frags, [ScheduleArg(r.schedule)]));
    CrossedByProto(protos, [[DportRange(r.ports.from, r.ports.to)]]);
    CrossedByProto(protos, Chunks(r.ports.list));
  }

  lemma PeersPortFree(k: Kind, s: Source)
    ensures AltsFit(NoPort(), PeerFrags(k, s))
  {
  }

  /** Every port clause of a rule's lines stands behind its protocol. */
  lemma RuleLed(k: Kind, r: Rule, published: set<int>)
    requires r.protocol in {Tcp, Udp, Both}
    ensures AltsLed(Alts(k, r, published))
  {
    if Alts(k, r, published) != [] {
      var peers := PeerFrags(k, r.source);
      PeersPortFree(k, r.source);
      if k.IsOut() {
        TailsLed(r, PortSpec(true, [], 0, 0), []);
        assert AltsFit(NoPort(), [ScheduleArg(r.schedule)]);
        CrossFits(NoPort(), peers, [ScheduleArg(r.schedule)]);
        CrossedPortFree(Cross(peers, [ScheduleArg(r.schedule)]), OutTails(r));
      } else {
        var ps := Share(k, r, published).value;
        TailsLed(r, ps, ShareFrags(k, ps));
        CrossedPortFree(peers, InTails(r, ps, ShareFrags(k, ps)));
      }
    }
  }

  lemma {:induction false} WrapAllLed(alts: seq<seq<Match>>, r: Rule, target: Verdict)
    requires AltsLed(alts)
    ensures forall l | l in WrapAll(alts, r, target) :: PortsLed(l.conds)
  {
    if alts != [] {
      WrapAllLed(alts[..|alts| - 1], r, target);
      assert forall l | l in Wrapped(alts[|alts| - 1], r, target) :: l.conds == alts[|alts| - 1];
    }
  }

  lemma {:induction false} WrapAllActs(alts: seq<seq<Match>>, net: NetParser, r: Rule, target: Verdict)
    requires Substituted(net, r)
    ensures forall l | l in WrapAll(alts, r, target) :: ActOk(l.act)
  {
    if alts != [] {
      WrapAllActs(alts[..|alts| - 1], net, r, target);
    }
  }

  lemma {:induction false} SectionOk(
      k: Kind, net: NetParser, loaded: set<string>, rl: seq<Rule>, published: set<int>)
    requires forall r | r in rl :: Substituted(net, r)
    requires forall r | r in rl && r.source.kind == CountrySource ::
      forall c | c in SplitCountries(r.source.value) :: SetName(Lower(c)) in loaded
    ensures LinesOk(k.IsV6(), loaded, Section(k, rl, published))
  {
    if rl != [] {
      var r := rl[|rl| - 1];
      SectionOk(k, net, loaded, rl[..|rl| - 1], published);
      AltsOk(k, net, loaded, r, published);
      WrapAllFits(Shaped(k.IsV6(), loaded), Alts(k, r, published), r, Target(k, r.action));
      WrapAllActs(Alts(k, r, published), net, r, Target(k, r.action));
      RuleLed(k, r, published);
      WrapAllLed(Alts(k, r, published), r, Target(k, r.action));
    }
  }

  lemma IfaceLinesOk(v6: bool, loaded: set<string>, names: seq<string>, v: Verdict)
    ensures LinesOk(v6, loaded, IfaceLines(names, v))
  {
  }

  lemma LinesAppend(v6: bool, loaded: set<string>, a: seq<Line>, b: seq<Line>)
    ensures LinesOk(v6, loaded, a + b) <==> LinesOk(v6, loaded, a) && LinesOk(v6, loaded, b)
  {
    assert forall l :: l in a + b <==> l in a || l in b;
  }

  lemma OneOk(v6: bool, loaded: set<string>, m: Match, v: Verdict)
    requires !IsPortClause(m)
    ensures LinesOk(v6, loaded, [Line([m], Jump(v))]) <==> MatchOk(v6, loaded, m)
  {
    var l := Line([m], Jump(v));
    assert m in [m] && l in [l];
  }

  /** DOCKER-USER's fixed lines are accepted exactly when the host address is
      written without colons. The validator asks only whether the parser maps
      it to IPv4, which `::ffff:10.0.0.1` also is. */
  lemma DockerPrologueExact(loaded: set<string>, rs: RuleSet, extra: seq<string>)
    ensures LinesOk(false, loaded, Prologue(DockerIn, rs, extra)) <==> ':' !in rs.hostIP
  {
    var s1, s2 := [Line([ESTABLISHED], Jump(Return))], [Line([SrcNet("127.0.0.0/8")], Jump(Return))];
    var h := if rs.hostIP != "" then [Line([SrcNet(rs.hostIP)], Jump(Return))] else [];
    var a, e := IfaceLines(TRUSTED_DOCKER, Return), IfaceLines(extra, Return);
    assert Prologue(DockerIn, rs, extra) == s1 + (s2 + (h + (a + e)));
    LinesAppend(false, loaded, s1, s2 + (h + (a + e)));
    LinesAppend(false, loaded, s2, h + (a + e));
    LinesAppend(false, loaded, h, a + e);
    LinesAppend(false, loaded, a, e);
    OneOk(false, loaded, ESTABLISHED, Return);
    OneOk(false, loaded, SrcNet("127.0.0.0/8"), Return);
    OneOk(false, loaded, SrcNet(rs.hostIP), Return);
    IfaceLinesOk(false, loaded, TRUSTED_DOCKER, Return);
    IfaceLinesOk(false, loaded, extra, Return);
  }

  lemma UdpLineOk(v6: bool, loaded: set<string>, port: int, v: Verdict)
    requires IsPort(port)
    ensures LinesOk(v6, loaded, [UdpLine(port, v)])
  {
    LedByProto(UdpLine(port, v).conds);
  }

  lemma InServicesOk(loaded: set<string>, services: seq<Line>)
    requires services == [Line([ProtoIs(ICMP)], Jump(Accept))] + ([UdpLine(68, Accept)] + ([UdpLine(41641, Accept)]
      + [UdpLine(9993, Accept)]))
    ensures LinesOk(false, loaded, services)
  {
    LinesAppend(false, loaded, [UdpLine(41641, Accept)], [UdpLine(9993, Accept)]);
    LinesAppend(false, loaded, [UdpLine(68, Accept)], [UdpLine(41641, Accept)] + [UdpLine(9993, Accept)]);
    LinesAppend(false, loaded, [Line([ProtoIs(ICMP)], Jump(Accept))],
                [UdpLine(68, Accept)] + ([UdpLine(41641, Accept)] + [UdpLine(9993, Accept)]));
    OneOk(false, loaded, ProtoIs(ICMP), Accept);
    UdpLineOk(false, loaded, 68, Accept);
    UdpLineOk(false, loaded, 41641, Accept);
    UdpLineOk(false, loaded, 9993, Accept);
  }

  lemma StateLinesOk(v6: bool, loaded: set<string>, known: Verdict)
    ensures LinesOk(v6, loaded, [Line([ESTABLISHED], Jump(known)), Line([StateIn({Invalid})], Jump(Drop))])
  {
    PortFree([ESTABLISHED]);
    PortFree([StateIn({Invalid})]);
  }

  lemma InPieces(rs: RuleSet, extra: seq<string>, services: seq<Line>)
    requires services == [Line([ProtoIs(ICMP)], Jump(Accept))] + ([UdpLine(68, Accept)] + ([UdpLine(41641, Accept)]
      + [UdpLine(9993, Accept)]))
    ensures Prologue(In, rs, extra)
         == [Line([ESTABLISHED], Jump(Accept)), Line([StateIn({Invalid})], Jump(Drop))]
            + (IfaceLines(TRUSTED, Accept) + (services + IfaceLines(extra, Accept)))
  {
  }

  lemma PrologueInOk(loaded: set<string>, rs: RuleSet, extra: seq<string>)
    ensures LinesOk(false, loaded, Prologue(In, rs, extra))
  {
    var head := [Line([ESTABLISHED], Jump(Accept)), Line([StateIn({Invalid})], Jump(Drop))];
    var services := [Line([ProtoIs(ICMP)], Jump(Accept))] + ([UdpLine(68, Accept)] + ([UdpLine(41641, Accept)]
      + [UdpLine(9993, Accept)]));
    var a, e := IfaceLines(TRUSTED, Accept), IfaceLines(extra, Accept);
    InPieces(rs, extra, services);
    LinesAppend(false, loaded, head, a + (services + e));
    LinesAppend(false, loaded, a, services + e);
    LinesAppend(false, loaded, services, e);
    StateLinesOk(false, loaded, Accept);
    InServicesOk(loaded, services);
    IfaceLinesOk(false, loaded, TRUSTED, Accept);
    IfaceLinesOk(false, loaded, extra, Accept);
  }

  lemma NeededOk(loaded: set<string>)
    ensures LinesOk(true, loaded, IN6_NEEDED)
  {
    assert "fe80::/10"[4] == ':' && "ff00::/8"[4] == ':';
    LedByProto(UdpLine(546, Return).conds);
  }

  lemma PrologueIn6Ok(loaded: set<string>, rs: RuleSet, extra: seq<string>)
    ensures LinesOk(true, loaded, Prologue(In6, rs, extra))
  {
    var head := [Line([ESTABLISHED], Jump(Return)), Line([StateIn({Invalid})], Jump(Drop))];
    var a, e := IfaceLines(TRUSTED, Return), IfaceLines(extra, Return);
    assert Prologue(In6, rs, extra) == head + (a + (e + IN6_NEEDED));
    LinesAppend(true, loaded, head, a + (e + IN6_NEEDED));
    LinesAppend(true, loaded, a, e + IN6_NEEDED);
    LinesAppend(true, loaded, e, IN6_NEEDED);
    StateLinesOk(true, loaded, Return);
    IfaceLinesOk(true, loaded, TRUSTED, Return);
    IfaceLinesOk(true, loaded, extra, Return);
    NeededOk(loaded);
  }

  lemma PrologueExact(k: Kind, loaded: set<string>, rs: RuleSet, extra: seq<string>)
    ensures LinesOk(k.IsV6(), loaded, Prologue(k, rs, extra)) <==> (k == DockerIn ==> ':' !in rs.hostIP)
  {
    match k {
      case In => PrologueInOk(loaded, rs, extra);
      case DockerIn => DockerPrologueExact(loaded, rs, extra);
      case In6 => PrologueIn6Ok(loaded, rs, extra);
      case _ =>
    }
  }

  lemma EpilogueExact(k: Kind, net: NetParser, loaded: set<string>, rs: RuleSet)
    requires ValidHeader(net, rs)
    ensures LinesOk(k.IsV6(), loaded, Epilogue(k, rs)) <==>
      (k == DockerIn && rs.policy == DenyPolicy ==> ':' !in rs.lan)
  {
    if k == In6 {
      forall l | l in V6DropLines(rs.v6Drop) ensures LineOk(true, loaded, l) {
        var i :| 0 <= i < |rs.v6Drop| && l == V6DropLines(rs.v6Drop)[i];
        assert IsPort(rs.v6Drop[i]);
        LedByProto(l.conds);
      }
      LinesAppend(true, loaded, V6DropLines(rs.v6Drop),
                  if rs.policy == AllowPolicy then [Line([], Jump(Return))]
                  else [LogNew([], "ZFW-IN6-DROP "), Line([], Jump(Drop))]);
    } else if k == DockerIn {
      LanLinesExact(loaded, rs);
    }
  }

  lemma LanLinesExact(loaded: set<string>, rs: RuleSet)
    ensures LinesOk(false, loaded, Epilogue(DockerIn, rs)) <==> (rs.policy == DenyPolicy ==> ':' !in rs.lan)
  {
    var lan, log := Line([SrcNet(rs.lan)], Jump(Drop)), LogNew([SrcNet(rs.lan)], "ZFW-DOCK-DROP ");
    var front := if rs.policy == DenyPolicy && rs.lan != "" then [log, lan] else [];
    LinesAppend(false, loaded, front, [Line([], Jump(Return))]);
    OneOk(false, loaded, SrcNet(rs.lan), Drop);
    LinesAppend(false, loaded, [log], [lan]);
    assert [log, lan] == [log] + [lan];
  }

  /** From a valid rule set, with the ports of bound containers substituted, the
      lines of a chain are all well shaped (multiport matches of two to fifteen
      ports, ports in range and behind their protocol, ranges ordered, one address
      family per table, only country sets that are loaded first) exactly when the
      two addresses that DOCKER-USER spells out have no colon. */
  lemma CompiledLinesExact(
      k: Kind, net: NetParser, rs: RuleSet, cs: seq<Container>, bound: RuleSet,
      published: set<int>, extra: seq<string>)
    requires Valid(net, rs)
    requires forall c, p | c in cs && p in c.ports :: IsPort(p)
    requires |bound.rules| == |rs.rules| && bound == rs.(rules := bound.rules)
    requires forall i | 0 <= i < |rs.rules| :: bound.rules[i] == BoundRule(rs.rules[i], cs)
    ensures LinesOk(k.IsV6(), LoadedSets(GeoCodes(bound.rules)), Compiled(k, bound, published, extra)) <==>
      (k == DockerIn ==> ':' !in rs.hostIP && (rs.policy == DenyPolicy ==> ':' !in rs.lan))
    ensures CompilableSet(bound)
  {
    var loaded, rl := LoadedSets(GeoCodes(bound.rules)), StableSort(bound.rules);
    forall r | r in bound.rules ensures Substituted(net, r) && Compilable(r) {
      var i :| 0 <= i < |bound.rules| && bound.rules[i] == r;
      BoundRuleOk(net, rs.rules[i], cs);
    }
    SortElements(bound.rules);
    forall r | r in rl ensures r in bound.rules {
      assert r in multiset(rl);
    }
    forall r, c | r in rl && r.source.kind == CountrySource && c in SplitCountries(r.source.value)
      ensures SetName(Lower(c)) in loaded
    {
      assert Lower(c) in GeoCodes(bound.rules);
    }
    SectionOk(k, net, loaded, rl, published);
    PrologueExact(k, loaded, bound, extra);
    EpilogueExact(k, net, loaded, bound);
    var front := Prologue(k, bound, extra) + Section(k, rl, published);
    LinesAppend(k.IsV6(), loaded, Prologue(k, bound, extra), Section(k, rl, published));
    LinesAppend(k.IsV6(), loaded, front, Epilogue(k, bound));
  }

  /** Such an address: a parser that maps it to IPv4 gets a valid set out of which
      no DOCKER-USER line for it can be loaded. */
  lemma MappedHostRefused(net: NetParser, host: string, extra: seq<string>)
    requires host == "::ffff:10.0.0.1" && net.isIPv4(host)
    ensures var rs := RuleSet(3, "", host, DenyPolicy, [], []);
            Valid(net, rs) && !LinesOk(false, LoadedSets({}), Compiled(DockerIn, rs, {}, extra))
  {
    var rs := RuleSet(3, "", host, DenyPolicy, [], []);
    assert host[0] == ':';
    CompiledLinesExact(DockerIn, net, rs, [], rs, {}, extra);
    assert GeoCodes(rs.rules) == {};
    BoundUnchanged(rs.rules);
  }

  lemma BoundUnchanged(rules: seq<Rule>)
    ensures forall i | 0 <= i < |rules| :: BoundRule(rules[i], []) == rules[i]
  {
  }

  lemma {:induction false} LastPorts(cs: seq<Container>, key: string)
    requires forall c, p | c in cs && p in c.ports :: IsPort(p)
    ensures LastByID(cs, key).Some? ==> forall p | p in LastByID(cs, key).value :: IsPort(p)
    ensures LastByName(cs, key).Some? ==> forall p | p in LastByName(cs, key).value :: IsPort(p)
  {
    if cs != [] {
      LastPorts(cs[..|cs| - 1], key);
      assert cs[|cs| - 1] in cs;
    }
  }

  lemma BoundRuleOk(net: NetParser, r: Rule, cs: seq<Container>)
    requires ValidRule(net, r)
    requires forall c, p | c in cs && p in c.ports :: IsPort(p)
    ensures Substituted(net, BoundRule(r, cs)) && Compilable(BoundRule(r, cs))
  {
    LastPorts(cs, r.containerId);
    var plain := Ports(AllPorts, [], 0, 0);
    var b := BoundRule(r, cs);
    assert b.(ports := plain) == r.(ports := plain);
    assert b.source == r.source;
    PlainRuleOk(net, r);
    assert WellFormedPorts(b.ports);
  }

  lemma PlainRuleOk(net: NetParser, r: Rule)
    requires ValidRule(net, r)
    ensures ValidRule(net, r.(ports := Ports(AllPorts, [], 0, 0)))
  {
  }
}
