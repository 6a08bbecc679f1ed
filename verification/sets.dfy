/** Country sets: which one a rule's line names, and that both scripts load every set
    before any line that names it, so that no line is refused for want of one. */
module Sets {
  import opened Text
  import opened TextFacts
  import opened Rules
  import opened Netfilter
  import opened RuleLines
  import opened Clauses
  import opened Ordering
  import opened Chains
  import opened Shape
  import opened Tables
  import opened Scripts
  import opened BackEnds

  // ----- names -----

  /** Two codes name one set exactly when nothing but letter case and the white space
      around them tells them apart. */
  lemma SetNamesApart(c: string, d: string)
    ensures SetName(c) == SetName(d) <==> SameButCase(Trim(c), Trim(d))
    ensures SetName(Lower(c)) == SetName(c)
  {
    LowerExact(Trim(c), Trim(d));
    assert Lower(Trim(c)) == SetName(c)[|"zfw-cc-"|..];
    assert Lower(Trim(d)) == SetName(d)[|"zfw-cc-"|..];
    TrimLower(c);
    LowerTwice(Trim(c));
  }

  /** Germany's set has one name however the code is typed, */
  lemma GermanyIsGermany()
    ensures SetName("DE") == SetName(" de") == "zfw-cc-de"
  {
    assert " " + "de" + "" == " de" && Blank(" ") && Blank("") && Trimmed("de");
    TrimPadded(" ", "de", "");
    TrimFacts("DE");
    assert Lower("DE") == "de" && Lower("de") == "de";
  }

  /** and is not France's. */
  lemma GermanyIsNotFrance()
    ensures SetName("FR") != SetName("DE")
  {
    TrimFacts("DE");
    TrimFacts("FR");
    SetNamesApart("FR", "DE");
    assert !SameLetter("FR"[0], "DE"[0]);
  }

  // ----- what a command puts into a chain, and what that needs -----

  predicate IsSet(m: Match) {
    m.SrcSet? || m.DstSet?
  }

  predicate Puts(c: Cmd, line: Line) {
    (c.Must? || c.Try?) &&
    match c.op
    case Append(_, _, l) => l == line
    case Restore(_, doc) => exists a | a in doc.appends :: a.1 == line
    case _ => false
  }

  /** Every set named by a line that some command of the script puts into a chain is
      loaded by an earlier command, outside any `if`. */
  ghost predicate LoadsFirst(script: Script) {
    forall i, line, m | 0 <= i < |script| && Puts(script[i], line) && m in line.conds && IsSet(m) ::
      exists k | 0 <= k < i :: script[k] == Must(LoadSet(m.name))
  }

  predicate PutsSome(script: Script, line: Line) {
    exists c | c in script :: Puts(c, line)
  }

  lemma PutsConcat(a: Script, b: Script, line: Line)
    ensures PutsSome(a + b, line) <==> PutsSome(a, line) || PutsSome(b, line)
  {
    assert forall c :: c in a + b <==> c in a || c in b;
  }

  lemma AppendsPut(f: bool, c: Chain, lines: seq<Line>, line: Line)
    ensures PutsSome(Appends(f, c, lines), line) <==> line in lines
  {
    if line in lines {
      var i :| 0 <= i < |lines| && lines[i] == line;
      assert Appends(f, c, lines)[i] == Must(Append(f, c, line)) && Puts(Appends(f, c, lines)[i], line);
    }
  }

  predicate Loads(c: Cmd) {
    (c.Must? || c.Try?) && c.op.LoadSet?
  }

  predicate LoadsNone(script: Script) {
    forall c | c in script :: !Loads(c)
  }

  lemma LoadsConcat(a: Script, b: Script)
    ensures LoadsNone(a + b) <==> LoadsNone(a) && LoadsNone(b)
  {
    assert forall c :: c in a + b <==> c in a || c in b;
  }

  function NamesOf(codes: seq<string>): set<string> {
    set c | c in codes :: SetName(c)
  }

  /** A clause that names no set but these. */
  function Within(names: set<string>): Match -> bool {
    m => IsSet(m) ==> m.name in names
  }

  lemma GeoLoads(codes: seq<string>, name: string)
    ensures Must(LoadSet(name)) in GeoSection(codes) <==> name in NamesOf(codes)
    ensures forall line :: !PutsSome(GeoSection(codes), line)
  {
    if name in NamesOf(codes) {
      var i :| 0 <= i < |codes| && SetName(codes[i]) == name;
      assert GeoSection(codes)[i] == Must(LoadSet(name));
    }
  }

  lemma NamedAreLoaded(codes: seq<string>, rest: Script)
    requires forall line | PutsSome(rest, line) :: Fits(Within(NamesOf(codes)), line.conds)
    ensures LoadsFirst(GeoSection(codes) + rest)
  {
    var geo, names := GeoSection(codes), NamesOf(codes);
    var all := geo + rest;
    GeoLoads(codes, "");
    forall i, line, m | 0 <= i < |all| && Puts(all[i], line) && m in line.conds && IsSet(m)
      ensures exists k | 0 <= k < i :: all[k] == Must(LoadSet(m.name))
    {
      assert i < |geo| ==> all[i] in geo && PutsSome(geo, line);
      assert all[i] in rest && PutsSome(rest, line);
      assert Within(names)(m);
      GeoLoads(codes, m.name);
      var k :| 0 <= k < |geo| && geo[k] == Must(LoadSet(m.name));
      assert all[k] == geo[k];
    }
  }

  lemma LoadedAreNamed(codes: seq<string>, rest: Script, line: Line, m: Match)
    requires LoadsNone(rest) && LoadsFirst(GeoSection(codes) + rest)
    requires PutsSome(rest, line) && m in line.conds && IsSet(m)
    ensures m.name in NamesOf(codes)
  {
    var geo := GeoSection(codes);
    var all := geo + rest;
    var c :| c in rest && Puts(c, line);
    var i :| 0 <= i < |rest| && rest[i] == c;
    assert all[|geo| + i] == c;
    var k :| 0 <= k < |geo| + i && all[k] == Must(LoadSet(m.name));
    assert Loads(all[k]);
    assert k < |geo| && geo[k] == all[k];
    GeoLoads(codes, m.name);
  }

  /** Behind the loads of these codes a script is in order exactly when its lines name
      no other sets. */
  lemma LoadsFirstExact(codes: seq<string>, rest: Script)
    requires LoadsNone(rest)
    ensures LoadsFirst(GeoSection(codes) + rest) <==>
      forall line | PutsSome(rest, line) :: Fits(Within(NamesOf(codes)), line.conds)
  {
    if LoadsFirst(GeoSection(codes) + rest) {
      forall line, m | PutsSome(rest, line) && m in line.conds && IsSet(m) ensures m.name in NamesOf(codes) {
        LoadedAreNamed(codes, rest, line, m);
      }
    } else if forall line | PutsSome(rest, line) :: Fits(Within(NamesOf(codes)), line.conds) {
      NamedAreLoaded(codes, rest);
    }
  }

  // ----- the two scripts -----

  /** The chains a script fills. */
  predicate Written(k: Kind, q: Parts) {
    match k
    case In => true
    case DockerIn => true
    case In6 => true
    case Out => q.hostOut
    case Out6 => q.hostOut
    case FwdOut => q.dockerOut
  }

  ghost predicate PutsParts(script: Script, q: Parts) {
    forall line :: PutsSome(script, line) <==> exists k :: Written(k, q) && line in q.Lines(k)
  }

  lemma PopulatePuts(k: Kind, lines: seq<Line>, line: Line)
    ensures PutsSome(Populate(k, lines), line) <==> line in lines
    ensures !PutsSome([HookUp(k)], line) && !PutsSome([HookUp(k), EndIf], line)
    ensures LoadsNone(Populate(k, lines)) && LoadsNone([HookUp(k)]) && LoadsNone([HookUp(k), EndIf])
  {
    var head := [Try(NewChain(k.IsV6(), Own(k))), Must(FlushChain(k.IsV6(), Own(k)))];
    PutsConcat(head, Appends(k.IsV6(), Own(k), lines), line);
    AppendsPut(k.IsV6(), Own(k), lines, line);
    assert forall c | c in head :: !Puts(c, line);
  }

  lemma HookedPuts(k: Kind, lines: seq<Line>, line: Line)
    ensures PutsSome(Populate(k, lines) + [HookUp(k)], line) <==> line in lines
    ensures LoadsNone(Populate(k, lines) + [HookUp(k)])
  {
    PopulatePuts(k, lines, line);
    PutsConcat(Populate(k, lines), [HookUp(k)], line);
    LoadsConcat(Populate(k, lines), [HookUp(k)]);
  }

  lemma V6BlockPuts(k: Kind, lines: seq<Line>, line: Line)
    ensures PutsSome([IfIp6tables] + Populate(k, lines) + [HookUp(k), EndIf], line) <==> line in lines
    ensures LoadsNone([IfIp6tables] + Populate(k, lines) + [HookUp(k), EndIf])
  {
    PopulatePuts(k, lines, line);
    PutsConcat([IfIp6tables], Populate(k, lines), line);
    PutsConcat([IfIp6tables] + Populate(k, lines), [HookUp(k), EndIf], line);
    LoadsConcat([IfIp6tables], Populate(k, lines));
    LoadsConcat([IfIp6tables] + Populate(k, lines), [HookUp(k), EndIf]);
    assert !PutsSome([IfIp6tables], line) && LoadsNone([IfIp6tables]);
  }

  lemma DockerPuts(q: Parts, line: Line)
    ensures PutsSome(DockerSection(q), line) <==> line in q.docker
    ensures LoadsNone(DockerSection(q))
  {
    var head := [IfChain(Own(DockerIn)), Must(FlushChain(false, Own(DockerIn)))];
    var lines := Appends(false, Own(DockerIn), q.docker);
    AppendsPut(false, Own(DockerIn), q.docker, line);
    PutsConcat(head, lines, line);
    PutsConcat(head + lines, [EndIf], line);
    LoadsConcat(head, lines);
    LoadsConcat(head + lines, [EndIf]);
    assert forall c | c in head :: !Puts(c, line) && !Loads(c);
    assert !PutsSome([EndIf], line) && LoadsNone([EndIf]);
  }

  lemma OutPuts(q: Parts, line: Line)
    ensures PutsSome(OutSection(q), line) <==>
      (q.hostOut && (line in q.zfwOut || line in q.zfwOut6)) || (q.dockerOut && line in q.fwdOut)
    ensures LoadsNone(OutSection(q))
  {
    var p1 := Populate(Out, q.zfwOut) + [HookUp(Out)];
    var p2 := [IfIp6tables] + Populate(Out6, q.zfwOut6) + [HookUp(Out6), EndIf];
    HookedPuts(Out, q.zfwOut, line);
    V6BlockPuts(Out6, q.zfwOut6, line);
    HookedPuts(FwdOut, q.fwdOut, line);
    HostOutParts(q, p1, p2);
    PutsConcat(p1, p2, line);
    LoadsConcat(p1, p2);
    var host, docker := if q.hostOut then HostOutSection(q) else [], if q.dockerOut then DockerOutSection(q) else [];
    PutsConcat(host, docker, line);
    LoadsConcat(host, docker);
  }

  function BashRest(q: Parts): Script {
    HostSection(q) + DockerSection(q) + V6Section(q) + OutSection(q)
  }

  predicate InParts(q: Parts, line: Line) {
    || line in q.zfwIn || line in q.docker || line in q.zfwIn6
    || (q.hostOut && (line in q.zfwOut || line in q.zfwOut6)) || (q.dockerOut && line in q.fwdOut)
  }

  lemma FourPut(h: Script, d: Script, v: Script, o: Script, line: Line)
    ensures PutsSome(h + d + v + o, line) <==>
      PutsSome(h, line) || PutsSome(d, line) || PutsSome(v, line) || PutsSome(o, line)
    ensures LoadsNone(h + d + v + o) <==> LoadsNone(h) && LoadsNone(d) && LoadsNone(v) && LoadsNone(o)
  {
    PutsConcat(h, d, line);
    PutsConcat(h + d, v, line);
    PutsConcat(h + d + v, o, line);
    LoadsConcat(h, d);
    LoadsConcat(h + d, v);
    LoadsConcat(h + d + v, o);
  }

  lemma BashPutsLine(q: Parts, line: Line)
    ensures PutsSome(BashRest(q), line) <==> InParts(q, line)
    ensures LoadsNone(BashRest(q))
  {
    HookedPuts(In, q.zfwIn, line);
    DockerPuts(q, line);
    V6BlockPuts(In6, q.zfwIn6, line);
    OutPuts(q, line);
    FourPut(HostSection(q), DockerSection(q), V6Section(q), OutSection(q), line);
  }

  lemma BashPuts(q: Parts)
    ensures PutsParts(BashRest(q), q) && LoadsNone(BashRest(q))
  {
    BashPutsLine(q, Line([], Jump(Drop)));
    forall line ensures PutsSome(BashRest(q), line) <==> InParts(q, line) {
      BashPutsLine(q, line);
    }
    PartsByKind(BashRest(q), q);
  }

  lemma PartsByKind(script: Script, q: Parts)
    requires forall line :: PutsSome(script, line) <==> InParts(q, line)
    ensures PutsParts(script, q)
  {
    forall line ensures InParts(q, line) <==> exists k :: Written(k, q) && line in q.Lines(k) {
      ByKind(q, line);
    }
  }

  lemma ByKind(q: Parts, line: Line)
    ensures (exists k :: Written(k, q) && line in q.Lines(k)) <==> InParts(q, line)
  {
    assert q.Lines(In) == q.zfwIn && q.Lines(DockerIn) == q.docker && q.Lines(In6) == q.zfwIn6;
    assert q.Lines(Out) == q.zfwOut && q.Lines(Out6) == q.zfwOut6 && q.Lines(FwdOut) == q.fwdOut;
    assert Written(In, q) && Written(DockerIn, q) && Written(In6, q);
    assert q.hostOut ==> Written(Out, q) && Written(Out6, q);
    assert q.dockerOut ==> Written(FwdOut, q);
  }

  predicate InDoc(appends: seq<(Chain, Line)>, line: Line) {
    exists a | a in appends :: a.1 == line
  }

  lemma DocConcat(a: seq<(Chain, Line)>, b: seq<(Chain, Line)>, line: Line)
    ensures InDoc(a + b, line) <==> InDoc(a, line) || InDoc(b, line)
  {
    assert forall x :: x in a + b <==> x in a || x in b;
  }

  lemma TaggedIn(k: Kind, lines: seq<Line>, line: Line)
    ensures InDoc(Tagged(k, lines), line) <==> line in lines
  {
    if line in lines {
      var i :| 0 <= i < |lines| && lines[i] == line;
      assert Tagged(k, lines)[i] == (Own(k), line);
    }
  }

  lemma DocsPut(q: Parts, line: Line)
    ensures InDoc(V4Doc(q).appends, line) <==>
      line in q.zfwIn || line in q.docker || (q.hostOut && line in q.zfwOut) || (q.dockerOut && line in q.fwdOut)
    ensures InDoc(V6Doc(q).appends, line) <==> line in q.zfwIn6 || (q.hostOut && line in q.zfwOut6)
  {
    var a, b := Tagged(In, q.zfwIn), Tagged(DockerIn, q.docker);
    var c, d := if q.hostOut then Tagged(Out, q.zfwOut) else [], if q.dockerOut then Tagged(FwdOut, q.fwdOut) else [];
    TaggedIn(In, q.zfwIn, line);
    TaggedIn(DockerIn, q.docker, line);
    TaggedIn(Out, q.zfwOut, line);
    TaggedIn(FwdOut, q.fwdOut, line);
    TaggedIn(In6, q.zfwIn6, line);
    TaggedIn(Out6, q.zfwOut6, line);
    DocConcat(a, b, line);
    DocConcat(a + b, c, line);
    DocConcat(a + b + c, d, line);
    DocConcat(Tagged(In6, q.zfwIn6), if q.hostOut then Tagged(Out6, q.zfwOut6) else [], line);
  }

  function RestoreRest(q: Parts): Script {
    [Must(Restore(false, V4Doc(q))), IfIp6restore, Must(Restore(true, V6Doc(q))), EndIf] + RestoreHooks(q)
  }

  lemma HooksPut(q: Parts, line: Line)
    ensures !PutsSome(RestoreHooks(q), line) && LoadsNone(RestoreHooks(q))
  {
    forall c | c in RestoreHooks(q) ensures !Puts(c, line) && !Loads(c) {
      assert c.Must? ==> c.op.EnsureHook?;
    }
  }

  lemma RestorePuts(q: Parts)
    ensures PutsParts(RestoreRest(q), q) && LoadsNone(RestoreRest(q))
  {
    var r4, r6 := Must(Restore(false, V4Doc(q))), Must(Restore(true, V6Doc(q)));
    var head := [r4, IfIp6restore, r6, EndIf];
    assert head[0] == r4 && head[2] == r6;
    HooksPut(q, Line([], Jump(Drop)));
    LoadsConcat(head, RestoreHooks(q));
    forall line ensures PutsSome(RestoreRest(q), line) <==> InParts(q, line) {
      DocsPut(q, line);
      HooksPut(q, line);
      PutsConcat(head, RestoreHooks(q), line);
      assert PutsSome(head, line) <==> Puts(r4, line) || Puts(r6, line);
    }
    PartsByKind(RestoreRest(q), q);
  }

  lemma ScriptsAreLoadsThenRest(q: Parts, codes: seq<string>)
    ensures BashOf(q, codes) == GeoSection(codes) + BashRest(q)
    ensures RestoreOf(q, codes) == GeoSection(codes) + RestoreRest(q)
  {
    Regroup(GeoSection(codes), HostSection(q), DockerSection(q), V6Section(q), OutSection(q));
  }

  lemma Regroup(a: Script, b: Script, c: Script, d: Script, e: Script)
    ensures a + b + c + d + e == a + (b + c + d + e)
  {
  }

  /** A script of either kind is in order exactly when the chains it fills name no sets
      but those of its codes. */
  lemma ScriptsLoadFirstExact(q: Parts, codes: seq<string>)
    ensures LoadsFirst(BashOf(q, codes)) <==>
      forall k | Written(k, q) :: LinesFit(Within(NamesOf(codes)), q.Lines(k))
    ensures LoadsFirst(RestoreOf(q, codes)) <==> LoadsFirst(BashOf(q, codes))
  {
    ScriptsAreLoadsThenRest(q, codes);
    BashPuts(q);
    RestorePuts(q);
    LoadsFirstExact(codes, BashRest(q));
    LoadsFirstExact(codes, RestoreRest(q));
    SameLines(q, BashRest(q), codes);
    SameLines(q, RestoreRest(q), codes);
  }

  lemma SameLines(q: Parts, script: Script, codes: seq<string>)
    requires PutsParts(script, q)
    ensures (forall line | PutsSome(script, line) :: Fits(Within(NamesOf(codes)), line.conds)) <==>
      forall k | Written(k, q) :: LinesFit(Within(NamesOf(codes)), q.Lines(k))
  {
    if forall k | Written(k, q) :: LinesFit(Within(NamesOf(codes)), q.Lines(k)) {
      forall line | PutsSome(script, line) ensures Fits(Within(NamesOf(codes)), line.conds) {
        var k :| Written(k, q) && line in q.Lines(k);
      }
    }
  }

  // ----- compiled chains name the sets of their rules' countries -----

  lemma ChunksWithin(names: set<string>, ports: seq<int>)
    ensures AltsFit(Within(names), Chunks(ports))
  {
    forall c: seq<int> | c != [] && |c| <= MAX_MULTIPORT && (forall p | p in c :: p in ports)
      ensures Fits(Within(names), ChunkFrag(c))
    {
    }
    ChunksFit(Within(names), ports);
  }

  lemma PeersWithin(k: Kind, names: set<string>, s: Source)
    requires s.kind == CountrySource ==> forall c | c in SplitCountries(s.value) :: SetName(c) in names
    ensures AltsFit(Within(names), PeerFrags(k, s))
  {
  }

  lemma RuleWithin(k: Kind, names: set<string>, r: Rule, published: set<int>)
    requires r.source.kind == CountrySource ==> forall c | c in SplitCountries(r.source.value) :: SetName(c) in names
    ensures AltsFit(Within(names), Alts(k, r, published))
  {
    ChunksWithin(names, r.ports.list);
    if !k.IsOut() && Share(k, r, published).Some? {
      ChunksWithin(names, Share(k, r, published).value.list);
    }
    PeersWithin(k, names, r.source);
    RuleFits(Within(names), k, r, published);
  }

  lemma {:induction false} SectionWithin(k: Kind, names: set<string>, rl: seq<Rule>, published: set<int>)
    requires forall r, c | r in rl && r.source.kind == CountrySource && c in SplitCountries(r.source.value) ::
      SetName(c) in names
    ensures LinesFit(Within(names), Section(k, rl, published))
  {
    if rl != [] {
      var r := rl[|rl| - 1];
      SectionWithin(k, names, rl[..|rl| - 1], published);
      RuleWithin(k, names, r, published);
      WrapAllFits(Within(names), Alts(k, r, published), r, Target(k, r.action));
    }
  }

  lemma FitAppend(names: set<string>, a: seq<Line>, b: seq<Line>)
    requires LinesFit(Within(names), a) && LinesFit(Within(names), b)
    ensures LinesFit(Within(names), a + b)
  {
    assert forall l :: l in a + b <==> l in a || l in b;
  }

  lemma IfacesWithin(names: set<string>, ifaces: seq<string>, v: Verdict)
    ensures LinesFit(Within(names), IfaceLines(ifaces, v))
  {
  }

  lemma InWithin(names: set<string>, rs: RuleSet, extra: seq<string>)
    ensures LinesFit(Within(names), Prologue(In, rs, extra))
  {
    var a := [Line([ESTABLISHED], Jump(Accept)), Line([StateIn({Invalid})], Jump(Drop))];
    var b := [Line([ProtoIs(ICMP)], Jump(Accept)), UdpLine(68, Accept), UdpLine(41641, Accept), UdpLine(9993, Accept)];
    IfacesWithin(names, TRUSTED, Accept);
    IfacesWithin(names, extra, Accept);
    FitAppend(names, a, IfaceLines(TRUSTED, Accept));
    FitAppend(names, a + IfaceLines(TRUSTED, Accept), b);
    FitAppend(names, a + IfaceLines(TRUSTED, Accept) + b, IfaceLines(extra, Accept));
  }

  lemma DockerWithin(names: set<string>, rs: RuleSet, extra: seq<string>)
    ensures LinesFit(Within(names), Prologue(DockerIn, rs, extra))
  {
    var a := [Line([ESTABLISHED], Jump(Return)), Line([SrcNet("127.0.0.0/8")], Jump(Return))];
    var b := if rs.hostIP != "" then [Line([SrcNet(rs.hostIP)], Jump(Return))] else [];
    IfacesWithin(names, TRUSTED_DOCKER, Return);
    IfacesWithin(names, extra, Return);
    FitAppend(names, a, b);
    FitAppend(names, a + b, IfaceLines(TRUSTED_DOCKER, Return));
    FitAppend(names, a + b + IfaceLines(TRUSTED_DOCKER, Return), IfaceLines(extra, Return));
  }

  lemma In6Within(names: set<string>, rs: RuleSet, extra: seq<string>)
    ensures LinesFit(Within(names), Prologue(In6, rs, extra))
  {
    var a := [Line([ESTABLISHED], Jump(Return)), Line([StateIn({Invalid})], Jump(Drop))];
    var b := [Line([ProtoIs(ICMPv6)], Jump(Return)), UdpLine(546, Return),
              Line([SrcNet("fe80::/10")], Jump(Return)), Line([SrcNet("ff00::/8")], Jump(Return))];
    IfacesWithin(names, TRUSTED, Return);
    IfacesWithin(names, extra, Return);
    FitAppend(names, a, IfaceLines(TRUSTED, Return));
    FitAppend(names, a + IfaceLines(TRUSTED, Return), IfaceLines(extra, Return));
    FitAppend(names, a + IfaceLines(TRUSTED, Return) + IfaceLines(extra, Return), b);
  }

  lemma PrologueWithin(k: Kind, names: set<string>, rs: RuleSet, extra: seq<string>)
    ensures LinesFit(Within(names), Prologue(k, rs, extra))
  {
    match k {
      case In => InWithin(names, rs, extra);
      case DockerIn => DockerWithin(names, rs, extra);
      case In6 => In6Within(names, rs, extra);
      case _ =>
    }
  }

  lemma EpilogueWithin(k: Kind, names: set<string>, rs: RuleSet)
    ensures LinesFit(Within(names), Epilogue(k, rs))
  {
  }

  /** The codes a job loads are those of its country rules at least, as
      CollectGeoCodes gathers them. */
  predicate Covers(j: Job) {
    forall c | c in GeoCodes(j.rs.rules) :: c in j.codes
  }

  lemma CompiledWithin(k: Kind, j: Job)
    requires Covers(j)
    ensures LinesFit(Within(NamesOf(j.codes)), j.Lines(k))
  {
    var names := NamesOf(j.codes);
    SortElements(j.rs.rules);
    forall r, c | r in j.Rl() && r.source.kind == CountrySource && c in SplitCountries(r.source.value)
      ensures SetName(c) in names
    {
      assert r in multiset(j.Rl());
      assert Lower(c) in GeoCodes(j.rs.rules);
      SetNamesApart(c, c);
    }
    SectionWithin(k, names, j.Rl(), j.published);
    PrologueWithin(k, names, j.rs, j.extra);
    EpilogueWithin(k, names, j.rs);
    FitAppend(names, Prologue(k, j.rs, j.extra), Section(k, j.Rl(), j.published));
    FitAppend(names, Prologue(k, j.rs, j.extra) + Section(k, j.Rl(), j.published), Epilogue(k, j.rs));
  }

  /** Both scripts load the set of every country a rule speaks of, before any line that
      names it. */
  lemma SetsLoadedFirst(j: Job)
    requires Covers(j)
    ensures LoadsFirst(BashScript(j)) && LoadsFirst(RestoreScript(j))
  {
    var q := j.Compiled6();
    ScriptsLoadFirstExact(q, j.codes);
    forall k ensures LinesFit(Within(NamesOf(j.codes)), q.Lines(k)) {
      CompiledWithin(k, j);
      PartsOfJob(k, j);
    }
  }

  lemma PartsOfJob(k: Kind, j: Job)
    ensures j.Compiled6().Lines(k) == j.Lines(k)
  {
  }

  // ----- a kernel that refuses unloaded sets -----

  /** The command puts in a line that names a set the kernel does not have. */
  ghost predicate Misses(c: Cmd, loaded: set<string>) {
    exists line :: Puts(c, line) && !Fits(Within(loaded), line.conds)
  }

  function LoadedBy(c: Cmd, loaded: set<string>): set<string> {
    if c.Must? && c.op.LoadSet? then loaded + {c.op.name} else loaded
  }

  /** A script on a kernel that has these sets, takes in those the script loads, and
      refuses every line that names another. */
  ghost function RunLoading(script: Script, tools: Tools, s: Kernel, loaded: set<string>, skipping: bool): Run {
    if script == [] then Run(true, s, skipping)
    else
      var c := script[0];
      var r := StepCmd(c, tools, s, skipping, Misses(c, loaded));
      if !r.ok then r
      else RunLoading(script[1..], tools, r.kernel, if skipping then loaded else LoadedBy(c, loaded), r.skipping)
  }

  lemma LoadStep(name: string, rest: Script, tools: Tools, s: Kernel, loaded: set<string>)
    ensures RunLoading([Must(LoadSet(name))] + rest, tools, s, loaded, false)
         == RunLoading(rest, tools, s, loaded + {name}, false)
  {
    var script := [Must(LoadSet(name))] + rest;
    assert script[0] == Must(LoadSet(name)) && script[1..] == rest;
    assert !Misses(script[0], loaded);
  }

  lemma {:induction false} LoadsRun(codes: seq<string>, rest: Script, tools: Tools, s: Kernel, loaded: set<string>)
    ensures RunLoading(GeoSection(codes) + rest, tools, s, loaded, false)
         == RunLoading(rest, tools, s, loaded + NamesOf(codes), false)
  {
    if codes == [] {
      assert GeoSection(codes) + rest == rest && loaded + NamesOf(codes) == loaded;
    } else {
      var load := Must(LoadSet(SetName(codes[0])));
      assert GeoSection(codes) + rest == [load] + (GeoSection(codes[1..]) + rest);
      LoadStep(SetName(codes[0]), GeoSection(codes[1..]) + rest, tools, s, loaded);
      LoadsRun(codes[1..], rest, tools, s, loaded + {SetName(codes[0])});
      assert codes == [codes[0]] + codes[1..];
      assert loaded + {SetName(codes[0])} + NamesOf(codes[1..]) == loaded + NamesOf(codes);
    }
  }

  lemma {:induction false} NothingMissed(
      script: Script, tools: Tools, s: Kernel, loaded: set<string>, skipping: bool)
    requires LoadsNone(script) && forall line | PutsSome(script, line) :: Fits(Within(loaded), line.conds)
    ensures RunLoading(script, tools, s, loaded, skipping) == Accepted(script, tools, s, skipping)
  {
    if script != [] {
      var c := script[0];
      assert c in script && !Loads(c) && forall x | x in script[1..] :: x in script;
      assert forall line | Puts(c, line) :: PutsSome(script, line);
      assert forall line | PutsSome(script[1..], line) :: PutsSome(script, line);
      var r := StepCmd(c, tools, s, skipping, false);
      if r.ok {
        NothingMissed(script[1..], tools, r.kernel, loaded, r.skipping);
        NoRejection(script[1..], tools, r.kernel, r.skipping, -2);
      }
    }
  }

  lemma WithinMore(names: set<string>, more: set<string>, lines: seq<Line>)
    requires LinesFit(Within(names), lines) && names <= more
    ensures LinesFit(Within(more), lines)
  {
    forall l, m | l in lines && m in l.conds ensures Within(more)(m) {
      assert Fits(Within(names), l.conds) && Within(names)(m);
    }
  }

  lemma RestRuns(q: Parts, codes: seq<string>, rest: Script, tools: Tools, s: Kernel, loaded: set<string>)
    requires PutsParts(rest, q) && LoadsNone(rest)
    requires forall k :: LinesFit(Within(NamesOf(codes)), q.Lines(k))
    ensures RunLoading(GeoSection(codes) + rest, tools, s, loaded, false)
         == Accepted(GeoSection(codes) + rest, tools, s, false)
  {
    var names := loaded + NamesOf(codes);
    forall line | PutsSome(rest, line) ensures Fits(Within(names), line.conds) {
      var k :| Written(k, q) && line in q.Lines(k);
      WithinMore(NamesOf(codes), names, q.Lines(k));
    }
    LoadsRun(codes, rest, tools, s, loaded);
    NothingMissed(rest, tools, s, names, false);
    RunGeo(codes, tools, s);
    Then(GeoSection(codes), rest, tools, s, false);
  }

  /** So on a kernel that refuses lines naming sets it has not loaded, whichever it has
      to begin with, both scripts run as on one that refuses nothing: all that is
      proved of accepted scripts holds there too. */
  lemma ScriptsRunLoaded(j: Job, tools: Tools, s: Kernel, loaded: set<string>)
    requires Covers(j)
    ensures RunLoading(BashScript(j), tools, s, loaded, false) == Accepted(BashScript(j), tools, s, false)
    ensures RunLoading(RestoreScript(j), tools, s, loaded, false) == Accepted(RestoreScript(j), tools, s, false)
  {
    var q := j.Compiled6();
    forall k ensures LinesFit(Within(NamesOf(j.codes)), q.Lines(k)) {
      CompiledWithin(k, j);
      PartsOfJob(k, j);
    }
    ScriptsAreLoadsThenRest(q, j.codes);
    BashPuts(q);
    RestorePuts(q);
    RestRuns(q, j.codes, BashRest(q), tools, s, loaded);
    RestRuns(q, j.codes, RestoreRest(q), tools, s, loaded);
  }

  lemma {:induction false} AppendsStop(
      c: Chain, lines: seq<Line>, rest: Script, tools: Tools, s: Kernel, loaded: set<string>)
    requires !LinesFit(Within(loaded), lines)
    ensures !RunLoading(Appends(false, c, lines) + rest, tools, s, loaded, false).ok
  {
    var script := Appends(false, c, lines) + rest;
    assert script[0] == Must(Append(false, c, lines[0]));
    if Fits(Within(loaded), lines[0].conds) {
      assert script[1..] == Appends(false, c, lines[1..]) + rest;
      assert forall l | l in lines :: l == lines[0] || l in lines[1..];
      var r := StepCmd(script[0], tools, s, false, Misses(script[0], loaded));
      if r.ok {
        AppendsStop(c, lines[1..], rest, tools, r.kernel, loaded);
      }
    } else {
      assert Puts(script[0], lines[0]);
    }
  }

  /** A set that is missing stops the apply: as soon as ZFW-IN names a country whose set
      is neither loaded by the script nor there already, neither script goes through. */
  lemma MissingSetStops(q: Parts, codes: seq<string>, tools: Tools, s: Kernel, loaded: set<string>)
    requires !LinesFit(Within(loaded + NamesOf(codes)), q.zfwIn)
    ensures !RunLoading(BashOf(q, codes), tools, s, loaded, false).ok
    ensures !RunLoading(RestoreOf(q, codes), tools, s, loaded, false).ok
  {
    var names := loaded + NamesOf(codes);
    ScriptsAreLoadsThenRest(q, codes);
    LoadsRun(codes, BashRest(q), tools, s, loaded);
    LoadsRun(codes, RestoreRest(q), tools, s, loaded);
    MissingStopsBash(q, tools, s, names);
    var line :| line in q.zfwIn && !Fits(Within(names), line.conds);
    DocsPut(q, line);
    assert Puts(RestoreRest(q)[0], line);
  }

  lemma MissingStopsBash(q: Parts, tools: Tools, s: Kernel, names: set<string>)
    requires !LinesFit(Within(names), q.zfwIn)
    ensures !RunLoading(BashRest(q), tools, s, names, false).ok
  {
    var c1, c2 := Try(NewChain(false, Own(In))), Must(FlushChain(false, Own(In)));
    var lines := Appends(false, Own(In), q.zfwIn);
    var after := [HookUp(In)] + DockerSection(q) + V6Section(q) + OutSection(q);
    BashHead(q, c1, c2, lines, after);
    var script := BashRest(q);
    assert script[0] == c1 && script[1..][0] == c2 && script[1..][1..] == lines + after;
    assert !Misses(c1, names) && !Misses(c2, names);
    var r1 := StepCmd(c1, tools, s, false, false);
    var r2 := StepCmd(c2, tools, r1.kernel, false, false);
    if r2.ok {
      AppendsStop(Own(In), q.zfwIn, after, tools, r2.kernel, names);
    }
  }

  lemma BashHead(q: Parts, c1: Cmd, c2: Cmd, lines: Script, after: Script)
    requires c1 == Try(NewChain(false, Own(In))) && c2 == Must(FlushChain(false, Own(In)))
    requires lines == Appends(false, Own(In), q.zfwIn)
    requires after == [HookUp(In)] + DockerSection(q) + V6Section(q) + OutSection(q)
    ensures BashRest(q) == [c1, c2] + (lines + after)
  {
  }
}
