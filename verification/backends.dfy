/** The two back ends are one transformer of the filter tables: from any tables,
    the bash script and the restore script end in the same state. */
module BackEnds {
  import opened Text
  import opened Rules
  import opened Netfilter
  import opened RuleLines
  import opened Ordering
  import opened Tables
  import opened Scripts

  /** A script of which the kernel refuses nothing. */
  function Accepted(script: Script, tools: Tools, s: Kernel, skipping: bool): Run {
    RunScript(script, tools, s, skipping, -1)
  }

  predicate HasBuiltins(s: Kernel) {
    && Input in s.v4 && Output in s.v4 && Forward in s.v4
    && Input in s.v6 && Output in s.v6 && Forward in s.v6
  }

  // ----- the intended tables -----

  function Hooked(es: seq<Entry>, to: Chain): seq<Entry> {
    if Hook(to) in es then es else [Hook(to)] + es
  }

  /** The ZFW chains and DOCKER-USER holding the compiled lines. */
  function Fill4(q: Parts, t: Table): Table {
    var t2 := t[Own(In) := Entries(q.zfwIn)][Own(DockerIn) := Entries(q.docker)];
    var t3 := if q.hostOut then t2[Own(Out) := Entries(q.zfwOut)] else t2;
    if q.dockerOut then t3[Own(FwdOut) := Entries(q.fwdOut)] else t3
  }

  function Fill6(q: Parts, t: Table): Table {
    var t1 := t[Own(In6) := Entries(q.zfwIn6)];
    if q.hostOut then t1[Own(Out6) := Entries(q.zfwOut6)] else t1
  }

  /** One jump to each installed chain in front of its parent, unless it is there. */
  function Hooks4(q: Parts, t: Table): Table
    requires Input in t && Output in t && Forward in t
  {
    var t1 := t[Input := Hooked(t[Input], Own(In))];
    var t2 := if q.hostOut then t1[Output := Hooked(t[Output], Own(Out))] else t1;
    if q.dockerOut then t2[Forward := Hooked(t[Forward], Own(FwdOut))] else t2
  }

  function Hooks6(q: Parts, t: Table): Table
    requires Input in t && Output in t
  {
    var t1 := t[Input := Hooked(t[Input], Own(In6))];
    if q.hostOut then t1[Output := Hooked(t[Output], Own(Out6))] else t1
  }

  /** A table with the job installed: chains replaced, hooks in place, nothing
      else touched. */
  function Install4(q: Parts, t: Table): Table
    requires Input in t && Output in t && Forward in t
  {
    Hooks4(q, Fill4(q, t))
  }

  function Install6(q: Parts, t: Table): Table
    requires Input in t && Output in t
  {
    Hooks6(q, Fill6(q, t))
  }

  function Installed(q: Parts, tools: Tools, s: Kernel): Kernel
    requires HasBuiltins(s)
  {
    Kernel(Install4(q, s.v4), if tools.ip6tables then Install6(q, s.v6) else s.v6)
  }

  /** What the bash script makes of a host: a missing DOCKER-USER stays missing,
      everything else is installed. */
  function InstalledBash(q: Parts, tools: Tools, s: Kernel): Kernel
    requires HasBuiltins(s)
  {
    var i := Installed(q, tools, s);
    if Own(DockerIn) in s.v4 then i else Kernel(i.v4 - {Own(DockerIn)}, i.v6)
  }

  /** What an accepted restore script makes of a host: the IPv6 chains are filled
      by one tool and hooked by the other. */
  function Restored(q: Parts, tools: Tools, s: Kernel): Kernel
    requires HasBuiltins(s)
  {
    var filled := if tools.ip6restore then Fill6(q, s.v6) else s.v6;
    Kernel(Install4(q, s.v4), if tools.ip6tables then Hooks6(q, filled) else filled)
  }

  /** `-C || -I` goes through: the jump is there or its target is. */
  predicate Hookable(t: Table, k: Kind) {
    Parent(k) in t && (Hook(Own(k)) in t[Parent(k)] || Own(k) in t)
  }

  /** Nothing stops the restore script but an IPv6 chain to hook that only the
      missing ip6tables-restore would have made. */
  predicate RestoreWorks(q: Parts, tools: Tools, s: Kernel) {
    tools.ip6tables && !tools.ip6restore ==> Hookable(s.v6, In6) && (q.hostOut ==> Hookable(s.v6, Out6))
  }

  // ----- running pieces -----

  lemma {:induction false} NoRejection(script: Script, tools: Tools, s: Kernel, skipping: bool, n: int)
    requires n < 0
    ensures RunScript(script, tools, s, skipping, n) == Accepted(script, tools, s, skipping)
  {
    if script != [] {
      var r := StepCmd(script[0], tools, s, skipping, false);
      if r.ok {
        NoRejection(script[1..], tools, r.kernel, r.skipping, n - 1);
        NoRejection(script[1..], tools, r.kernel, r.skipping, -2);
      }
    }
  }

  lemma Then(a: Script, b: Script, tools: Tools, s: Kernel, skipping: bool)
    ensures var r := Accepted(a, tools, s, skipping);
            Accepted(a + b, tools, s, skipping) == if r.ok then Accepted(b, tools, r.kernel, r.skipping) else r
  {
    RunConcat(a, b, tools, s, skipping, -1);
    var r := Accepted(a, tools, s, skipping);
    NoRejection(b, tools, r.kernel, r.skipping, -1 - |a|);
  }

  lemma One(c: Cmd, tools: Tools, s: Kernel, skipping: bool)
    ensures Accepted([c], tools, s, skipping) == StepCmd(c, tools, s, skipping, false)
  {
    RunOne(c, tools, s, skipping, -1);
  }

  lemma {:induction false} Skipped(script: Script, tools: Tools, s: Kernel)
    requires EndIf !in script
    ensures Accepted(script, tools, s, true) == Run(true, s, true)
  {
    if script != [] {
      Skipped(script[1..], tools, s);
      NoRejection(script[1..], tools, s, true, -2);
    }
  }

  /** An `if` block whose test fails does nothing. */
  lemma SkippedBlock(c: Cmd, body: Script, tools: Tools, s: Kernel)
    requires (c.IfChain? || c.IfIp6tables? || c.IfIp6restore?) && !Taken(c, tools, s) && EndIf !in body
    ensures Accepted([c] + body + [EndIf], tools, s, false) == Run(true, s, false)
  {
    One(c, tools, s, false);
    Then([c], body, tools, s, false);
    Skipped(body, tools, s);
    Then([c] + body, [EndIf], tools, s, false);
    One(EndIf, tools, s, true);
  }

  /** An `if` block whose test succeeds is its body. */
  lemma TakenBlock(c: Cmd, body: Script, tools: Tools, s: Kernel)
    requires (c.IfChain? || c.IfIp6tables? || c.IfIp6restore?) && Taken(c, tools, s)
    requires var r := Accepted(body, tools, s, false); r.ok
    ensures Accepted([c] + body + [EndIf], tools, s, false) == Run(true, Accepted(body, tools, s, false).kernel, false)
  {
    One(c, tools, s, false);
    Then([c], body, tools, s, false);
    Then([c] + body, [EndIf], tools, s, false);
    var r := Accepted(body, tools, s, false);
    One(EndIf, tools, r.kernel, r.skipping);
  }

  function SetChain(s: Kernel, k: Kind, lines: seq<Line>): Kernel {
    s.With(k.IsV6(), s.Of(k.IsV6())[Own(k) := Entries(lines)])
  }

  function AddHook(s: Kernel, k: Kind): Kernel
    requires Parent(k) in s.Of(k.IsV6())
  {
    s.With(k.IsV6(), s.Of(k.IsV6())[Parent(k) := Hooked(s.Of(k.IsV6())[Parent(k)], Own(k))])
  }

  lemma FlushAndFill(k: Kind, lines: seq<Line>, tools: Tools, s: Kernel)
    requires Own(k) in s.Of(k.IsV6())
    ensures Accepted([Must(FlushChain(k.IsV6(), Own(k)))] + Appends(k.IsV6(), Own(k), lines), tools, s, false)
         == Run(true, SetChain(s, k, lines), false)
  {
    var f, c := k.IsV6(), Own(k);
    var flushed := s.With(f, s.Of(f)[c := []]);
    One(Must(FlushChain(f, c)), tools, s, false);
    Then([Must(FlushChain(f, c))], Appends(f, c, lines), tools, s, false);
    RunAppends(f, c, lines, tools, flushed);
    assert [] + Entries(lines) == Entries(lines);
    assert flushed.Of(f)[c := Entries(lines)] == s.Of(f)[c := Entries(lines)];
  }

  lemma PopulateParts(k: Kind, lines: seq<Line>)
    ensures var f, c := k.IsV6(), Own(k);
            Populate(k, lines) == [Try(NewChain(f, c))] + ([Must(FlushChain(f, c))] + Appends(f, c, lines))
  {
  }

  lemma RunPopulate(k: Kind, lines: seq<Line>, tools: Tools, s: Kernel)
    ensures Accepted(Populate(k, lines), tools, s, false) == Run(true, SetChain(s, k, lines), false)
  {
    var f, c := k.IsV6(), Own(k);
    var made := if c in s.Of(f) then s else s.With(f, s.Of(f)[c := []]);
    One(Try(NewChain(f, c)), tools, s, false);
    var rest := [Must(FlushChain(f, c))] + Appends(f, c, lines);
    Then([Try(NewChain(f, c))], rest, tools, s, false);
    PopulateParts(k, lines);
    FlushAndFill(k, lines, tools, made);
    assert made.Of(f)[c := Entries(lines)] == s.Of(f)[c := Entries(lines)];
  }

  lemma RunHook(k: Kind, tools: Tools, s: Kernel)
    requires Parent(k) in s.Of(k.IsV6())
    ensures Accepted([HookUp(k)], tools, s, false)
         == if Hookable(s.Of(k.IsV6()), k) then Run(true, AddHook(s, k), false) else Run(false, s, false)
  {
    One(HookUp(k), tools, s, false);
    var t := s.Of(k.IsV6());
    if Hook(Own(k)) in t[Parent(k)] {
      assert t[Parent(k) := t[Parent(k)]] == t;
    }
  }

  lemma PopulateAndHook(k: Kind, lines: seq<Line>, tools: Tools, s: Kernel)
    requires k != DockerIn && Parent(k) in s.Of(k.IsV6())
    ensures Accepted(Populate(k, lines) + [HookUp(k)], tools, s, false)
         == Run(true, AddHook(SetChain(s, k, lines), k), false)
  {
    RunPopulate(k, lines, tools, s);
    Then(Populate(k, lines), [HookUp(k)], tools, s, false);
    RunHook(k, tools, SetChain(s, k, lines));
  }

  lemma {:induction false} RunGeo(codes: seq<string>, tools: Tools, s: Kernel)
    ensures Accepted(GeoSection(codes), tools, s, false) == Run(true, s, false)
  {
    if codes != [] {
      RunGeo(codes[1..], tools, s);
      assert GeoSection(codes)[1..] == GeoSection(codes[1..]);
      NoRejection(GeoSection(codes[1..]), tools, s, false, -2);
    }
  }

  // ----- the bash script -----

  lemma NoEndIfIn(k: Kind, lines: seq<Line>)
    ensures EndIf !in Appends(k.IsV6(), Own(k), lines)
    ensures EndIf !in Populate(k, lines)
  {
  }

  /** An IPv6 chain, populated and hooked when the host has ip6tables. */
  lemma RunV6Block(k: Kind, lines: seq<Line>, tools: Tools, s: Kernel)
    requires k.IsV6() && Parent(k) in s.v6
    ensures Accepted([IfIp6tables] + Populate(k, lines) + [HookUp(k), EndIf], tools, s, false)
         == Run(true, if tools.ip6tables then AddHook(SetChain(s, k, lines), k) else s, false)
  {
    var body := Populate(k, lines) + [HookUp(k)];
    assert [IfIp6tables] + Populate(k, lines) + [HookUp(k), EndIf] == [IfIp6tables] + body + [EndIf];
    NoEndIfIn(k, lines);
    if tools.ip6tables {
      PopulateAndHook(k, lines, tools, s);
      TakenBlock(IfIp6tables, body, tools, s);
    } else {
      SkippedBlock(IfIp6tables, body, tools, s);
    }
  }

  lemma RunDockerSection(q: Parts, tools: Tools, s: Kernel)
    ensures Accepted(DockerSection(q), tools, s, false)
         == Run(true, if Own(DockerIn) in s.v4 then SetChain(s, DockerIn, q.docker) else s, false)
  {
    var c, lines := Own(DockerIn), q.docker;
    var body := [Must(FlushChain(false, c))] + Appends(false, c, lines);
    assert DockerSection(q) == [IfChain(c)] + body + [EndIf];
    NoEndIfIn(DockerIn, lines);
    if c in s.v4 {
      FlushAndFill(DockerIn, lines, tools, s);
      TakenBlock(IfChain(c), body, tools, s);
    } else {
      SkippedBlock(IfChain(c), body, tools, s);
    }
  }

  /** The tables after the inbound half. */
  function AfterIn(q: Parts, tools: Tools, s: Kernel): Kernel
    requires HasBuiltins(s)
  {
    var s1 := AddHook(SetChain(s, In, q.zfwIn), In);
    var s2 := if Own(DockerIn) in s.v4 then SetChain(s1, DockerIn, q.docker) else s1;
    if tools.ip6tables then AddHook(SetChain(s2, In6, q.zfwIn6), In6) else s2
  }

  function AfterOut(q: Parts, tools: Tools, s: Kernel): Kernel
    requires HasBuiltins(s)
  {
    var s1 := if q.hostOut then AddHook(SetChain(s, Out, q.zfwOut), Out) else s;
    var s2 := if q.hostOut && tools.ip6tables then AddHook(SetChain(s1, Out6, q.zfwOut6), Out6) else s1;
    if q.dockerOut then AddHook(SetChain(s2, FwdOut, q.fwdOut), FwdOut) else s2
  }

  lemma RunInbound(q: Parts, codes: seq<string>, tools: Tools, s: Kernel)
    requires HasBuiltins(s)
    ensures Accepted(GeoSection(codes) + HostSection(q) + DockerSection(q) + V6Section(q), tools, s, false)
         == Run(true, AfterIn(q, tools, s), false)
  {
    var g, h, d, v := GeoSection(codes), HostSection(q), DockerSection(q), V6Section(q);
    RunGeo(codes, tools, s);
    Then(g, h, tools, s, false);
    PopulateAndHook(In, q.zfwIn, tools, s);
    var s1 := AddHook(SetChain(s, In, q.zfwIn), In);
    Then(g + h, d, tools, s, false);
    RunDockerSection(q, tools, s1);
    var s2 := if Own(DockerIn) in s.v4 then SetChain(s1, DockerIn, q.docker) else s1;
    Then(g + h + d, v, tools, s, false);
    RunV6Block(In6, q.zfwIn6, tools, s2);
  }

  lemma HostOutParts(q: Parts, p1: Script, p2: Script)
    requires p1 == Populate(Out, q.zfwOut) + [HookUp(Out)]
    requires p2 == [IfIp6tables] + Populate(Out6, q.zfwOut6) + [HookUp(Out6), EndIf]
    ensures HostOutSection(q) == p1 + p2
  {
  }

  lemma RunOutbound(q: Parts, tools: Tools, s: Kernel)
    requires HasBuiltins(s)
    ensures Accepted(OutSection(q), tools, s, false) == Run(true, AfterOut(q, tools, s), false)
  {
    var h := if q.hostOut then HostOutSection(q) else [];
    var d := if q.dockerOut then DockerOutSection(q) else [];
    Then(h, d, tools, s, false);
    var s2 := s;
    if q.hostOut {
      var p1 := Populate(Out, q.zfwOut) + [HookUp(Out)];
      var p2 := [IfIp6tables] + Populate(Out6, q.zfwOut6) + [HookUp(Out6), EndIf];
      HostOutParts(q, p1, p2);
      PopulateAndHook(Out, q.zfwOut, tools, s);
      Then(p1, p2, tools, s, false);
      var s1 := AddHook(SetChain(s, Out, q.zfwOut), Out);
      RunV6Block(Out6, q.zfwOut6, tools, s1);
      s2 := if tools.ip6tables then AddHook(SetChain(s1, Out6, q.zfwOut6), Out6) else s1;
    }
    if q.dockerOut {
      PopulateAndHook(FwdOut, q.fwdOut, tools, s2);
    }
  }

  function In4(q: Parts, t: Table): Table
    requires Input in t
  {
    var t1 := t[Own(In) := Entries(q.zfwIn)][Input := Hooked(t[Input], Own(In))];
    if Own(DockerIn) in t then t1[Own(DockerIn) := Entries(q.docker)] else t1
  }

  function In6Table(q: Parts, t: Table): Table
    requires Input in t
  {
    t[Own(In6) := Entries(q.zfwIn6)][Input := Hooked(t[Input], Own(In6))]
  }

  function Out4(q: Parts, t: Table): Table
    requires Output in t && Forward in t
  {
    var t1 := if q.hostOut then t[Own(Out) := Entries(q.zfwOut)][Output := Hooked(t[Output], Own(Out))] else t;
    if q.dockerOut then t1[Own(FwdOut) := Entries(q.fwdOut)][Forward := Hooked(t[Forward], Own(FwdOut))] else t1
  }

  function Out6Table(q: Parts, t: Table): Table
    requires Output in t
  {
    if q.hostOut then t[Own(Out6) := Entries(q.zfwOut6)][Output := Hooked(t[Output], Own(Out6))] else t
  }

  lemma AfterInTables(q: Parts, tools: Tools, s: Kernel)
    requires HasBuiltins(s)
    ensures AfterIn(q, tools, s) == Kernel(In4(q, s.v4), if tools.ip6tables then In6Table(q, s.v6) else s.v6)
  {
  }

  lemma AfterOutTables(q: Parts, tools: Tools, s: Kernel)
    requires HasBuiltins(s)
    ensures AfterOut(q, tools, s) == Kernel(Out4(q, s.v4), if tools.ip6tables then Out6Table(q, s.v6) else s.v6)
  {
  }

  lemma InThenOut4(q: Parts, t: Table)
    requires Input in t && Output in t && Forward in t
    ensures Out4(q, In4(q, t)) == if Own(DockerIn) in t then Install4(q, t) else Install4(q, t) - {Own(DockerIn)}
  {
  }

  lemma InThenOut6(q: Parts, t: Table)
    requires Input in t && Output in t
    ensures Out6Table(q, In6Table(q, t)) == Install6(q, t)
  {
  }

  /** From any tables the bash script goes through and installs the job; where
      DOCKER-USER is missing it installs everything else. */
  lemma BashInstalls(q: Parts, codes: seq<string>, tools: Tools, s: Kernel)
    requires HasBuiltins(s)
    ensures Accepted(BashOf(q, codes), tools, s, false) == Run(true, InstalledBash(q, tools, s), false)
  {
    var front := GeoSection(codes) + HostSection(q) + DockerSection(q) + V6Section(q);
    var mid := AfterIn(q, tools, s);
    RunInbound(q, codes, tools, s);
    AfterInTables(q, tools, s);
    Then(front, OutSection(q), tools, s, false);
    RunOutbound(q, tools, mid);
    AfterOutTables(q, tools, mid);
    InThenOut4(q, s.v4);
    InThenOut6(q, s.v6);
  }

  // ----- the restore script -----

  lemma {:induction false} AppendAllConcat(t: Table, a: seq<(Chain, Line)>, b: seq<(Chain, Line)>)
    ensures var r := AppendAll(t, a);
            AppendAll(t, a + b) == if r.None? then None else AppendAll(r.value, b)
  {
    if b == [] {
      assert a + b == a;
    } else {
      assert (a + b)[..|a + b| - 1] == a + b[..|b| - 1];
      AppendAllConcat(t, a, b[..|b| - 1]);
    }
  }

  lemma {:induction false} AppendTagged(t: Table, k: Kind, lines: seq<Line>)
    requires Own(k) in t
    ensures AppendAll(t, Tagged(k, lines)) == Some(t[Own(k) := t[Own(k)] + Entries(lines)])
  {
    var c := Own(k);
    if lines == [] {
      assert t[c] + Entries(lines) == t[c] && t[c := t[c]] == t;
    } else {
      var n := |lines| - 1;
      AppendTagged(t, k, lines[..n]);
      assert Tagged(k, lines) == Tagged(k, lines[..n]) + [(c, lines[n])];
      assert (Tagged(k, lines[..n]) + [(c, lines[n])])[..n] == Tagged(k, lines[..n]);
      assert t[c] + Entries(lines) == t[c] + Entries(lines[..n]) + [Mine(lines[n])];
      var front := t[c := t[c] + Entries(lines[..n])];
      assert front[c := t[c] + Entries(lines)] == t[c := t[c] + Entries(lines)];
    }
  }

  /** Declared empty, then filled. */
  lemma FillDeclared(t: Table, k: Kind, lines: seq<Line>, rest: seq<(Chain, Line)>)
    requires Own(k) in t && t[Own(k)] == []
    ensures AppendAll(t, Tagged(k, lines) + rest) == AppendAll(t[Own(k) := Entries(lines)], rest)
  {
    AppendTagged(t, k, lines);
    AppendAllConcat(t, Tagged(k, lines), rest);
    assert [] + Entries(lines) == Entries(lines);
  }

  lemma {:induction false} DeclareMeaning(t: Table, chains: seq<Chain>)
    ensures forall c :: c in Declare(t, chains) <==> c in t || c in chains
    ensures forall c :: c in Declare(t, chains) ==>
      Declare(t, chains)[c] == if c in chains then [] else t[c]
  {
    if chains != [] {
      DeclareMeaning(t, chains[..|chains| - 1]);
      assert chains == chains[..|chains| - 1] + [chains[|chains| - 1]];
    }
  }

  predicate EmptyThere(t: Table, k: Kind) {
    Own(k) in t && t[Own(k)] == []
  }

  lemma FillAll4(q: Parts, t: Table)
    requires EmptyThere(t, In) && EmptyThere(t, DockerIn)
    requires q.hostOut ==> EmptyThere(t, Out)
    requires q.dockerOut ==> EmptyThere(t, FwdOut)
    ensures AppendAll(t, V4Doc(q).appends) == Some(Fill4(q, t))
  {
    var hp := if q.hostOut then Tagged(Out, q.zfwOut) else [];
    var dp := if q.dockerOut then Tagged(FwdOut, q.fwdOut) else [];
    assert V4Doc(q).appends == Tagged(In, q.zfwIn) + (Tagged(DockerIn, q.docker) + (hp + dp));
    FillDeclared(t, In, q.zfwIn, Tagged(DockerIn, q.docker) + (hp + dp));
    var t1 := t[Own(In) := Entries(q.zfwIn)];
    FillDeclared(t1, DockerIn, q.docker, hp + dp);
    var t2 := t1[Own(DockerIn) := Entries(q.docker)];
    if q.hostOut {
      FillDeclared(t2, Out, q.zfwOut, dp);
    } else {
      assert hp + dp == dp;
    }
    var t3 := if q.hostOut then t2[Own(Out) := Entries(q.zfwOut)] else t2;
    if q.dockerOut {
      assert dp + [] == dp;
      FillDeclared(t3, FwdOut, q.fwdOut, []);
    }
  }

  /** d is t with the chains of cs created or emptied. */
  ghost predicate Emptied(t: Table, d: Table, cs: set<Chain>) {
    && (forall c :: c in d <==> c in t || c in cs)
    && (forall c :: c in d ==> d[c] == if c in cs then [] else t[c])
  }

  function DocChains4(q: Parts): set<Chain> {
    {Own(In), Own(DockerIn)} + (if q.hostOut then {Own(Out)} else {}) + (if q.dockerOut then {Own(FwdOut)} else {})
  }

  function DocChains6(q: Parts): set<Chain> {
    {Own(In6)} + if q.hostOut then {Own(Out6)} else {}
  }

  lemma DeclaredChains(t: Table, chains: seq<Chain>, cs: set<Chain>)
    requires forall c :: c in chains <==> c in cs
    ensures Emptied(t, Declare(t, chains), cs)
  {
    DeclareMeaning(t, chains);
  }

  lemma Declared4(q: Parts, t: Table)
    ensures Emptied(t, Declare(t, V4Doc(q).chains), DocChains4(q))
  {
    DeclaredChains(t, V4Doc(q).chains, DocChains4(q));
  }

  lemma Declared6(q: Parts, t: Table)
    ensures Emptied(t, Declare(t, V6Doc(q).chains), DocChains6(q))
  {
    DeclaredChains(t, V6Doc(q).chains, DocChains6(q));
  }

  lemma FillForgets4(q: Parts, t: Table, d: Table)
    requires Emptied(t, d, DocChains4(q))
    ensures Fill4(q, d) == Fill4(q, t)
  {
  }

  lemma RunV4Doc(q: Parts, s: Kernel)
    ensures Exec(Restore(false, V4Doc(q)), s) == Some(Kernel(Fill4(q, s.v4), s.v6))
  {
    var d := Declare(s.v4, V4Doc(q).chains);
    Declared4(q, s.v4);
    FillAll4(q, d);
    FillForgets4(q, s.v4, d);
  }

  lemma FillAll6(q: Parts, t: Table)
    requires EmptyThere(t, In6) && (q.hostOut ==> EmptyThere(t, Out6))
    ensures AppendAll(t, V6Doc(q).appends) == Some(Fill6(q, t))
  {
    var hp := if q.hostOut then Tagged(Out6, q.zfwOut6) else [];
    FillDeclared(t, In6, q.zfwIn6, hp);
    if q.hostOut {
      assert hp + [] == hp;
      FillDeclared(t[Own(In6) := Entries(q.zfwIn6)], Out6, q.zfwOut6, []);
    }
  }

  lemma FillForgets6(q: Parts, t: Table, d: Table)
    requires Emptied(t, d, DocChains6(q))
    ensures Fill6(q, d) == Fill6(q, t)
  {
  }

  lemma RunV6Doc(q: Parts, s: Kernel)
    ensures Exec(Restore(true, V6Doc(q)), s) == Some(Kernel(s.v4, Fill6(q, s.v6)))
  {
    var d := Declare(s.v6, V6Doc(q).chains);
    Declared6(q, s.v6);
    FillAll6(q, d);
    FillForgets6(q, s.v6, d);
  }

  lemma RunV6Hook(k: Kind, tools: Tools, s: Kernel)
    requires k.IsV6() && Parent(k) in s.v6
    ensures Accepted([IfIp6tables, HookUp(k), EndIf], tools, s, false)
         == if tools.ip6tables && !Hookable(s.v6, k) then Run(false, s, false)
            else Run(true, if tools.ip6tables then AddHook(s, k) else s, false)
  {
    assert [IfIp6tables, HookUp(k), EndIf] == [IfIp6tables] + [HookUp(k)] + [EndIf];
    if tools.ip6tables {
      RunHook(k, tools, s);
      if Hookable(s.v6, k) {
        TakenBlock(IfIp6tables, [HookUp(k)], tools, s);
      } else {
        One(IfIp6tables, tools, s, false);
        Then([IfIp6tables], [HookUp(k)], tools, s, false);
        Then([IfIp6tables] + [HookUp(k)], [EndIf], tools, s, false);
      }
    } else {
      SkippedBlock(IfIp6tables, [HookUp(k)], tools, s);
    }
  }

  predicate ChainsThere(q: Parts, s: Kernel) {
    Own(In) in s.v4 && (q.hostOut ==> Own(Out) in s.v4) && (q.dockerOut ==> Own(FwdOut) in s.v4)
  }

  predicate HooksGoThrough(q: Parts, tools: Tools, s: Kernel) {
    tools.ip6tables ==> Hookable(s.v6, In6) && (q.hostOut ==> Hookable(s.v6, Out6))
  }

  /** The tables where the hooks of the restore script stop. */
  function HooksUntilFailure(q: Parts, s: Kernel): Kernel
    requires HasBuiltins(s)
  {
    var s1 := AddHook(s, In);
    if !Hookable(s.v6, In6) then s1 else AddHook(AddHook(s1, In6), Out)
  }

  function HookAll(q: Parts, tools: Tools, s: Kernel): Kernel
    requires HasBuiltins(s)
  {
    var s1 := AddHook(s, In);
    var s2 := if tools.ip6tables then AddHook(s1, In6) else s1;
    var s3 := if q.hostOut then AddHook(s2, Out) else s2;
    var s4 := if q.hostOut && tools.ip6tables then AddHook(s3, Out6) else s3;
    if q.dockerOut then AddHook(s4, FwdOut) else s4
  }

  lemma HookPieces(q: Parts)
    ensures RestoreHooks(q) == [HookUp(In)] + [IfIp6tables, HookUp(In6), EndIf]
      + (if q.hostOut then [HookUp(Out)] else [])
      + (if q.hostOut then [IfIp6tables, HookUp(Out6), EndIf] else [])
      + (if q.dockerOut then [HookUp(FwdOut)] else [])
  {
  }

  lemma RunHooks(q: Parts, tools: Tools, s: Kernel)
    requires HasBuiltins(s) && ChainsThere(q, s) && HooksGoThrough(q, tools, s)
    ensures Accepted(RestoreHooks(q), tools, s, false) == Run(true, HookAll(q, tools, s), false)
  {
    var a, b := [HookUp(In)], [IfIp6tables, HookUp(In6), EndIf];
    var c := if q.hostOut then [HookUp(Out)] else [];
    var d := if q.hostOut then [IfIp6tables, HookUp(Out6), EndIf] else [];
    var e := if q.dockerOut then [HookUp(FwdOut)] else [];
    HookPieces(q);
    RunHook(In, tools, s);
    Then(a, b, tools, s, false);
    var s1 := AddHook(s, In);
    RunV6Hook(In6, tools, s1);
    var s2 := if tools.ip6tables then AddHook(s1, In6) else s1;
    Then(a + b, c, tools, s, false);
    if q.hostOut {
      RunHook(Out, tools, s2);
    }
    var s3 := if q.hostOut then AddHook(s2, Out) else s2;
    Then(a + b + c, d, tools, s, false);
    if q.hostOut {
      RunV6Hook(Out6, tools, s3);
    }
    var s4 := if q.hostOut && tools.ip6tables then AddHook(s3, Out6) else s3;
    Then(a + b + c + d, e, tools, s, false);
    if q.dockerOut {
      RunHook(FwdOut, tools, s4);
    }
  }

  lemma HooksStop(q: Parts, tools: Tools, s: Kernel)
    requires HasBuiltins(s) && ChainsThere(q, s) && !HooksGoThrough(q, tools, s)
    ensures Accepted(RestoreHooks(q), tools, s, false) == Run(false, HooksUntilFailure(q, s), false)
  {
    var a, b := [HookUp(In)], [IfIp6tables, HookUp(In6), EndIf];
    var c := if q.hostOut then [HookUp(Out)] else [];
    var d := if q.hostOut then [IfIp6tables, HookUp(Out6), EndIf] else [];
    var e := if q.dockerOut then [HookUp(FwdOut)] else [];
    HookPieces(q);
    RunHook(In, tools, s);
    Then(a, b, tools, s, false);
    var s1 := AddHook(s, In);
    RunV6Hook(In6, tools, s1);
    Then(a + b, c, tools, s, false);
    Then(a + b + c, d, tools, s, false);
    Then(a + b + c + d, e, tools, s, false);
    if Hookable(s.v6, In6) {
      var s2 := AddHook(s1, In6);
      RunHook(Out, tools, s2);
      RunV6Hook(Out6, tools, AddHook(s2, Out));
    }
  }

  lemma HookAllTables(q: Parts, tools: Tools, s: Kernel)
    requires HasBuiltins(s)
    ensures HookAll(q, tools, s) == Kernel(Hooks4(q, s.v4), if tools.ip6tables then Hooks6(q, s.v6) else s.v6)
  {
  }

  /** Where the restore script stops when a hook fails: everything filled in IPv4,
      nothing in IPv6, the hooks made so far. */
  function RestoreStopped(q: Parts, s: Kernel): Kernel
    requires HasBuiltins(s)
  {
    HooksUntilFailure(q, Kernel(Fill4(q, s.v4), s.v6))
  }

  /** The restore script on any host: it creates DOCKER-USER if need be, and goes
      through unless ip6tables is to hook an IPv6 chain that is not there because
      ip6tables-restore is missing. */
  lemma RestoreInstalls(q: Parts, codes: seq<string>, tools: Tools, s: Kernel)
    requires HasBuiltins(s)
    ensures Accepted(RestoreOf(q, codes), tools, s, false)
         == if RestoreWorks(q, tools, s) then Run(true, Restored(q, tools, s), false)
            else Run(false, RestoreStopped(q, s), false)
    ensures tools.ip6tables == tools.ip6restore ==>
      RestoreWorks(q, tools, s) && Restored(q, tools, s) == Installed(q, tools, s)
  {
    var g := GeoSection(codes);
    var r4, r6 := Must(Restore(false, V4Doc(q))), Must(Restore(true, V6Doc(q)));
    var s1 := Kernel(Fill4(q, s.v4), s.v6);
    var s2 := if tools.ip6restore then Kernel(s1.v4, Fill6(q, s1.v6)) else s1;
    RestoreTail(q, codes, r4, r6);
    RunGeo(codes, tools, s);
    Then(g, [r4], tools, s, false);
    RunV4Doc(q, s);
    One(r4, tools, s, false);
    Then(g + [r4], [IfIp6restore, r6, EndIf], tools, s, false);
    RunV6Restore(q, tools, s1);
    Then(g + [r4] + [IfIp6restore, r6, EndIf], RestoreHooks(q), tools, s, false);
    WorksIsGoThrough(q, tools, s);
    if RestoreWorks(q, tools, s) {
      RunHooks(q, tools, s2);
      HookAllTables(q, tools, s2);
    } else {
      HooksStop(q, tools, s2);
    }
  }

  lemma RestoreTail(q: Parts, codes: seq<string>, r4: Cmd, r6: Cmd)
    requires r4 == Must(Restore(false, V4Doc(q))) && r6 == Must(Restore(true, V6Doc(q)))
    ensures RestoreOf(q, codes) == GeoSection(codes) + [r4] + [IfIp6restore, r6, EndIf] + RestoreHooks(q)
  {
  }

  lemma WorksIsGoThrough(q: Parts, tools: Tools, s: Kernel)
    requires HasBuiltins(s)
    ensures var filled := Kernel(Fill4(q, s.v4), if tools.ip6restore then Fill6(q, s.v6) else s.v6);
            && HasBuiltins(filled) && ChainsThere(q, filled)
            && (RestoreWorks(q, tools, s) <==> HooksGoThrough(q, tools, filled))
  {
  }

  lemma RunV6Restore(q: Parts, tools: Tools, s: Kernel)
    ensures Accepted([IfIp6restore, Must(Restore(true, V6Doc(q))), EndIf], tools, s, false)
         == Run(true, if tools.ip6restore then Kernel(s.v4, Fill6(q, s.v6)) else s, false)
  {
    var r6 := Must(Restore(true, V6Doc(q)));
    assert [IfIp6restore, r6, EndIf] == [IfIp6restore] + [r6] + [EndIf];
    RunV6Doc(q, s);
    One(r6, tools, s, false);
    if tools.ip6restore {
      TakenBlock(IfIp6restore, [r6], tools, s);
    } else {
      SkippedBlock(IfIp6restore, [r6], tools, s);
    }
  }

  /** The IPv6 table already holds the compiled IPv6 chains. */
  predicate Holds6(q: Parts, t: Table) {
    && Own(In6) in t && t[Own(In6)] == Entries(q.zfwIn6)
    && (q.hostOut ==> Own(Out6) in t && t[Own(Out6)] == Entries(q.zfwOut6))
  }

  /** The two back ends on any host. Bash always goes through. Where restore does
      too, they agree exactly when DOCKER-USER exists (bash leaves a missing one
      out, restore creates it) and, on a host with one IPv6 tool alone, the IPv6
      chains already hold the compiled lines. */
  lemma BackEndsAgree(j: Job, tools: Tools, s: Kernel)
    requires HasBuiltins(s)
    ensures var a, b := Accepted(BashScript(j), tools, s, false), Accepted(RestoreScript(j), tools, s, false);
            var q := j.Compiled6();
            && a == Run(true, InstalledBash(q, tools, s), false)
            && (b.ok <==> RestoreWorks(q, tools, s))
            && (b.ok ==> b.kernel == Restored(q, tools, s))
            && (b.ok ==> (a.kernel == b.kernel <==>
                  Own(DockerIn) in s.v4 && (tools.ip6tables == tools.ip6restore || Holds6(q, s.v6))))
            && (tools.ip6tables == tools.ip6restore ==> b.ok)
  {
    var q := j.Compiled6();
    BashInstalls(q, j.codes, tools, s);
    RestoreInstalls(q, j.codes, tools, s);
    TablesAgree(q, tools, s);
  }

  lemma TablesAgree(q: Parts, tools: Tools, s: Kernel)
    requires HasBuiltins(s)
    ensures InstalledBash(q, tools, s) == Restored(q, tools, s) <==>
      Own(DockerIn) in s.v4 && (tools.ip6tables == tools.ip6restore || Holds6(q, s.v6))
  {
    assert Own(DockerIn) in Install4(q, s.v4);
    FillChanges(q, s.v6);
  }

  lemma FillChanges(q: Parts, t: Table)
    requires Input in t && Output in t
    ensures Fill6(q, t) == t <==> Holds6(q, t)
    ensures Install6(q, t) == Hooks6(q, t) <==> Holds6(q, t)
  {
    var a, b := Fill6(q, t), Install6(q, t);
    assert a[Own(In6)] == Entries(q.zfwIn6) && b[Own(In6)] == Entries(q.zfwIn6);
    if q.hostOut {
      assert a[Own(Out6)] == Entries(q.zfwOut6) && b[Own(Out6)] == Entries(q.zfwOut6);
    }
    if Holds6(q, t) {
      assert a == t;
    }
  }

  lemma Install4Twice(q: Parts, t: Table)
    requires Input in t && Output in t && Forward in t
    ensures Install4(q, Install4(q, t)) == Install4(q, t)
  {
  }

  lemma Install6Twice(q: Parts, t: Table)
    requires Input in t && Output in t
    ensures Install6(q, Install6(q, t)) == Install6(q, t)
  {
  }

  lemma InstallTwice(q: Parts, tools: Tools, s: Kernel)
    requires HasBuiltins(s)
    ensures var once := InstalledBash(q, tools, s);
            HasBuiltins(once) && InstalledBash(q, tools, once) == once
  {
    var t := s.v4;
    Install4Twice(q, t);
    Install6Twice(q, s.v6);
    if Own(DockerIn) !in t {
      Install4Twice(q, t - {Own(DockerIn)});
      WithoutDocker(q, t);
    }
  }

  lemma WithoutDocker(q: Parts, t: Table)
    requires Input in t && Output in t && Forward in t && Own(DockerIn) !in t
    ensures var u := Install4(q, t) - {Own(DockerIn)};
            Install4(q, u) - {Own(DockerIn)} == u
  {
  }

  lemma RestoreTwice(q: Parts, tools: Tools, s: Kernel)
    requires HasBuiltins(s) && RestoreWorks(q, tools, s)
    ensures var once := Restored(q, tools, s);
            HasBuiltins(once) && RestoreWorks(q, tools, once) && Restored(q, tools, once) == once
  {
    Install4Twice(q, s.v4);
    Install6Twice(q, s.v6);
    HooksTwice(q, s.v6);
  }

  lemma HooksTwice(q: Parts, t: Table)
    requires Input in t && Output in t
    ensures Hooks6(q, Hooks6(q, t)) == Hooks6(q, t) && Fill6(q, Fill6(q, t)) == Fill6(q, t)
  {
  }

  /** Running an unchanged script again, of either kind, changes nothing. */
  lemma InstallIdempotent(j: Job, tools: Tools, s: Kernel)
    requires HasBuiltins(s)
    ensures var a := Accepted(BashScript(j), tools, s, false);
            Accepted(BashScript(j), tools, a.kernel, false) == a
    ensures var b := Accepted(RestoreScript(j), tools, s, false);
            b.ok ==> Accepted(RestoreScript(j), tools, b.kernel, false) == b
  {
    var q := j.Compiled6();
    BashInstalls(q, j.codes, tools, s);
    InstallTwice(q, tools, s);
    BashInstalls(q, j.codes, tools, InstalledBash(q, tools, s));
    RestoreInstalls(q, j.codes, tools, s);
    if RestoreWorks(q, tools, s) {
      RestoreTwice(q, tools, s);
      RestoreInstalls(q, j.codes, tools, Restored(q, tools, s));
    }
  }

  lemma WantsOutSorted(j: Job, zone: Zone)
    ensures WantsOut(j.Rl(), zone) <==> WantsOut(j.rs.rules, zone)
  {
    SortElements(j.rs.rules);
    forall r ensures r in j.Rl() <==> r in j.rs.rules {
      assert r in j.Rl() <==> r in multiset(j.Rl());
      assert r in j.rs.rules <==> r in multiset(j.rs.rules);
    }
  }

  predicate OutInstalled(t: Table, k: Kind, lines: seq<Line>) {
    && Own(k) in t && t[Own(k)] == Entries(lines)
    && Parent(k) in t && Hook(Own(k)) in t[Parent(k)]
  }

  predicate OutAsBefore(t: Table, was: Table, k: Kind) {
    && (Own(k) in t <==> Own(k) in was) && (Own(k) in t ==> t[Own(k)] == was[Own(k)])
    && Parent(k) in t && Parent(k) in was && t[Parent(k)] == was[Parent(k)]
  }

  /** Some enabled outbound rule is for the chain's zone, and the host has the
      chain's tool. */
  predicate OutWanted(k: Kind, rules: seq<Rule>, tools: Tools) {
    WantsOut(rules, if k == FwdOut then DockerZone else HostZone) && (k == Out6 ==> tools.ip6tables)
  }

  lemma OutChains(k: Kind, q: Parts, tools: Tools, s: Kernel)
    requires HasBuiltins(s) && k.IsOut()
    ensures var t, was := InstalledBash(q, tools, s).Of(k.IsV6()), s.Of(k.IsV6());
            if (if k == FwdOut then q.dockerOut else q.hostOut) && (k == Out6 ==> tools.ip6tables)
            then OutInstalled(t, k, q.Lines(k)) else OutAsBefore(t, was, k)
  {
    if k == FwdOut {
      FwdChains(q, tools, s);
    }
  }

  lemma FwdChains(q: Parts, tools: Tools, s: Kernel)
    requires HasBuiltins(s)
    ensures var t := InstalledBash(q, tools, s).v4;
            if q.dockerOut then OutInstalled(t, FwdOut, q.fwdOut) else OutAsBefore(t, s.v4, FwdOut)
  {
  }

  /** What both scripts leave, but for DOCKER-USER. */
  lemma OutChainsAlike(k: Kind, q: Parts, tools: Tools, s: Kernel)
    requires HasBuiltins(s) && k.IsOut() && (k == Out6 ==> tools.ip6tables == tools.ip6restore)
    ensures InstalledBash(q, tools, s).Of(k.IsV6()) == Restored(q, tools, s).Of(k.IsV6())
              || (!k.IsV6() && InstalledBash(q, tools, s).v4 == Restored(q, tools, s).v4 - {Own(DockerIn)})
  {
  }

  /** An apply rebuilds an outbound chain exactly when some enabled outbound rule is
      for its zone, and otherwise leaves it as it is: a chain of an earlier apply
      survives with its jump and all its lines. The restore script does the same
      where it goes through, for ZFW-OUT6 on hosts that have both IPv6 tools or
      neither. */
  lemma OutboundSurvives(k: Kind, j: Job, tools: Tools, s: Kernel)
    requires HasBuiltins(s) && k.IsOut()
    ensures var a, b := Accepted(BashScript(j), tools, s, false), Accepted(RestoreScript(j), tools, s, false);
            var t, u, was := a.kernel.Of(k.IsV6()), b.kernel.Of(k.IsV6()), s.Of(k.IsV6());
            && (if OutWanted(k, j.rs.rules, tools) then OutInstalled(t, k, j.Lines(k)) else OutAsBefore(t, was, k))
            && (b.ok && (k == Out6 ==> tools.ip6tables == tools.ip6restore) ==>
                  if OutWanted(k, j.rs.rules, tools) then OutInstalled(u, k, j.Lines(k)) else OutAsBefore(u, was, k))
  {
    var q := j.Compiled6();
    WantsOutSorted(j, HostZone);
    WantsOutSorted(j, DockerZone);
    BashInstalls(q, j.codes, tools, s);
    RestoreInstalls(q, j.codes, tools, s);
    OutChains(k, q, tools, s);
    if k == Out6 ==> tools.ip6tables == tools.ip6restore {
      OutChainsAlike(k, q, tools, s);
    }
  }
}
