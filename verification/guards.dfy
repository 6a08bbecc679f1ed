/** What the scripts keep behind the tests for the IPv6 tools, and what hosts
    without those tools are therefore spared. */
module Guards {
  import opened Netfilter
  import opened RuleLines
  import opened Tables
  import opened Scripts
  import opened BackEnds

  /** Two guards of IPv6 commands: every one sits behind a test for some IPv6 tool,
      and every jump is made behind the test for ip6tables. */
  datatype Guard = AnyTool | HookTool {
    predicate Held(op: Op) {
      if AnyTool? then !op.LoadSet? && op.fam6 else op.EnsureHook? && op.fam6
    }

    /** Whether one is behind the test after this command. */
    function After(c: Cmd, inside: bool): bool {
      if c.EndIf? then false
      else if c.IfIp6tables? then true
      else if c.IfIp6restore? then AnyTool?
      else inside
    }
  }

  /** No command the guard holds stands outside its test. */
  predicate Guarded(g: Guard, script: Script, inside: bool) {
    script == [] ||
    (&& ((script[0].Must? || script[0].Try?) && g.Held(script[0].op) ==> inside)
     && Guarded(g, script[1..], g.After(script[0], inside)))
  }

  function Inside(g: Guard, script: Script, inside: bool): bool {
    if script == [] then inside else Inside(g, script[1..], g.After(script[0], inside))
  }

  predicate BothGuard(script: Script) {
    Guarded(AnyTool, script, false) && Guarded(HookTool, script, false)
  }

  /** On a host without the tools the IPv6 table stays as it is. */
  lemma {:induction false} GuardedKeepsV6(
      script: Script, tools: Tools, s: Kernel, skipping: bool, inside: bool, rejected: int)
    requires Guarded(AnyTool, script, inside) && !tools.ip6tables && (tools.ip6restore ==> IfIp6restore !in script)
    requires inside ==> skipping
    ensures RunScript(script, tools, s, skipping, rejected).kernel.v6 == s.v6
  {
    if script != [] {
      var c := script[0];
      var r := StepCmd(c, tools, s, skipping, rejected == 0);
      assert r.kernel.v6 == s.v6;
      if r.ok {
        GuardedKeepsV6(script[1..], tools, r.kernel, r.skipping, AnyTool.After(c, inside), rejected - 1);
      }
    }
  }

  // ----- no jump without ip6tables -----

  ghost predicate Unjumped(t: Table) {
    forall c, e :: c in t && e in t[c] ==> !e.Hook?
  }

  lemma {:induction false} AppendsMakeNoJump(t: Table, appends: seq<(Chain, Line)>)
    requires Unjumped(t)
    ensures var r := AppendAll(t, appends); r.Some? ==> Unjumped(r.value)
  {
    if appends != [] {
      AppendsMakeNoJump(t, appends[..|appends| - 1]);
    }
  }

  lemma {:induction false} DeclaresMakeNoJump(t: Table, chains: seq<Chain>)
    requires Unjumped(t)
    ensures Unjumped(Declare(t, chains))
  {
    if chains != [] {
      DeclaresMakeNoJump(t, chains[..|chains| - 1]);
    }
  }

  lemma {:induction false} RemovesMakeNoJump(es: seq<Entry>, e: Entry)
    ensures forall x | x in RemoveFirst(es, e) :: x in es
  {
    if es != [] && es[0] != e {
      RemovesMakeNoJump(es[1..], e);
    }
  }

  /** Only a hook makes a jump. */
  lemma ExecMakesNoJump(op: Op, s: Kernel)
    requires Unjumped(s.v6) && !HookTool.Held(op)
    ensures var r := Exec(op, s); r.Some? ==> Unjumped(r.value.v6)
  {
    match op
    case Unhook(f, from, to) =>
      if f && from in s.v6 {
        RemovesMakeNoJump(s.v6[from], Hook(to));
      }
    case Restore(f, doc) =>
      if f {
        DeclaresMakeNoJump(s.v6, doc.chains);
        AppendsMakeNoJump(Declare(s.v6, doc.chains), doc.appends);
      }
    case _ =>
  }

  /** On a host without ip6tables no script ever jumps in IPv6, whatever
      ip6tables-restore builds. */
  lemma {:induction false} GuardedMakesNoJump(
      script: Script, tools: Tools, s: Kernel, skipping: bool, inside: bool, rejected: int)
    requires Guarded(HookTool, script, inside) && !tools.ip6tables && Unjumped(s.v6)
    requires inside ==> skipping
    ensures Unjumped(RunScript(script, tools, s, skipping, rejected).kernel.v6)
  {
    if script != [] {
      var c := script[0];
      var r := StepCmd(c, tools, s, skipping, rejected == 0);
      if (c.Must? || c.Try?) && !skipping {
        ExecMakesNoJump(c.op, s);
      }
      if r.ok {
        GuardedMakesNoJump(script[1..], tools, r.kernel, r.skipping, HookTool.After(c, inside), rejected - 1);
      }
    }
  }

  // ----- the compiled scripts are guarded -----

  lemma {:induction false} GuardedConcat(g: Guard, a: Script, b: Script, inside: bool)
    ensures Guarded(g, a + b, inside) <==> Guarded(g, a, inside) && Guarded(g, b, Inside(g, a, inside))
    ensures Inside(g, a + b, inside) == Inside(g, b, Inside(g, a, inside))
  {
    if a == [] {
      assert a + b == b;
    } else {
      assert (a + b)[1..] == a[1..] + b;
      GuardedConcat(g, a[1..], b, g.After(a[0], inside));
    }
  }

  lemma {:induction false} AppendsGuarded(g: Guard, f: bool, c: Chain, lines: seq<Line>, inside: bool)
    requires f ==> inside
    ensures Guarded(g, Appends(f, c, lines), inside) && Inside(g, Appends(f, c, lines), inside) == inside
  {
    if lines != [] {
      assert Appends(f, c, lines)[1..] == Appends(f, c, lines[1..]);
      AppendsGuarded(g, f, c, lines[1..], inside);
    }
  }

  lemma {:induction false} GeoGuarded(g: Guard, codes: seq<string>)
    ensures Guarded(g, GeoSection(codes), false) && !Inside(g, GeoSection(codes), false)
  {
    if codes != [] {
      assert GeoSection(codes)[1..] == GeoSection(codes[1..]);
      GeoGuarded(g, codes[1..]);
    }
  }

  lemma OneGuarded(g: Guard, c: Cmd, inside: bool)
    ensures ((c.Must? || c.Try?) && g.Held(c.op) ==> inside) ==> Guarded(g, [c], inside)
    ensures Inside(g, [c], inside) == g.After(c, inside)
  {
    assert [c][1..] == [];
  }

  lemma HookedGuarded(g: Guard, k: Kind, lines: seq<Line>, inside: bool)
    requires k.IsV6() ==> inside
    ensures Guarded(g, Populate(k, lines) + [HookUp(k)], inside)
    ensures Inside(g, Populate(k, lines) + [HookUp(k)], inside) == inside
  {
    var c1, c2 := Try(NewChain(k.IsV6(), Own(k))), Must(FlushChain(k.IsV6(), Own(k)));
    OneGuarded(g, c1, inside);
    OneGuarded(g, c2, inside);
    OneGuarded(g, HookUp(k), inside);
    AppendsGuarded(g, k.IsV6(), Own(k), lines, inside);
    GuardedConcat(g, [c1], [c2], inside);
    assert [c1] + [c2] == [c1, c2];
    GuardedConcat(g, [c1, c2], Appends(k.IsV6(), Own(k), lines), inside);
    GuardedConcat(g, Populate(k, lines), [HookUp(k)], inside);
  }

  lemma V6BlockGuarded(g: Guard, k: Kind, lines: seq<Line>)
    requires k in {In6, Out6}
    ensures var b := [IfIp6tables] + Populate(k, lines) + [HookUp(k), EndIf];
            Guarded(g, b, false) && !Inside(g, b, false)
  {
    var body := Populate(k, lines) + [HookUp(k)];
    OneGuarded(g, IfIp6tables, false);
    OneGuarded(g, EndIf, true);
    HookedGuarded(g, k, lines, true);
    GuardedConcat(g, [IfIp6tables], body, false);
    GuardedConcat(g, [IfIp6tables] + body, [EndIf], false);
    assert [IfIp6tables] + Populate(k, lines) + [HookUp(k), EndIf] == [IfIp6tables] + body + [EndIf];
  }

  lemma DockerGuarded(g: Guard, q: Parts)
    ensures Guarded(g, DockerSection(q), false) && !Inside(g, DockerSection(q), false)
  {
    var c1, c2 := IfChain(Own(DockerIn)), Must(FlushChain(false, Own(DockerIn)));
    OneGuarded(g, c1, false);
    OneGuarded(g, c2, false);
    OneGuarded(g, EndIf, false);
    AppendsGuarded(g, false, Own(DockerIn), q.docker, false);
    GuardedConcat(g, [c1], [c2], false);
    assert [c1] + [c2] == [c1, c2];
    GuardedConcat(g, [c1, c2], Appends(false, Own(DockerIn), q.docker), false);
    GuardedConcat(g, [c1, c2] + Appends(false, Own(DockerIn), q.docker), [EndIf], false);
  }

  lemma OutGuarded(g: Guard, q: Parts)
    ensures Guarded(g, OutSection(q), false)
  {
    var p1 := Populate(Out, q.zfwOut) + [HookUp(Out)];
    var p2 := [IfIp6tables] + Populate(Out6, q.zfwOut6) + [HookUp(Out6), EndIf];
    HookedGuarded(g, Out, q.zfwOut, false);
    V6BlockGuarded(g, Out6, q.zfwOut6);
    HookedGuarded(g, FwdOut, q.fwdOut, false);
    GuardedConcat(g, p1, p2, false);
    HostOutParts(q, p1, p2);
    var host := if q.hostOut then HostOutSection(q) else [];
    GuardedConcat(g, host, if q.dockerOut then DockerOutSection(q) else [], false);
  }

  /** Both back ends put every IPv6 command behind the test for its tool. */
  lemma BashGuarded(g: Guard, q: Parts, codes: seq<string>)
    ensures Guarded(g, BashOf(q, codes), false)
  {
    var l, h, d, v := GeoSection(codes), HostSection(q), DockerSection(q), V6Section(q);
    GeoGuarded(g, codes);
    HookedGuarded(g, In, q.zfwIn, false);
    DockerGuarded(g, q);
    V6BlockGuarded(g, In6, q.zfwIn6);
    OutGuarded(g, q);
    GuardedConcat(g, l, h, false);
    GuardedConcat(g, l + h, d, false);
    GuardedConcat(g, l + h + d, v, false);
    GuardedConcat(g, l + h + d + v, OutSection(q), false);
  }

  lemma BlockGuarded(g: Guard, c: Cmd, op: Cmd)
    requires op.Must? && (c.IfIp6tables? || (c.IfIp6restore? && !HookTool.Held(op.op)))
    ensures Guarded(g, [c, op, EndIf], false) && !Inside(g, [c, op, EndIf], false)
  {
    OneGuarded(g, c, false);
    OneGuarded(g, op, g.After(c, false));
    OneGuarded(g, EndIf, g.After(c, false));
    GuardedConcat(g, [c], [op], false);
    GuardedConcat(g, [c] + [op], [EndIf], false);
    assert [c, op, EndIf] == [c] + [op] + [EndIf];
  }

  lemma RestoreGuarded(g: Guard, q: Parts, codes: seq<string>)
    ensures Guarded(g, RestoreOf(q, codes), false)
  {
    var l := GeoSection(codes);
    var r4, r6 := Must(Restore(false, V4Doc(q))), Must(Restore(true, V6Doc(q)));
    var b1, b2, b3 := [IfIp6restore, r6, EndIf], [IfIp6tables, HookUp(In6), EndIf], [IfIp6tables, HookUp(Out6), EndIf];
    GeoGuarded(g, codes);
    OneGuarded(g, r4, false);
    BlockGuarded(g, IfIp6restore, r6);
    BlockGuarded(g, IfIp6tables, HookUp(In6));
    BlockGuarded(g, IfIp6tables, HookUp(Out6));
    OneGuarded(g, HookUp(In), false);
    OneGuarded(g, HookUp(Out), false);
    OneGuarded(g, HookUp(FwdOut), false);
    GuardedConcat(g, l, [r4], false);
    GuardedConcat(g, l + [r4], b1, false);
    GuardedConcat(g, l + [r4] + b1, [HookUp(In)], false);
    GuardedConcat(g, l + [r4] + b1 + [HookUp(In)], b2, false);
    var front := l + [r4] + b1 + [HookUp(In)] + b2;
    GuardedConcat(g, [HookUp(Out)], b3, false);
    var host := if q.hostOut then [HookUp(Out)] + b3 else [];
    GuardedConcat(g, front, host, false);
    GuardedConcat(g, front + host, if q.dockerOut then [HookUp(FwdOut)] else [], false);
    RestorePieces(q, codes);
  }

  lemma RestorePieces(q: Parts, codes: seq<string>)
    ensures var r4, r6 := Must(Restore(false, V4Doc(q))), Must(Restore(true, V6Doc(q)));
            RestoreOf(q, codes) ==
            GeoSection(codes) + [r4] + [IfIp6restore, r6, EndIf] + [HookUp(In)] + [IfIp6tables, HookUp(In6), EndIf]
            + (if q.hostOut then [HookUp(Out)] + [IfIp6tables, HookUp(Out6), EndIf] else [])
            + (if q.dockerOut then [HookUp(FwdOut)] else [])
  {
    var r4, r6 := Must(Restore(false, V4Doc(q))), Must(Restore(true, V6Doc(q)));
    var h := if q.hostOut then [HookUp(Out)] + [IfIp6tables, HookUp(Out6), EndIf] else [];
    RestoreTail(q, codes, r4, r6);
    HookGroups(q);
    FiveGroups(GeoSection(codes) + [r4] + [IfIp6restore, r6, EndIf], [HookUp(In)], [IfIp6tables, HookUp(In6), EndIf], h,
               if q.dockerOut then [HookUp(FwdOut)] else []);
  }

  lemma HookGroups(q: Parts)
    ensures RestoreHooks(q) == [HookUp(In)] + [IfIp6tables, HookUp(In6), EndIf]
      + (if q.hostOut then [HookUp(Out)] + [IfIp6tables, HookUp(Out6), EndIf] else [])
      + (if q.dockerOut then [HookUp(FwdOut)] else [])
  {
  }

  lemma FiveGroups(a: Script, b: Script, c: Script, d: Script, e: Script)
    ensures a + (b + c + d + e) == a + b + c + d + e
  {
  }

  // ----- who asks for ip6tables-restore -----

  /** An ip6tables-restore without ip6tables could build what nothing removes. */
  predicate SaneTools(tools: Tools) {
    tools.ip6restore ==> tools.ip6tables
  }

  /** The host can take the script back: it is sane, or the script never asks for
      ip6tables-restore. */
  predicate Suits(tools: Tools, script: Script) {
    SaneTools(tools) || IfIp6restore !in script
  }

  lemma AppendsAskNothing(f: bool, c: Chain, lines: seq<Line>)
    ensures IfIp6restore !in Appends(f, c, lines)
  {
  }

  lemma HookedAsksNothing(k: Kind, lines: seq<Line>)
    ensures IfIp6restore !in Populate(k, lines) + [HookUp(k)]
  {
    AppendsAskNothing(k.IsV6(), Own(k), lines);
  }

  lemma DockerAsksNothing(q: Parts)
    ensures IfIp6restore !in DockerSection(q)
  {
    AppendsAskNothing(false, Own(DockerIn), q.docker);
  }

  lemma V6AsksNothing(k: Kind, lines: seq<Line>)
    ensures IfIp6restore !in [IfIp6tables] + Populate(k, lines) + [HookUp(k), EndIf]
  {
    HookedAsksNothing(k, lines);
  }

  lemma OutAsksNothing(q: Parts)
    ensures IfIp6restore !in OutSection(q)
  {
    var p1, p2 :=
      Populate(Out, q.zfwOut) + [HookUp(Out)], [IfIp6tables] + Populate(Out6, q.zfwOut6) + [HookUp(Out6), EndIf];
    HookedAsksNothing(Out, q.zfwOut);
    V6AsksNothing(Out6, q.zfwOut6);
    HookedAsksNothing(FwdOut, q.fwdOut);
    HostOutParts(q, p1, p2);
  }

  lemma NoneAsks(a: Script, b: Script, c: Script, d: Script, e: Script)
    requires IfIp6restore !in a && IfIp6restore !in b && IfIp6restore !in c && IfIp6restore !in d && IfIp6restore !in e
    ensures IfIp6restore !in a + b + c + d + e
  {
  }

  /** The bash script never asks for ip6tables-restore. */
  lemma BashSuits(q: Parts, codes: seq<string>, tools: Tools)
    ensures Suits(tools, BashOf(q, codes))
  {
    HookedAsksNothing(In, q.zfwIn);
    DockerAsksNothing(q);
    V6AsksNothing(In6, q.zfwIn6);
    OutAsksNothing(q);
    NoneAsks(GeoSection(codes), HostSection(q), DockerSection(q), V6Section(q), OutSection(q));
  }

  lemma RestoreAsks(q: Parts, codes: seq<string>)
    ensures IfIp6restore in RestoreOf(q, codes)
  {
    var r4, r6 := Must(Restore(false, V4Doc(q))), Must(Restore(true, V6Doc(q)));
    RestoreTail(q, codes, r4, r6);
    var head := GeoSection(codes) + [r4] + [IfIp6restore, r6, EndIf];
    assert head[|GeoSection(codes)| + 1] == IfIp6restore && IfIp6restore in head;
  }
}
