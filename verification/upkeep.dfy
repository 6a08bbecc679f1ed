/** What every command of every compiled script keeps, what a revert restores,
    over any run and any failure point. */
module Upkeep {
  import opened Netfilter
  import opened RuleLines
  import opened Tables
  import opened Scripts
  import opened BackEnds

  // ----- the invariant -----

  /** The chains ZFW may write in one family: its own, and DOCKER-USER in IPv4. */
  predicate Ours(fam6: bool, c: Chain) {
    c.Own? && c.kind.IsV6() == fam6
  }

  /** The chains ZFW creates and must remove. */
  predicate Zfw(fam6: bool, c: Chain) {
    Ours(fam6, c) && c.kind != DockerIn
  }

  /** No jump occurs twice. */
  predicate HooksDistinct(es: seq<Entry>) {
    forall i, j | 0 <= i < j < |es| && es[i].Hook? :: es[i] != es[j]
  }

  /** ZFW's jumps stand in the right parent and its lines in its own chains and
      DOCKER-USER; nobody else jumps to a ZFW chain, and nobody at all to a
      built-in one, which the kernel refuses. */
  predicate EntryFits(fam6: bool, c: Chain, e: Entry) {
    && (e.Hook? ==> Zfw(fam6, e.target) && c == Parent(e.target.kind))
    && (e.Mine? ==> Ours(fam6, c))
    && (e.Foreign? && e.jumps.Some? ==> e.jumps.value.Other? || e.jumps.value == Own(DockerIn))
  }

  predicate TidyChain(fam6: bool, c: Chain, es: seq<Entry>) {
    && (c.Own? && c.kind != DockerIn ==> c.kind.IsV6() == fam6)
    && HooksDistinct(es)
    && forall e | e in es :: EntryFits(fam6, c, e)
  }

  /** At most one jump to each ZFW chain, in its parent and nowhere else; nobody
      else jumps to a ZFW chain; no chain of the other family. */
  ghost predicate Tidy(fam6: bool, t: Table) {
    && Input in t && Output in t && Forward in t
    && forall c :: c in t ==> TidyChain(fam6, c, t[c])
  }

  ghost predicate TidyKernel(s: Kernel) {
    Tidy(false, s.v4) && Tidy(true, s.v6)
  }

  /** Everything in a chain but ZFW's jumps, in order. */
  function Others(es: seq<Entry>): seq<Entry> {
    if es == [] then []
    else (if es[0].Hook? then [] else [es[0]]) + Others(es[1..])
  }

  /** Foreign chains are the same chains, with the same rules in the same order. */
  ghost predicate SameOthers(fam6: bool, a: Table, b: Table) {
    forall c :: !Ours(fam6, c) ==> ((c in a <==> c in b) && (c in a ==> Others(a[c]) == Others(b[c])))
  }

  ghost predicate SameOthersKernel(a: Kernel, b: Kernel) {
    SameOthers(false, a.v4, b.v4) && SameOthers(true, a.v6, b.v6)
  }

  /** The commands a compiled script may hold. */
  predicate GoodOp(op: Op) {
    match op
    case NewChain(f, c) => Ours(f, c)
    case FlushChain(f, c) => Ours(f, c)
    case Append(f, c, _) => Ours(f, c)
    case EnsureHook(f, from, to) => Zfw(f, to) && from == Parent(to.kind)
    case Unhook(f, from, to) => Zfw(f, to) && from == Parent(to.kind)
    case DropChain(f, c) => Zfw(f, c)
    case Restore(f, doc) => GoodDoc(f, doc)
    case LoadSet(_) => true
  }

  predicate GoodDoc(f: bool, doc: Doc) {
    && (forall c | c in doc.chains :: Ours(f, c))
    && (forall a | a in doc.appends :: Ours(f, a.0))
  }

  predicate GoodCmd(c: Cmd) {
    c.Must? || c.Try? ==> GoodOp(c.op)
  }

  predicate GoodScript(script: Script) {
    forall c | c in script :: GoodCmd(c)
  }

  // ----- one command keeps it -----

  lemma {:induction false} OthersConcat(a: seq<Entry>, b: seq<Entry>)
    ensures Others(a + b) == Others(a) + Others(b)
  {
    if a == [] {
      assert a + b == b;
    } else {
      assert (a + b)[0] == a[0] && (a + b)[1..] == a[1..] + b;
      OthersConcat(a[1..], b);
    }
  }

  lemma {:induction false} RemoveFirstFacts(s: seq<Entry>, e: Entry)
    requires e in s && e.Hook? && HooksDistinct(s)
    ensures var r := RemoveFirst(s, e);
            && HooksDistinct(r) && e !in r && (forall x | x in r :: x in s)
            && Others(r) == Others(s)
  {
    assert s == [s[0]] + s[1..];
    if s[0] == e {
      OthersConcat([e], s[1..]);
      assert Others([e]) == [];
    } else {
      assert HooksDistinct(s[1..]);
      RemoveFirstFacts(s[1..], e);
      var r := RemoveFirst(s[1..], e);
      assert ([s[0]] + r)[1..] == r;
      forall i, j | 0 <= i < j < |[s[0]] + r| && ([s[0]] + r)[i].Hook? ensures ([s[0]] + r)[i] != ([s[0]] + r)[j] {
        if i == 0 {
          assert r[j - 1] in s[1..];
        }
      }
    }
  }

  lemma Put(f: bool, t: Table, c: Chain, es: seq<Entry>)
    requires Tidy(f, t) && TidyChain(f, c, es)
    requires !Ours(f, c) ==> c in t && Others(es) == Others(t[c])
    ensures Tidy(f, t[c := es]) && SameOthers(f, t, t[c := es])
  {
  }

  /** Replacing one of our chains by lines of our own keeps the table tidy. */
  lemma PutMine(f: bool, t: Table, c: Chain, es: seq<Entry>)
    requires Tidy(f, t) && Ours(f, c) && forall e | e in es :: e.Mine?
    ensures Tidy(f, t[c := es]) && SameOthers(f, t, t[c := es])
  {
    forall i | 0 <= i < |es| ensures es[i].Mine? {
      assert es[i] in es;
    }
    Put(f, t, c, es);
  }

  lemma AppendKeeps(f: bool, t: Table, c: Chain, line: Line)
    requires Tidy(f, t) && Ours(f, c) && c in t
    ensures Tidy(f, t[c := t[c] + [Mine(line)]]) && SameOthers(f, t, t[c := t[c] + [Mine(line)]])
  {
    var es := t[c] + [Mine(line)];
    assert forall e :: e in es <==> e in t[c] || e == Mine(line);
    Put(f, t, c, es);
  }

  lemma HookKeeps(f: bool, t: Table, from: Chain, to: Chain)
    requires Tidy(f, t) && Zfw(f, to) && from == Parent(to.kind) && from in t && Hook(to) !in t[from]
    ensures Tidy(f, t[from := [Hook(to)] + t[from]]) && SameOthers(f, t, t[from := [Hook(to)] + t[from]])
  {
    var es := [Hook(to)] + t[from];
    assert forall e :: e in es <==> e == Hook(to) || e in t[from];
    assert es[1..] == t[from];
    assert HooksDistinct(t[from]);
    Put(f, t, from, es);
  }

  lemma UnhookKeeps(f: bool, t: Table, from: Chain, to: Chain)
    requires Tidy(f, t) && from in t && Hook(to) in t[from]
    ensures var u := t[from := RemoveFirst(t[from], Hook(to))];
            Tidy(f, u) && SameOthers(f, t, u) && Hook(to) !in u[from]
  {
    assert TidyChain(f, from, t[from]);
    RemoveFirstFacts(t[from], Hook(to));
    Put(f, t, from, RemoveFirst(t[from], Hook(to)));
  }

  lemma DropKeeps(f: bool, t: Table, c: Chain)
    requires Tidy(f, t) && Zfw(f, c) && c in t
    ensures Tidy(f, t - {c}) && SameOthers(f, t, t - {c})
  {
  }

  lemma {:induction false} DeclareKeeps(f: bool, t: Table, chains: seq<Chain>)
    requires Tidy(f, t) && forall c | c in chains :: Ours(f, c)
    ensures Tidy(f, Declare(t, chains)) && SameOthers(f, t, Declare(t, chains))
  {
    if chains != [] {
      DeclareKeeps(f, t, chains[..|chains| - 1]);
      PutMine(f, Declare(t, chains[..|chains| - 1]), chains[|chains| - 1], []);
    }
  }

  lemma {:induction false} AppendAllKeeps(f: bool, t: Table, appends: seq<(Chain, Line)>)
    requires Tidy(f, t) && forall a | a in appends :: Ours(f, a.0)
    ensures var r := AppendAll(t, appends); r.Some? ==> Tidy(f, r.value) && SameOthers(f, t, r.value)
  {
    if appends != [] {
      var n := |appends| - 1;
      AppendAllKeeps(f, t, appends[..n]);
      var front := AppendAll(t, appends[..n]);
      if front.Some? && appends[n].0 in front.value {
        AppendKeeps(f, front.value, appends[n].0, appends[n].1);
      }
    }
  }

  lemma SameRefl(a: Kernel)
    ensures SameOthersKernel(a, a)
  {
  }

  lemma SameTrans(a: Kernel, b: Kernel, c: Kernel)
    requires SameOthersKernel(a, b) && SameOthersKernel(b, c)
    ensures SameOthersKernel(a, c)
  {
  }

  /** Every command a compiled script or a revert issues keeps the tables tidy
      and everybody else's rules in place. */
  lemma ExecKeeps(op: Op, s: Kernel)
    requires TidyKernel(s) && GoodOp(op)
    ensures var r := Exec(op, s); r.Some? ==> TidyKernel(r.value) && SameOthersKernel(s, r.value)
  {
    match op
    case NewChain(f, c) => PutMine(f, s.Of(f), c, []);
    case FlushChain(f, c) => PutMine(f, s.Of(f), c, []);
    case Append(f, c, line) => if c in s.Of(f) { AppendKeeps(f, s.Of(f), c, line); }
    case EnsureHook(f, from, to) =>
      if from in s.Of(f) && Hook(to) !in s.Of(f)[from] { HookKeeps(f, s.Of(f), from, to); }
    case Unhook(f, from, to) =>
      if from in s.Of(f) && Hook(to) in s.Of(f)[from] { UnhookKeeps(f, s.Of(f), from, to); }
    case DropChain(f, c) => if c in s.Of(f) { DropKeeps(f, s.Of(f), c); }
    case Restore(f, doc) =>
      DeclareKeeps(f, s.Of(f), doc.chains);
      AppendAllKeeps(f, Declare(s.Of(f), doc.chains), doc.appends);
    case LoadSet(_) =>
  }

  /** So does every script, at whatever command it is stopped. */
  lemma {:induction false} RunKeeps(script: Script, tools: Tools, s: Kernel, skipping: bool, rejected: int)
    requires TidyKernel(s) && GoodScript(script)
    ensures var r := RunScript(script, tools, s, skipping, rejected).kernel;
            TidyKernel(r) && SameOthersKernel(s, r)
  {
    SameRefl(s);
    if script != [] {
      var c := script[0];
      var r := StepCmd(c, tools, s, skipping, rejected == 0);
      assert c in script && forall x | x in script[1..] :: x in script;
      assert GoodCmd(c);
      if c.Must? || c.Try? {
        ExecKeeps(c.op, s);
      }
      if r.ok {
        RunKeeps(script[1..], tools, r.kernel, r.skipping, rejected - 1);
        SameTrans(s, r.kernel, RunScript(script[1..], tools, r.kernel, r.skipping, rejected - 1).kernel);
      }
    }
  }

  lemma GoodConcat(a: Script, b: Script)
    ensures GoodScript(a + b) <==> GoodScript(a) && GoodScript(b)
  {
    assert forall c :: c in a + b <==> c in a || c in b;
  }

  lemma AppendsGood(k: Kind, lines: seq<Line>)
    ensures GoodScript(Appends(k.IsV6(), Own(k), lines))
  {
  }

  lemma PopulateGood(k: Kind, lines: seq<Line>)
    ensures GoodScript(Populate(k, lines))
  {
    AppendsGood(k, lines);
    GoodConcat([Try(NewChain(k.IsV6(), Own(k))), Must(FlushChain(k.IsV6(), Own(k)))], Appends(k.IsV6(), Own(k), lines));
  }

  lemma HookGood(k: Kind)
    requires k != DockerIn
    ensures GoodCmd(HookUp(k))
  {
  }

  lemma V6BlockGood(k: Kind, lines: seq<Line>)
    requires k in {In6, Out6}
    ensures GoodScript([IfIp6tables] + Populate(k, lines) + [HookUp(k), EndIf])
  {
    PopulateGood(k, lines);
    HookGood(k);
    GoodConcat([IfIp6tables], Populate(k, lines));
    GoodConcat([IfIp6tables] + Populate(k, lines), [HookUp(k), EndIf]);
  }

  lemma HookedGood(k: Kind, lines: seq<Line>)
    requires k != DockerIn
    ensures GoodScript(Populate(k, lines) + [HookUp(k)])
  {
    PopulateGood(k, lines);
    HookGood(k);
    GoodConcat(Populate(k, lines), [HookUp(k)]);
  }

  lemma DockerGood(q: Parts)
    ensures GoodScript(DockerSection(q))
  {
    var head := [IfChain(Own(DockerIn)), Must(FlushChain(false, Own(DockerIn)))];
    AppendsGood(DockerIn, q.docker);
    GoodConcat(head, Appends(false, Own(DockerIn), q.docker));
    GoodConcat(head + Appends(false, Own(DockerIn), q.docker), [EndIf]);
  }

  lemma OutGood(q: Parts)
    ensures GoodScript(OutSection(q))
  {
    HookedGood(Out, q.zfwOut);
    HookedGood(FwdOut, q.fwdOut);
    V6BlockGood(Out6, q.zfwOut6);
    var p1, p2 :=
      Populate(Out, q.zfwOut) + [HookUp(Out)], [IfIp6tables] + Populate(Out6, q.zfwOut6) + [HookUp(Out6), EndIf];
    GoodConcat(p1, p2);
    HostOutParts(q, p1, p2);
    GoodConcat(if q.hostOut then HostOutSection(q) else [], if q.dockerOut then DockerOutSection(q) else []);
  }

  lemma GeoGood(codes: seq<string>)
    ensures GoodScript(GeoSection(codes))
  {
  }

  lemma GoodFive(a: Script, b: Script, c: Script, d: Script, e: Script)
    requires GoodScript(a) && GoodScript(b) && GoodScript(c) && GoodScript(d) && GoodScript(e)
    ensures GoodScript(a + b + c + d + e)
  {
    GoodConcat(a, b);
    GoodConcat(a + b, c);
    GoodConcat(a + b + c, d);
    GoodConcat(a + b + c + d, e);
  }

  /** Both back ends emit only such commands: bash, */
  lemma BashGood(q: Parts, codes: seq<string>)
    ensures GoodScript(BashOf(q, codes))
  {
    HookedGood(In, q.zfwIn);
    DockerGood(q);
    V6BlockGood(In6, q.zfwIn6);
    OutGood(q);
    GeoGood(codes);
    GoodFive(GeoSection(codes), HostSection(q), DockerSection(q), V6Section(q), OutSection(q));
  }

  lemma DocsGood(q: Parts)
    ensures GoodDoc(false, V4Doc(q)) && GoodDoc(true, V6Doc(q))
  {
    TaggedGood(In, q.zfwIn);
    TaggedGood(DockerIn, q.docker);
    TaggedGood(Out, q.zfwOut);
    TaggedGood(FwdOut, q.fwdOut);
    TaggedGood(In6, q.zfwIn6);
    TaggedGood(Out6, q.zfwOut6);
  }

  lemma TaggedGood(k: Kind, lines: seq<Line>)
    ensures forall a | a in Tagged(k, lines) :: Ours(k.IsV6(), a.0)
  {
  }

  /** ... and restore. */
  lemma RestoreGood(q: Parts, codes: seq<string>)
    ensures GoodScript(RestoreOf(q, codes))
  {
    var g, h := GeoSection(codes), RestoreHooks(q);
    var r := [Must(Restore(false, V4Doc(q))), IfIp6restore, Must(Restore(true, V6Doc(q))), EndIf];
    DocsGood(q);
    HooksGood(q);
    GoodConcat(g, r);
    GoodConcat(g + r, h);
  }

  lemma HooksGood(q: Parts)
    ensures GoodScript(RestoreHooks(q))
  {
    HookGood(In);
    HookGood(In6);
    HookGood(Out);
    HookGood(Out6);
    HookGood(FwdOut);
    var a, b := [HookUp(In), IfIp6tables, HookUp(In6), EndIf], [HookUp(Out), IfIp6tables, HookUp(Out6), EndIf];
    GoodConcat(a, if q.hostOut then b else []);
    GoodConcat(a + (if q.hostOut then b else []), if q.dockerOut then [HookUp(FwdOut)] else []);
  }
}
