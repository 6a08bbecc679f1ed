/** Revert: the engine's best-effort commands, and what they restore. */
module Reverting {
  import opened Netfilter
  import opened RuleLines
  import opened Tables
  import opened Scripts
  import opened BackEnds
  import opened Upkeep

  const STOCK := Mine(Line([], Jump(Return)))

  function TakeDown(k: Kind): Script {
    [Try(Unhook(k.IsV6(), Parent(k), Own(k))),
     Try(FlushChain(k.IsV6(), Own(k))),
     Try(DropChain(k.IsV6(), Own(k)))]
  }

  function StockDocker(): Script {
    [IfChain(Own(DockerIn)),
     Try(FlushChain(false, Own(DockerIn))),
     Try(Append(false, Own(DockerIn), Line([], Jump(Return)))),
     EndIf]
  }

  /** The engine's revert function, command by command. */
  function RevertScript(): Script {
    TakeDown(In) + StockDocker() + TakeDown(Out) + TakeDown(FwdOut)
    + ([IfIp6tables] + (TakeDown(In6) + TakeDown(Out6)) + [EndIf])
  }

  function Reverted(tools: Tools, s: Kernel): Kernel {
    Accepted(RevertScript(), tools, s, false).kernel
  }

  // ----- what a revert must leave -----

  /** No such chain, and no jump to it. */
  ghost predicate Gone(t: Table, k: Kind) {
    Own(k) !in t && forall c :: c in t ==> Hook(Own(k)) !in t[c]
  }

  /** The family holds no ZFW chain and no ZFW jump at all. */
  ghost predicate NoZfw(fam6: bool, t: Table) {
    forall k: Kind :: k != DockerIn && k.IsV6() == fam6 ==> Gone(t, k)
  }

  /** The firewall is off: nothing of ZFW's in either table, and DOCKER-USER, if
      Docker has one, back to its single RETURN. */
  ghost predicate OffState(s: Kernel) {
    && NoZfw(false, s.v4) && NoZfw(true, s.v6)
    && (Own(DockerIn) in s.v4 ==> s.v4[Own(DockerIn)] == [STOCK])
  }

  // ----- one chain taken down -----

  function Unhooked(t: Table, k: Kind): Table {
    if Parent(k) in t && Hook(Own(k)) in t[Parent(k)]
    then t[Parent(k) := RemoveFirst(t[Parent(k)], Hook(Own(k)))] else t
  }

  function Off1(t: Table, k: Kind): Table {
    Unhooked(t, k) - {Own(k)}
  }

  function Take(s: Kernel, k: Kind): Kernel {
    s.With(k.IsV6(), Off1(s.Of(k.IsV6()), k))
  }

  lemma UnhookedFacts(f: bool, t: Table, k: Kind)
    requires Tidy(f, t) && k != DockerIn && k.IsV6() == f
    ensures var u := Unhooked(t, k);
            && Tidy(f, u) && !Referenced(u, Own(k))
            && (forall c :: c in u <==> c in t)
            && (forall c, e :: c in u && e in u[c] ==> e in t[c])
  {
    var u := Unhooked(t, k);
    if Hook(Own(k)) in t[Parent(k)] {
      assert TidyChain(f, Parent(k), t[Parent(k)]);
      UnhookKeeps(f, t, Parent(k), Own(k));
      RemoveFirstFacts(t[Parent(k)], Hook(Own(k)));
    }
    forall c, e | c in u && e in u[c] ensures !Refers(e, Own(k)) {
      assert TidyChain(f, c, u[c]);
      assert EntryFits(f, c, e);
    }
  }

  /** Unhook, flush, delete: the chain can be deleted because nothing refers to it. */
  lemma RunTakeDown(k: Kind, tools: Tools, s: Kernel)
    requires TidyKernel(s) && k != DockerIn
    ensures Accepted(TakeDown(k), tools, s, false) == Run(true, Take(s, k), false)
    ensures TidyKernel(Take(s, k))
  {
    var f, c := k.IsV6(), Own(k);
    var t := s.Of(f);
    var u := Unhooked(t, k);
    var c1, c2, c3 := Try(Unhook(f, Parent(k), c)), Try(FlushChain(f, c)), Try(DropChain(f, c));
    assert TakeDown(k) == [c1] + [c2] + [c3];
    RunUnhook(k, tools, s);
    Then([c1], [c2], tools, s, false);
    RunFlush(k, tools, s.With(f, u));
    Then([c1] + [c2], [c3], tools, s, false);
    UnhookedFacts(f, t, k);
    RunDrop(k, tools, s.With(f, Flushed(u, c)));
    FlushedGone(u, c);
    TakeDownFacts(f, t, k);
  }

  function Flushed(t: Table, c: Chain): Table {
    if c in t then t[c := []] else t
  }

  lemma FlushedGone(t: Table, c: Chain)
    ensures Flushed(t, c) - {c} == t - {c}
  {
  }

  lemma RunUnhook(k: Kind, tools: Tools, s: Kernel)
    ensures Accepted([Try(Unhook(k.IsV6(), Parent(k), Own(k)))], tools, s, false)
         == Run(true, s.With(k.IsV6(), Unhooked(s.Of(k.IsV6()), k)), false)
  {
    One(Try(Unhook(k.IsV6(), Parent(k), Own(k))), tools, s, false);
  }

  lemma RunFlush(k: Kind, tools: Tools, s: Kernel)
    ensures Accepted([Try(FlushChain(k.IsV6(), Own(k)))], tools, s, false)
         == Run(true, s.With(k.IsV6(), Flushed(s.Of(k.IsV6()), Own(k))), false)
  {
    One(Try(FlushChain(k.IsV6(), Own(k))), tools, s, false);
  }

  lemma RunDrop(k: Kind, tools: Tools, s: Kernel)
    requires var t := s.Of(k.IsV6()); !Referenced(t, Own(k)) && (Own(k) in t ==> t[Own(k)] == [])
    ensures Accepted([Try(DropChain(k.IsV6(), Own(k)))], tools, s, false)
         == Run(true, s.With(k.IsV6(), s.Of(k.IsV6()) - {Own(k)}), false)
  {
    One(Try(DropChain(k.IsV6(), Own(k))), tools, s, false);
    var t := s.Of(k.IsV6());
    if Own(k) !in t {
      assert t - {Own(k)} == t;
    }
  }

  lemma TakeDownFacts(f: bool, t: Table, k: Kind)
    requires Tidy(f, t) && k != DockerIn && k.IsV6() == f
    ensures var u := Off1(t, k);
            && Tidy(f, u) && Gone(u, k)
            && (forall k': Kind :: Gone(t, k') ==> Gone(u, k'))
            && (forall c :: c in u ==> c in t)
            && (Own(DockerIn) in u <==> Own(DockerIn) in t)
            && (Own(DockerIn) in t ==> u[Own(DockerIn)] == t[Own(DockerIn)])
  {
    UnhookedFacts(f, t, k);
    var w := Unhooked(t, k);
    var u := w - {Own(k)};
    if Own(k) in w {
      DropKeeps(f, w, Own(k));
    } else {
      assert u == w;
    }
    forall c | c in u ensures Hook(Own(k)) !in u[c] {
      if Hook(Own(k)) in u[c] {
        assert c in w && Refers(Hook(Own(k)), Own(k));
      }
    }
    assert Parent(k) != Own(DockerIn);
  }

  function Stocked(t: Table): Table {
    if Own(DockerIn) in t then t[Own(DockerIn) := [STOCK]] else t
  }

  function StockKernel(s: Kernel): Kernel {
    Kernel(Stocked(s.v4), s.v6)
  }

  lemma RunStock(tools: Tools, s: Kernel)
    ensures Accepted(StockDocker(), tools, s, false) == Run(true, StockKernel(s), false)
  {
    var c := Own(DockerIn);
    var c1, c2 := Try(FlushChain(false, c)), Try(Append(false, c, Line([], Jump(Return))));
    assert StockDocker() == [IfChain(c)] + ([c1] + [c2]) + [EndIf];
    if c in s.v4 {
      One(c1, tools, s, false);
      Then([c1], [c2], tools, s, false);
      One(c2, tools, Kernel(s.v4[c := []], s.v6), false);
      var none: seq<Entry> := [];
      assert none + [STOCK] == [STOCK];
      assert s.v4[c := none][c := [STOCK]] == s.v4[c := [STOCK]];
      TakenBlock(IfChain(c), [c1] + [c2], tools, s);
    } else {
      SkippedBlock(IfChain(c), [c1] + [c2], tools, s);
    }
  }

  // ----- the whole revert -----

  lemma StockTidy(s: Kernel)
    requires TidyKernel(s)
    ensures TidyKernel(StockKernel(s))
  {
    if Own(DockerIn) in s.v4 {
      PutMine(false, s.v4, Own(DockerIn), [STOCK]);
    }
  }

  lemma RunV6Down(tools: Tools, s: Kernel)
    requires TidyKernel(s)
    ensures Accepted([IfIp6tables] + (TakeDown(In6) + TakeDown(Out6)) + [EndIf], tools, s, false)
         == Run(true, if tools.ip6tables then Take(Take(s, In6), Out6) else s, false)
  {
    var v6 := TakeDown(In6) + TakeDown(Out6);
    if tools.ip6tables {
      RunTakeDown(In6, tools, s);
      Then(TakeDown(In6), TakeDown(Out6), tools, s, false);
      RunTakeDown(Out6, tools, Take(s, In6));
      TakenBlock(IfIp6tables, v6, tools, s);
    } else {
      SkippedBlock(IfIp6tables, v6, tools, s);
    }
  }

  lemma RunRevert(tools: Tools, s: Kernel)
    requires TidyKernel(s)
    ensures var down := Take(Take(StockKernel(Take(s, In)), Out), FwdOut);
            Reverted(tools, s) == if tools.ip6tables then Take(Take(down, In6), Out6) else down
  {
    var p1, p2, p3, p4 := TakeDown(In), StockDocker(), TakeDown(Out), TakeDown(FwdOut);
    var v6 := [IfIp6tables] + (TakeDown(In6) + TakeDown(Out6)) + [EndIf];
    RunTakeDown(In, tools, s);
    var s1 := Take(s, In);
    Then(p1, p2, tools, s, false);
    RunStock(tools, s1);
    var s2 := StockKernel(s1);
    StockTidy(s1);
    Then(p1 + p2, p3, tools, s, false);
    RunTakeDown(Out, tools, s2);
    var s3 := Take(s2, Out);
    Then(p1 + p2 + p3, p4, tools, s, false);
    RunTakeDown(FwdOut, tools, s3);
    var s4 := Take(s3, FwdOut);
    Then(p1 + p2 + p3 + p4, v6, tools, s, false);
    RunV6Down(tools, s4);
  }

  lemma TakeDownGood()
    ensures forall k: Kind :: k != DockerIn ==> GoodScript(TakeDown(k))
    ensures GoodScript(StockDocker())
  {
  }

  lemma RevertGood()
    ensures GoodScript(RevertScript())
  {
    TakeDownGood();
    var p1, p2, p3, p4 := TakeDown(In), StockDocker(), TakeDown(Out), TakeDown(FwdOut);
    var v6 := TakeDown(In6) + TakeDown(Out6);
    GoodConcat(TakeDown(In6), TakeDown(Out6));
    GoodConcat([IfIp6tables], v6);
    GoodConcat([IfIp6tables] + v6, [EndIf]);
    GoodConcat(p1, p2);
    GoodConcat(p1 + p2, p3);
    GoodConcat(p1 + p2 + p3, p4);
    GoodConcat(p1 + p2 + p3 + p4, [IfIp6tables] + v6 + [EndIf]);
  }

  lemma V4Down(t: Table)
    requires Tidy(false, t)
    ensures var u := Off1(Off1(Stocked(Off1(t, In)), Out), FwdOut);
            NoZfw(false, u) && (Own(DockerIn) in u <==> Own(DockerIn) in t)
            && (Own(DockerIn) in u ==> u[Own(DockerIn)] == [STOCK])
  {
    TakeDownFacts(false, t, In);
    var a := Off1(t, In);
    var b := Stocked(a);
    if Own(DockerIn) in a {
      PutMine(false, a, Own(DockerIn), [STOCK]);
    }
    assert Gone(b, In);
    TakeDownFacts(false, b, Out);
    var c := Off1(b, Out);
    TakeDownFacts(false, c, FwdOut);
  }

  lemma V6Down(t: Table)
    requires Tidy(true, t)
    ensures NoZfw(true, Off1(Off1(t, In6), Out6))
  {
    TakeDownFacts(true, t, In6);
    TakeDownFacts(true, Off1(t, In6), Out6);
  }

  /** After a revert no ZFW chain or jump remains, DOCKER-USER is exactly one
      RETURN, and everybody else's rules are where they were. The IPv6 half needs
      ip6tables, or nothing of ZFW's there to begin with. */
  lemma RevertRestores(tools: Tools, s: Kernel)
    requires TidyKernel(s)
    ensures var r := Reverted(tools, s);
            && TidyKernel(r) && SameOthersKernel(s, r)
            && (Own(DockerIn) in r.v4 <==> Own(DockerIn) in s.v4)
            && NoZfw(false, r.v4) && (Own(DockerIn) in r.v4 ==> r.v4[Own(DockerIn)] == [STOCK])
            && (if tools.ip6tables then NoZfw(true, r.v6) else r.v6 == s.v6)
            && (OffState(r) <==> tools.ip6tables || NoZfw(true, s.v6))
  {
    RunRevert(tools, s);
    RevertGood();
    RunKeeps(RevertScript(), tools, s, false, -1);
    V4Down(s.v4);
    V6Down(s.v6);
  }

  // ----- a host with half the IPv6 tools -----

  /** With ip6tables-restore but no ip6tables, the restore script builds an IPv6
      chain that a revert cannot remove. */
  lemma OrphanChain(q: Parts, codes: seq<string>, s: Kernel)
    requires TidyKernel(s)
    ensures var tools := Tools(false, true);
            !OffState(Reverted(tools, Accepted(RestoreOf(q, codes), tools, s, false).kernel))
  {
    var tools := Tools(false, true);
    RestoreInstalls(q, codes, tools, s);
    RestoreGood(q, codes);
    RunKeeps(RestoreOf(q, codes), tools, s, false, -1);
    var r := Kernel(Install4(q, s.v4), Fill6(q, s.v6));
    RevertRestores(tools, r);
    assert !Gone(r.v6, In6);
  }
}
