/** Packets through the live tables: built-in chains, everybody's rules in them,
    and the jumps between chains. */
module Traffic {
  import opened Text
  import opened Netfilter
  import opened RuleLines
  import opened Tables
  import opened Upkeep
  import opened Reverting

  /** What somebody else's rule does to a packet, where it stands: whether a jump is
      taken, and the verdict of any other rule, if it gives one. The same text may
      act differently in two chains, as rules that keep counters do. */
  datatype Foreigners = Foreigners(
    verdict: (Chain, Entry, Packet) -> Option<Verdict>,
    takes: (Chain, Entry, Packet) -> bool)

  /** How a packet leaves a stretch of rules: with a verdict, or at its end. */
  datatype Way = Stop(verdict: Verdict, recent: Recent) | Fall(recent: Recent) {
    /** RETURN ends a chain, but not the walk. */
    predicate Ends() { Stop? && verdict != Return }

    function Passed(): Outcome {
      if Stop? then Outcome(verdict, recent) else Outcome(Return, recent)
    }
  }

  function LineWay(w: World, line: Line, p: Packet, st: Recent): Way {
    if !AllHold(w, line.conds, p) then Fall(st)
    else
      match line.act
      case Jump(v) => Stop(v, st)
      case Log(_) => Fall(st)
      case RecentSet(name) => Fall(Stamp(st, name, p))
      case RecentUpdate(name, seconds, hitcount) =>
        if Hits(st, name, p, seconds) >= hitcount then Stop(Drop, Stamp(st, name, p)) else Fall(st)
  }

  /** One rule of chain c. `d` bounds how deep jumps may nest; the kernel allows no
      loops, so a bound as large as the table is none. */
  function Step(w: World, f: Foreigners, t: Table, c: Chain, e: Entry, p: Packet, st: Recent, d: nat): Way
    decreases d, 1
  {
    match e
    case Mine(line) => LineWay(w, line, p, st)
    case Hook(to) => Into(w, f, t, to, p, st, d)
    case Foreign(_, jumps) =>
      if jumps.Some? then if f.takes(c, e, p) then Into(w, f, t, jumps.value, p, st, d) else Fall(st)
      else if f.verdict(c, e, p).Some? then Stop(f.verdict(c, e, p).value, st)
      else Fall(st)
  }

  /** A jump: what the other chain decides stands, else the packet comes back. */
  function Into(w: World, f: Foreigners, t: Table, to: Chain, p: Packet, st: Recent, d: nat): Way
    decreases d, 0
  {
    if d == 0 || to !in t then Fall(st)
    else
      var z := Walk(w, f, t, to, t[to], p, st, d - 1);
      if z.Ends() then z else Fall(z.recent)
  }

  /** A packet through a stretch of rules of chain c, top to bottom. */
  function Walk(w: World, f: Foreigners, t: Table, c: Chain, es: seq<Entry>, p: Packet, st: Recent, d: nat): Way
    decreases d, |es| + 1
  {
    if es == [] then Fall(st)
    else
      var z := Step(w, f, t, c, es[0], p, st, d);
      if z.Stop? then z else Walk(w, f, t, c, es[1..], p, z.recent, d)
  }

  lemma {:induction false} WalkConcat(
      w: World, f: Foreigners, t: Table, c: Chain, a: seq<Entry>, b: seq<Entry>, p: Packet, st: Recent, d: nat)
    ensures var x := Walk(w, f, t, c, a, p, st, d);
            Walk(w, f, t, c, a + b, p, st, d) == if x.Stop? then x else Walk(w, f, t, c, b, p, x.recent, d)
    decreases |a|
  {
    if a == [] {
      assert a + b == b;
    } else {
      var z := Step(w, f, t, c, a[0], p, st, d);
      assert (a + b)[0] == a[0] && (a + b)[1..] == a[1..] + b;
      if !z.Stop? {
        WalkConcat(w, f, t, c, a[1..], b, p, z.recent, d);
      }
    }
  }

  lemma WalkOne(w: World, f: Foreigners, t: Table, c: Chain, e: Entry, p: Packet, st: Recent, d: nat)
    ensures Walk(w, f, t, c, [e], p, st, d) == Step(w, f, t, c, e, p, st, d)
  {
    var z := Step(w, f, t, c, e, p, st, d);
    assert [e][1..] == [] && Walk(w, f, t, c, [], p, z.recent, d) == Fall(z.recent);
  }

  /** A chain of compiled lines is walked as it is evaluated. */
  lemma {:induction false} WalkLines(
      w: World, f: Foreigners, t: Table, c: Chain, lines: seq<Line>, p: Packet, st: Recent, d: nat)
    ensures Walk(w, f, t, c, Entries(lines), p, st, d).Passed() == Eval(w, lines, p, st)
    decreases |lines|
  {
    if lines != [] {
      assert Entries(lines)[0] == Mine(lines[0]) && Entries(lines)[1..] == Entries(lines[1..]);
      var z := LineWay(w, lines[0], p, st);
      if !z.Stop? {
        WalkLines(w, f, t, c, lines[1..], p, z.recent, d);
      }
    }
  }

  /** ... so a jump to one gives its outcome, and comes back where that returns. */
  lemma IntoLines(w: World, f: Foreigners, t: Table, to: Chain, lines: seq<Line>, p: Packet, st: Recent, d: nat)
    requires d > 0 && to in t && t[to] == Entries(lines)
    ensures var z := Eval(w, lines, p, st);
            Into(w, f, t, to, p, st, d) == if z.verdict == Return then Fall(z.recent) else Stop(z.verdict, z.recent)
  {
    WalkLines(w, f, t, to, lines, p, st, d - 1);
  }

  // ----- what DOCKER-USER holds of its own -----

  /** Some rule jumps to DOCKER-USER. */
  predicate JumpsToDocker(es: seq<Entry>) {
    exists i | 0 <= i < |es| :: es[i].Foreign? && es[i].jumps == Some(Own(DockerIn))
  }

  ghost predicate DockerJumpedTo(t: Table) {
    exists c :: c in t && !Ours(false, c) && JumpsToDocker(t[c])
  }

  /** Of these rules some may decide a packet: one that is not a jump, before any
      plain RETURN, here or in a chain jumped to. */
  predicate Bites(t: Table, es: seq<Entry>, d: nat)
    decreases d, |es|
  {
    es != [] && es[0] != STOCK && (EntryBites(t, es[0], d) || Bites(t, es[1..], d))
  }

  predicate EntryBites(t: Table, e: Entry, d: nat)
    decreases d, 0
  {
    && e.Foreign?
    && (e.jumps.Some? ==> d > 0 && e.jumps.value in t && Bites(t, t[e.jumps.value], d - 1))
  }

  /** DOCKER-USER is in use by its owner: packets are sent there, and some rule there
      may decide them. */
  ghost predicate DockerInUse(t: Table) {
    DockerJumpedTo(t) && Own(DockerIn) in t && exists d: nat :: Bites(t, t[Own(DockerIn)], d)
  }

  /** A table ZFW has not written to: other people's rules, and Docker's RETURN. */
  ghost predicate Pristine(t: Table) {
    forall c, e :: c in t && e in t[c] ==>
      && (e.Foreign? || (c == Own(DockerIn) && e == STOCK))
      && (e.Foreign? && e.jumps.Some? ==> e.jumps.value.Other? || e.jumps.value == Own(DockerIn))
      && !(c.Own? && c != Own(DockerIn))
  }

  predicate AllForeign(es: seq<Entry>) {
    forall e | e in es :: e.Foreign? || e == STOCK
  }

  /** Rules that cannot bite leave every packet and every stamp alone. */
  lemma {:induction false} NoBite(
      w: World, f: Foreigners, t: Table, c: Chain, es: seq<Entry>, p: Packet, st: Recent, d: nat)
    requires Pristine(t) && AllForeign(es) && !Bites(t, es, d)
    ensures var z := Walk(w, f, t, c, es, p, st, d);
            !z.Ends() && z.recent == st
    decreases d, |es|
  {
    if es != [] {
      assert es[0] in es;
      if es[0] != STOCK {
        NoBiteStep(w, f, t, c, es[0], p, st, d);
        NoBite(w, f, t, c, es[1..], p, st, d);
      }
    }
  }

  lemma {:induction false} NoBiteStep(
      w: World, f: Foreigners, t: Table, c: Chain, e: Entry, p: Packet, st: Recent, d: nat)
    requires Pristine(t) && e.Foreign? && !EntryBites(t, e, d)
    ensures Step(w, f, t, c, e, p, st, d) == Fall(st)
    decreases d, 0
  {
    if d > 0 && e.jumps.value in t {
      NoBite(w, f, t, e.jumps.value, t[e.jumps.value], p, st, d - 1);
    }
  }

  // ----- two tables that differ in DOCKER-USER alone -----

  ghost predicate SameButDocker(a: Table, b: Table) {
    && (forall c :: c != Own(DockerIn) ==> (c in a <==> c in b) && (c in a ==> a[c] == b[c]))
    && Pristine(a) && (Own(DockerIn) in b ==> b[Own(DockerIn)] == [STOCK])
  }

  /** A walk from anywhere else is the same in both, when DOCKER-USER is not jumped
      to, or could not decide anything. */
  lemma {:induction false} WalkSame(
      w: World, f: Foreigners, a: Table, b: Table, c: Chain, es: seq<Entry>, p: Packet, st: Recent, d: nat)
    requires SameButDocker(a, b) && !DockerInUse(a)
    requires forall e | e in es :: e.Foreign? && FitsPristine(e)
    requires DockerJumpedTo(a) || !JumpsToDocker(es)
    ensures Walk(w, f, a, c, es, p, st, d) == Walk(w, f, b, c, es, p, st, d)
    decreases d, |es|
  {
    if es != [] {
      assert es[0] in es;
      assert forall i | 0 <= i < |es[1..]| :: es[1..][i] == es[i + 1];
      StepSame(w, f, a, b, c, es[0], p, st, d);
      var z := Step(w, f, a, c, es[0], p, st, d);
      if !z.Stop? {
        WalkSame(w, f, a, b, c, es[1..], p, z.recent, d);
      }
    }
  }

  predicate FitsPristine(e: Entry) {
    e.Foreign? && e.jumps.Some? ==> e.jumps.value.Other? || e.jumps.value == Own(DockerIn)
  }

  lemma {:induction false} StepSame(
      w: World, f: Foreigners, a: Table, b: Table, c: Chain, e: Entry, p: Packet, st: Recent, d: nat)
    requires SameButDocker(a, b) && !DockerInUse(a) && e.Foreign? && FitsPristine(e)
    requires DockerJumpedTo(a) || e.jumps != Some(Own(DockerIn))
    ensures Step(w, f, a, c, e, p, st, d) == Step(w, f, b, c, e, p, st, d)
    decreases d, 0
  {
    if e.jumps.Some? && d > 0 {
      var to := e.jumps.value;
      if to == Own(DockerIn) {
        IdleDocker(w, f, a, p, st, d);
        StockReturns(w, f, b, p, st, d);
      } else if to in a {
        assert a[to] == b[to] && !Ours(false, to);
        forall x | x in a[to] ensures x.Foreign? && FitsPristine(x) {
          assert x.Foreign? || (to == Own(DockerIn) && x == STOCK);
        }
        WalkSame(w, f, a, b, to, a[to], p, st, d - 1);
      }
    }
  }

  lemma IdleDocker(w: World, f: Foreigners, t: Table, p: Packet, st: Recent, d: nat)
    requires Pristine(t) && d > 0
    requires Own(DockerIn) in t ==> !Bites(t, t[Own(DockerIn)], d - 1)
    ensures Into(w, f, t, Own(DockerIn), p, st, d) == Fall(st)
  {
    if Own(DockerIn) in t {
      NoBite(w, f, t, Own(DockerIn), t[Own(DockerIn)], p, st, d - 1);
    }
  }

  lemma StockReturns(w: World, f: Foreigners, t: Table, p: Packet, st: Recent, d: nat)
    requires Own(DockerIn) in t ==> t[Own(DockerIn)] == [STOCK]
    ensures Into(w, f, t, Own(DockerIn), p, st, d) == Fall(st)
  {
    if d > 0 && Own(DockerIn) in t {
      WalkOne(w, f, t, Own(DockerIn), STOCK, p, st, d - 1);
    }
  }

  // ----- rules that drop whatever DOCKER-USER sees -----

  /** The kernel allows no loop of jumps: every jump leads to a lower rank. */
  ghost predicate Ranked(t: Table, rank: Chain -> nat) {
    forall c, e :: c in t && e in t[c] && e.Foreign? && e.jumps.Some? ==> rank(e.jumps.value) < rank(c)
  }

  /** In DOCKER-USER and below every rule drops and every jump is taken; above it
      only jumps into DOCKER-USER are taken and nothing is decided. */
  function Sentries(rank: Chain -> nat): Foreigners {
    Foreigners((c: Chain, e: Entry, p: Packet) => if rank(c) <= rank(Own(DockerIn)) then Some(Drop) else None,
               (c: Chain, e: Entry, p: Packet) =>
                 rank(c) <= rank(Own(DockerIn)) || (e.Foreign? && e.jumps == Some(Own(DockerIn))))
  }

  lemma {:induction false} BiteDrops(
      w: World, rank: Chain -> nat, t: Table, c: Chain, es: seq<Entry>, p: Packet, st: Recent, d: nat)
    requires Pristine(t) && Ranked(t, rank) && c in t && rank(c) <= rank(Own(DockerIn))
    requires forall e | e in es :: e in t[c]
    ensures var z := Walk(w, Sentries(rank), t, c, es, p, st, d);
            if Bites(t, es, d) then z == Stop(Drop, st) else !z.Ends() && z.recent == st
    decreases d, |es|
  {
    if es != [] {
      assert es[0] in es;
      if es[0] != STOCK {
        var e := es[0];
        assert e.Foreign?;
        if e.jumps.Some? && d > 0 && e.jumps.value in t {
          var to := e.jumps.value;
          assert rank(to) < rank(c);
          BiteDrops(w, rank, t, to, t[to], p, st, d - 1);
        }
        assert Step(w, Sentries(rank), t, c, e, p, st, d) == if EntryBites(t, e, d) then Stop(Drop, st) else Fall(st);
        assert forall x | x in es[1..] :: x in es;
        BiteDrops(w, rank, t, c, es[1..], p, st, d);
      } else {
        assert LineWay(w, Line([], Jump(Return)), p, st) == Stop(Return, st);
      }
    }
  }

  /** Above DOCKER-USER such rules send every packet there. */
  lemma {:induction false} SentToDocker(
      w: World, rank: Chain -> nat, t: Table, c: Chain, es: seq<Entry>, p: Packet, st: Recent, d: nat)
    requires forall e | e in es :: e.Foreign?
    requires rank(c) > rank(Own(DockerIn)) && JumpsToDocker(es)
    requires Into(w, Sentries(rank), t, Own(DockerIn), p, st, d) == Stop(Drop, st)
    ensures Walk(w, Sentries(rank), t, c, es, p, st, d) == Stop(Drop, st)
    decreases |es|
  {
    assert es[0] in es;
    if es[0].jumps != Some(Own(DockerIn)) {
      assert JumpsToDocker(es[1..]) by {
        var i :| 0 <= i < |es| && es[i].Foreign? && es[i].jumps == Some(Own(DockerIn));
        assert es[1..][i - 1] == es[i];
      }
      SentToDocker(w, rank, t, c, es[1..], p, st, d);
    }
  }

  /** ... and past it, where it returns. */
  lemma {:induction false} SentPastDocker(
      w: World, rank: Chain -> nat, t: Table, c: Chain, es: seq<Entry>, p: Packet, st: Recent, d: nat)
    requires forall e | e in es :: e.Foreign?
    requires rank(c) > rank(Own(DockerIn))
    requires Into(w, Sentries(rank), t, Own(DockerIn), p, st, d) == Fall(st)
    ensures Walk(w, Sentries(rank), t, c, es, p, st, d) == Fall(st)
    decreases |es|
  {
    if es != [] {
      assert es[0] in es;
      SentPastDocker(w, rank, t, c, es[1..], p, st, d);
    }
  }

  /** Every packet on every chain but ZFW's and DOCKER-USER fares alike in both
      tables, whatever foreign rules mean. */
  ghost predicate SameTraffic(a: Table, b: Table) {
    forall w, f, c, p, st, d: nat {:trigger Walk(w, f, a, c, a[c], p, st, d)} | c in a && c in b && !Ours(false, c) ::
      Walk(w, f, a, c, a[c], p, st, d) == Walk(w, f, b, c, b[c], p, st, d)
  }

  /** Emptying DOCKER-USER goes unnoticed exactly when it was not in use. */
  lemma EmptiedUnnoticedExact(a: Table, b: Table, rank: Chain -> nat)
    requires SameButDocker(a, b) && Ranked(a, rank)
    ensures SameTraffic(a, b) <==> !DockerInUse(a)
  {
    if DockerInUse(a) {
      var c :| c in a && !Ours(false, c) && JumpsToDocker(a[c]);
      var d: nat :| Bites(a, a[Own(DockerIn)], d);
      NoticedAt(a, b, rank, c, d);
    } else {
      forall w, f, c, p, st, d: nat | c in a && c in b && !Ours(false, c)
        ensures Walk(w, f, a, c, a[c], p, st, d) == Walk(w, f, b, c, b[c], p, st, d)
      {
        SameOn(w, f, a, b, c, p, st, d);
      }
    }
  }

  lemma SameOn(w: World, f: Foreigners, a: Table, b: Table, c: Chain, p: Packet, st: Recent, d: nat)
    requires SameButDocker(a, b) && !DockerInUse(a) && c in a && !Ours(false, c)
    ensures c in b && Walk(w, f, a, c, a[c], p, st, d) == Walk(w, f, b, c, b[c], p, st, d)
  {
    assert c != Own(DockerIn);
    forall e | e in a[c] ensures e.Foreign? && FitsPristine(e) {
    }
    WalkSame(w, f, a, b, c, a[c], p, st, d);
  }

  lemma NoticedAt(a: Table, b: Table, rank: Chain -> nat, c: Chain, d: nat)
    requires SameButDocker(a, b) && Ranked(a, rank) && c in a && !Ours(false, c) && JumpsToDocker(a[c])
    requires Own(DockerIn) in a && Bites(a, a[Own(DockerIn)], d)
    ensures !SameTraffic(a, b)
  {
    var w := World((_, _) => false, (_, _) => false, (_, _) => false);
    var p := Packet("", "", 0, 0, TCP, 0, 0, New, 0);
    var st: Recent := map[];
    var docker := Own(DockerIn);
    BiteDrops(w, rank, a, docker, a[docker], p, st, d);
    StockReturns(w, Sentries(rank), b, p, st, d + 1);
    assert Into(w, Sentries(rank), a, docker, p, st, d + 1) == Stop(Drop, st);
    var i :| 0 <= i < |a[c]| && a[c][i].Foreign? && a[c][i].jumps == Some(docker);
    assert a[c][i] in a[c] && rank(docker) < rank(c);
    forall e | e in a[c] ensures e.Foreign? {
      assert c != docker;
    }
    SentToDocker(w, rank, a, c, a[c], p, st, d + 1);
    SentPastDocker(w, rank, b, c, b[c], p, st, d + 1);
    assert c in b;
    assert Walk(w, Sentries(rank), a, c, a[c], p, st, d + 1) != Walk(w, Sentries(rank), b, c, b[c], p, st, d + 1);
  }
}
