/** From scripts to traffic: what a host's chains do to a packet once a compiled
    script has run, and once the rules have been taken down again. */
module WholeHost {
  import opened Text
  import opened Netfilter
  import opened RuleLines
  import opened Chains
  import opened Meaning
  import opened Tables
  import opened Scripts
  import opened BackEnds
  import opened Upkeep
  import opened Reverting
  import opened Engine
  import opened Traffic

  // ----- what an apply does to traffic -----

  /** What stands in front of the jump to c once it is hooked: what stood there
      before, or nothing when the jump is new. */
  function Ahead(es: seq<Entry>, c: Chain): seq<Entry> {
    if Hook(c) !in es || es[0] == Hook(c) then [] else [es[0]] + Ahead(es[1..], c)
  }

  /** ... and behind it: the rest, or everything when the jump is new. */
  function Behind(es: seq<Entry>, c: Chain): seq<Entry> {
    if Hook(c) !in es then es else if es[0] == Hook(c) then es[1..] else Behind(es[1..], c)
  }

  lemma {:induction false} HookedSplits(es: seq<Entry>, c: Chain)
    ensures Hooked(es, c) == Ahead(es, c) + [Hook(c)] + Behind(es, c)
  {
    if Hook(c) in es && es[0] != Hook(c) {
      assert es == [es[0]] + es[1..];
      HookedSplits(es[1..], c);
    }
  }

  /** The chains a script installs and jumps to. */
  predicate Wanted(k: Kind, q: Parts, tools: Tools) {
    match k
    case In => true
    case DockerIn => false
    case In6 => tools.ip6tables
    case Out => q.hostOut
    case Out6 => q.hostOut && tools.ip6tables
    case FwdOut => q.dockerOut
  }

  /** Table t holds chain k with these lines, and the jump to it in its parent,
      the parent's other rules where they were in `was`. */
  predicate Holding(k: Kind, lines: seq<Line>, t: Table, was: Table) {
    && Own(k) in t && t[Own(k)] == Entries(lines)
    && Parent(k) in t && Parent(k) in was && t[Parent(k)] == Hooked(was[Parent(k)], Own(k))
  }

  lemma BashHolds(k: Kind, q: Parts, tools: Tools, s: Kernel)
    requires HasBuiltins(s) && Wanted(k, q, tools)
    ensures Holding(k, q.Lines(k), InstalledBash(q, tools, s).Of(k.IsV6()), s.Of(k.IsV6()))
  {
    if k.IsV6() {
      BashHolds6(k, q, tools, s);
    }
  }

  lemma BashHolds6(k: Kind, q: Parts, tools: Tools, s: Kernel)
    requires HasBuiltins(s) && Wanted(k, q, tools) && k.IsV6()
    ensures Holding(k, q.Lines(k), InstalledBash(q, tools, s).v6, s.v6)
  {
  }

  lemma RestoreHolds(k: Kind, q: Parts, tools: Tools, s: Kernel)
    requires HasBuiltins(s) && Wanted(k, q, tools) && (k.IsV6() ==> tools.ip6restore)
    ensures Holding(k, q.Lines(k), Restored(q, tools, s).Of(k.IsV6()), s.Of(k.IsV6()))
  {
  }

  /** A packet walking rules with a jump to the compiled chain k among them: what
      stands ahead of the jump, then what the rule list asks for, then, where that
      returns, what stands behind. */
  ghost predicate RuledWalk(
      k: Kind, w: World, j: Job, f: Foreigners, t: Table, c: Chain, ahead: seq<Entry>, jump: Entry,
      behind: seq<Entry>, p: Packet, st: Recent, d: nat)
  {
    var x := Walk(w, f, t, c, ahead, p, st, d);
    exists z: Outcome ::
      && AsRuled(k, w, j.rs, j.published, j.extra, p, x.recent, z)
      && Walk(w, f, t, c, ahead + [jump] + behind, p, st, d) ==
           if x.Stop? then x
           else if z.verdict != Return then Stop(z.verdict, z.recent)
           else Walk(w, f, t, c, behind, p, z.recent, d)
  }

  lemma JumpIsRuled(
      k: Kind, w: World, j: Job, lines: seq<Line>, f: Foreigners, t: Table, c: Chain, ahead: seq<Entry>, jump: Entry,
      behind: seq<Entry>, p: Packet, st: Recent, d: nat)
    requires CompilableSet(j.rs) && lines == Compiled(k, j.rs, j.published, j.extra)
    requires d > 0 && Own(k) in t && t[Own(k)] == Entries(lines)
    requires jump == Hook(Own(k)) || (jump.Foreign? && jump.jumps == Some(Own(k)) && f.takes(c, jump, p))
    ensures RuledWalk(k, w, j, f, t, c, ahead, jump, behind, p, st, d)
  {
    var x := Walk(w, f, t, c, ahead, p, st, d);
    var z := Eval(w, lines, p, x.recent);
    ChainMeaning(k, w, j.rs, j.published, j.extra, p, x.recent);
    IntoLines(w, f, t, Own(k), lines, p, x.recent, d);
    WalkConcat(w, f, t, c, ahead, [jump], p, st, d);
    WalkOne(w, f, t, c, jump, p, x.recent, d);
    WalkConcat(w, f, t, c, ahead + [jump], behind, p, st, d);
  }

  /** The parent of chain k in table t, the rules around the jump as they were in
      table `was`. */
  ghost predicate HookedTraffic(
      k: Kind, w: World, j: Job, f: Foreigners, t: Table, was: Table, p: Packet, st: Recent, d: nat) {
    var c := Parent(k);
    && c in t && c in was
    && t[c] == Ahead(was[c], Own(k)) + [Hook(Own(k))] + Behind(was[c], Own(k))
    && RuledWalk(k, w, j, f, t, c, Ahead(was[c], Own(k)), Hook(Own(k)), Behind(was[c], Own(k)), p, st, d)
  }

  lemma HeldTraffic(
      k: Kind, w: World, j: Job, lines: seq<Line>, f: Foreigners, t: Table, was: Table, p: Packet, st: Recent, d: nat)
    requires CompilableSet(j.rs) && lines == Compiled(k, j.rs, j.published, j.extra)
    requires d > 0 && Holding(k, lines, t, was)
    ensures HookedTraffic(k, w, j, f, t, was, p, st, d)
  {
    var es := was[Parent(k)];
    HookedSplits(es, Own(k));
    JumpIsRuled(k, w, j, lines, f, t, Parent(k), Ahead(es, Own(k)), Hook(Own(k)), Behind(es, Own(k)), p, st, d);
  }

  /** End to end, from the rule list to traffic, for the first apply on a host and
      for every later one, with Docker or without: once either script has gone
      through, a packet entering a hooked chain meets the foreign rules in front
      of ZFW's jump, then what the rule list asks for, and where that returns,
      the foreign rules behind the jump. */
  lemma TrafficAfterApply(
      k: Kind, j: Job, tools: Tools, s: Kernel, w: World, f: Foreigners, p: Packet, st: Recent, d: nat)
    requires HasBuiltins(s) && CompilableSet(j.rs) && Wanted(k, j.Compiled6(), tools) && d > 0
    ensures var a, b := Accepted(BashScript(j), tools, s, false), Accepted(RestoreScript(j), tools, s, false);
            var was := s.Of(k.IsV6());
            && HookedTraffic(k, w, j, f, a.kernel.Of(k.IsV6()), was, p, st, d)
            && (b.ok && (k.IsV6() ==> tools.ip6restore) ==>
                  HookedTraffic(k, w, j, f, b.kernel.Of(k.IsV6()), was, p, st, d))
  {
    var q, lines, was := j.Compiled6(), Compiled(k, j.rs, j.published, j.extra), s.Of(k.IsV6());
    BashInstalls(q, j.codes, tools, s);
    RestoreInstalls(q, j.codes, tools, s);
    BashHolds(k, q, tools, s);
    HeldTraffic(k, w, j, lines, f, InstalledBash(q, tools, s).Of(k.IsV6()), was, p, st, d);
    if k.IsV6() ==> tools.ip6restore {
      RestoreHolds(k, q, tools, s);
      HeldTraffic(k, w, j, lines, f, Restored(q, tools, s).Of(k.IsV6()), was, p, st, d);
    }
  }

  /** After an apply of either kind DOCKER-USER is exactly the compiled chain, where
      there is one. */
  lemma DockerUserAfterApply(j: Job, tools: Tools, s: Kernel)
    requires HasBuiltins(s)
    ensures var a, b := Accepted(BashScript(j), tools, s, false), Accepted(RestoreScript(j), tools, s, false);
            var lines := Compiled(DockerIn, j.rs, j.published, j.extra);
            && (if Own(DockerIn) in s.v4
                then Own(DockerIn) in a.kernel.v4 && a.kernel.v4[Own(DockerIn)] == Entries(lines)
                else Own(DockerIn) !in a.kernel.v4)
            && (b.ok ==> Own(DockerIn) in b.kernel.v4 && b.kernel.v4[Own(DockerIn)] == Entries(lines))
  {
    var q := j.Compiled6();
    BashInstalls(q, j.codes, tools, s);
    RestoreInstalls(q, j.codes, tools, s);
    InstalledDocker(q, tools, s);
  }

  /** Every foreign jump into DOCKER-USER that a packet takes is ruled. */
  ghost predicate DockerTraffic(w: World, j: Job, f: Foreigners, t: Table, p: Packet, st: Recent, d: nat) {
    forall c, i | c in t && 0 <= i < |t[c]| && t[c][i].Foreign? && t[c][i].jumps == Some(Own(DockerIn))
                  && f.takes(c, t[c][i], p) ::
      RuledWalk(DockerIn, w, j, f, t, c, t[c][..i], t[c][i], t[c][i + 1..], p, st, d)
  }

  /** Container traffic, end to end: once either script has gone through on a host
      with DOCKER-USER, wherever a rule sends a packet there (Docker does so in
      front of FORWARD), the packet gets what the rule list asks for, and where
      that returns, it goes on behind that rule. */
  lemma ContainerTraffic(j: Job, tools: Tools, s: Kernel, w: World, f: Foreigners, p: Packet, st: Recent, d: nat)
    requires HasBuiltins(s) && CompilableSet(j.rs) && d > 0
    ensures var a, b := Accepted(BashScript(j), tools, s, false), Accepted(RestoreScript(j), tools, s, false);
            && (Own(DockerIn) in s.v4 ==> DockerTraffic(w, j, f, a.kernel.v4, p, st, d))
            && (b.ok ==> DockerTraffic(w, j, f, b.kernel.v4, p, st, d))
  {
    var q, lines := j.Compiled6(), Compiled(DockerIn, j.rs, j.published, j.extra);
    BashInstalls(q, j.codes, tools, s);
    RestoreInstalls(q, j.codes, tools, s);
    InstalledDocker(q, tools, s);
    if Own(DockerIn) in s.v4 {
      DockerIsRuled(w, j, lines, f, InstalledBash(q, tools, s).v4, p, st, d);
    }
    DockerIsRuled(w, j, lines, f, Restored(q, tools, s).v4, p, st, d);
  }

  lemma DockerIsRuled(
      w: World, j: Job, lines: seq<Line>, f: Foreigners, t: Table, p: Packet, st: Recent, d: nat)
    requires CompilableSet(j.rs) && lines == Compiled(DockerIn, j.rs, j.published, j.extra)
    requires d > 0 && Own(DockerIn) in t && t[Own(DockerIn)] == Entries(lines)
    ensures DockerTraffic(w, j, f, t, p, st, d)
  {
    forall c, i | c in t && 0 <= i < |t[c]| && t[c][i].Foreign? && t[c][i].jumps == Some(Own(DockerIn))
                  && f.takes(c, t[c][i], p)
      ensures RuledWalk(DockerIn, w, j, f, t, c, t[c][..i], t[c][i], t[c][i + 1..], p, st, d)
    {
      JumpIsRuled(DockerIn, w, j, lines, f, t, c, t[c][..i], t[c][i], t[c][i + 1..], p, st, d);
    }
  }

  lemma InstalledDocker(q: Parts, tools: Tools, s: Kernel)
    requires HasBuiltins(s)
    ensures var t := Installed(q, tools, s).v4;
            Own(DockerIn) in t && t[Own(DockerIn)] == Entries(q.docker) && Restored(q, tools, s).v4 == t
  {
  }

  // ----- and back -----

  lemma PristineFresh(t: Table)
    requires Tidy(false, t) && NoZfw(false, t) && Untouched(t)
    ensures Pristine(t)
  {
    forall c, e | c in t && e in t[c]
      ensures e.Foreign? || (c == Own(DockerIn) && e == STOCK)
      ensures e.Foreign? && e.jumps.Some? ==> e.jumps.value.Other? || e.jumps.value == Own(DockerIn)
      ensures !(c.Own? && c != Own(DockerIn))
    {
      assert TidyChain(false, c, t[c]) && EntryFits(false, c, e);
    }
  }

  lemma {:induction false} OthersAll(es: seq<Entry>)
    requires forall e | e in es :: !e.Hook?
    ensures Others(es) == es
  {
    if es != [] {
      assert es[0] in es;
      OthersAll(es[1..]);
    }
  }

  /** Between two states without ZFW nothing of anybody else's differs. */
  lemma SameForeignChains(fam6: bool, a: Table, b: Table)
    requires Tidy(fam6, a) && Tidy(fam6, b) && SameOthers(fam6, a, b)
    requires (forall c, e :: c in a && e in a[c] ==> !e.Hook?) && (forall c, e :: c in b && e in b[c] ==> !e.Hook?)
    ensures forall c :: !Ours(fam6, c) ==> (c in a <==> c in b) && (c in a ==> a[c] == b[c])
  {
    forall c | !Ours(fam6, c) && c in a && c in b ensures a[c] == b[c] {
      OthersAll(a[c]);
      OthersAll(b[c]);
    }
  }

  lemma NoZfwNoHooks(t: Table)
    requires Tidy(false, t) && NoZfw(false, t)
    ensures forall c, e :: c in t && e in t[c] ==> !e.Hook?
  {
    forall c, e | c in t && e in t[c] ensures !e.Hook? {
      assert TidyChain(false, c, t[c]) && EntryFits(false, c, e);
    }
  }

  /** The IPv4 table after a run that ends with the rules off: as before it, but for
      DOCKER-USER. */
  lemma V4Restored(tools: Tools, h: Host, run: seq<Event>)
    requires Inv(tools, h) && Follows(tools, h, run) && h.origin.Fresh? && End(tools, h, run).origin.Off?
    ensures SameButDocker(h.kernel.v4, End(tools, h, run).kernel.v4)
  {
    EveryRun(tools, h, run);
    var a, b := h.kernel.v4, End(tools, h, run).kernel.v4;
    PristineFresh(a);
    NoZfwNoHooks(a);
    NoZfwNoHooks(b);
    SameForeignChains(false, a, b);
    forall c | c != Own(DockerIn) ensures (c in a <==> c in b) && (c in a ==> a[c] == b[c]) {
      if Ours(false, c) {
        assert Gone(a, c.kind) && Gone(b, c.kind);
      }
    }
  }

  /** Whatever was applied, failed, reverted or timed out in between, of either kind
      of script and on any host: when the rules are off again, IPv4 traffic on
      every chain but DOCKER-USER fares as before the engine first ran, whatever
      the foreign rules mean, exactly when DOCKER-USER had not been in use by its
      owner. The first apply, or revert, empties it for good. */
  lemma TrafficRestoredExact(tools: Tools, h: Host, run: seq<Event>, rank: Chain -> nat)
    requires Inv(tools, h) && Follows(tools, h, run) && Ranked(h.kernel.v4, rank)
    requires h.origin.Fresh? && End(tools, h, run).origin.Off?
    ensures SameTraffic(h.kernel.v4, End(tools, h, run).kernel.v4) <==> !DockerInUse(h.kernel.v4)
  {
    V4Restored(tools, h, run);
    EmptiedUnnoticedExact(h.kernel.v4, End(tools, h, run).kernel.v4, rank);
  }

  /** A chain as its packets see it, before and after. */
  ghost predicate FaresAlike(fam6: bool, c: Chain, a: Kernel, b: Kernel, w: World, f: Foreigners, p: Packet, st: Recent,
                             d: nat)
  {
    && c in a.Of(fam6) && c in b.Of(fam6)
    && Walk(w, f, a.Of(fam6), c, a.Of(fam6)[c], p, st, d) == Walk(w, f, b.Of(fam6), c, b.Of(fam6)[c], p, st, d)
  }

  /** IPv6 tables alike but for ZFW's chains, and without its jumps. */
  ghost predicate Alike6(a: Table, b: Table) {
    && Tidy(true, a) && (forall x, e :: x in a && e in a[x] ==> !e.Hook?)
    && forall x :: !Ours(true, x) ==> (x in a <==> x in b) && (x in a ==> a[x] == b[x])
  }

  predicate Stays6(e: Entry) {
    !e.Hook? && (e.Foreign? && e.jumps.Some? ==> !Ours(true, e.jumps.value))
  }

  lemma AllStay6(a: Table, c: Chain, e: Entry)
    requires Tidy(true, a) && (forall x, e' :: x in a && e' in a[x] ==> !e'.Hook?) && c in a && e in a[c]
    ensures Stays6(e)
  {
    assert TidyChain(true, c, a[c]) && EntryFits(true, c, e);
  }

  /** In IPv6 nothing of anybody's is ever emptied. */
  lemma {:induction false} WalkSame6(
      w: World, f: Foreigners, a: Table, b: Table, c: Chain, es: seq<Entry>, p: Packet, st: Recent, d: nat)
    requires Alike6(a, b) && forall e | e in es :: Stays6(e)
    ensures Walk(w, f, a, c, es, p, st, d) == Walk(w, f, b, c, es, p, st, d)
    decreases d, |es|
  {
    if es != [] {
      assert es[0] in es;
      StepSame6(w, f, a, b, c, es[0], p, st, d);
      var z := Step(w, f, a, c, es[0], p, st, d);
      if !z.Stop? {
        WalkSame6(w, f, a, b, c, es[1..], p, z.recent, d);
      }
    }
  }

  lemma {:induction false} StepSame6(
      w: World, f: Foreigners, a: Table, b: Table, c: Chain, e: Entry, p: Packet, st: Recent, d: nat)
    requires Alike6(a, b) && Stays6(e)
    ensures Step(w, f, a, c, e, p, st, d) == Step(w, f, b, c, e, p, st, d)
    decreases d, 0
  {
    if e.Foreign? && e.jumps.Some? && d > 0 {
      var to := e.jumps.value;
      if to in a {
        assert to in b && a[to] == b[to];
        forall x | x in a[to] ensures Stays6(x) {
          AllStay6(a, to, x);
        }
        WalkSame6(w, f, a, b, to, a[to], p, st, d - 1);
      } else {
        assert to !in b;
      }
    }
  }

  lemma V6Restored(
      tools: Tools, h: Host, run: seq<Event>, c: Chain, w: World, f: Foreigners, p: Packet, st: Recent, d: nat)
    requires Inv(tools, h) && Follows(tools, h, run) && h.origin.Fresh? && End(tools, h, run).origin.Off?
    requires c in h.kernel.v6 && !Ours(true, c)
    ensures FaresAlike(true, c, h.kernel, End(tools, h, run).kernel, w, f, p, st, d)
  {
    EveryRun(tools, h, run);
    var a, b := h.kernel.v6, End(tools, h, run).kernel.v6;
    NoZfwUnjumped(a);
    SameForeignChains(true, a, b);
    forall e | e in a[c] ensures Stays6(e) {
      AllStay6(a, c, e);
    }
    WalkSame6(w, f, a, b, c, a[c], p, st, d);
  }

  /** So in IPv6 always, and in IPv4 where DOCKER-USER was not in use, a host that ends
      with the rules off treats every packet on every chain of its own as it did
      before the engine first ran. */
  lemma TrafficRestored(tools: Tools, h: Host, run: seq<Event>, fam6: bool, c: Chain,
                        w: World, f: Foreigners, p: Packet, st: Recent, d: nat)
    requires Inv(tools, h) && Follows(tools, h, run)
    requires h.origin.Fresh? && End(tools, h, run).origin.Off?
    requires c in h.kernel.Of(fam6) && !Ours(fam6, c) && (fam6 || !DockerInUse(h.kernel.v4))
    ensures FaresAlike(fam6, c, h.kernel, End(tools, h, run).kernel, w, f, p, st, d)
  {
    if fam6 {
      V6Restored(tools, h, run, c, w, f, p, st, d);
    } else {
      V4Restored(tools, h, run);
      SameOn(w, f, h.kernel.v4, End(tools, h, run).kernel.v4, c, p, st, d);
    }
  }

  /** Nobody is locked out: after a safe apply that is not committed, two minutes
      on, every packet fares as on the host before ZFW, in IPv4 if DOCKER-USER was
      not in use. `early` is the run up to the apply and `late` what follows it. */
  lemma NobodyLockedOut(tools: Tools, h: Host, early: seq<Event>, late: seq<Event>, fam6: bool, c: Chain,
                        w: World, f: Foreigners, p: Packet, st: Recent, d: nat)
    requires Inv(tools, h) && h.origin.Fresh? && Follows(tools, h, early + late)
    requires var mid := End(tools, h, early);
             && mid.origin.Safe? && Unattended(tools, mid, late)
             && End(tools, mid, late).now > mid.origin.armedAt + 120
    requires c in h.kernel.Of(fam6) && !Ours(fam6, c) && (fam6 || !DockerInUse(h.kernel.v4))
    ensures FaresAlike(fam6, c, h.kernel, End(tools, h, early + late).kernel, w, f, p, st, d)
  {
    RunSplits(tools, h, early, late);
    EveryRun(tools, h, early);
    DeadmanUndoes(tools, End(tools, h, early), late);
    TrafficRestored(tools, h, early + late, fam6, c, w, f, p, st, d);
  }

  // ----- a ban that is lost -----

  /** A Docker host whose owner bans an address in DOCKER-USER. */
  function BanningHost(toDocker: Entry, ban: Entry): Host {
    Host(Kernel(map[Input := [], Output := [], Forward := [toDocker], Own(DockerIn) := [ban]],
                map[Input := [], Output := [], Forward := []]),
         None, 0, false, false, Fresh)
  }

  lemma BanningHostFits(tools: Tools, toDocker: Entry, ban: Entry)
    requires toDocker == Foreign("-j DOCKER-USER", Some(Own(DockerIn)))
    requires ban == Foreign("-s 203.0.113.7 -j DROP", None)
    ensures Inv(tools, BanningHost(toDocker, ban))
  {
    var h := BanningHost(toDocker, ban);
    forall c | c in h.kernel.v4 ensures TidyChain(false, c, h.kernel.v4[c]) {
      assert c in {Input, Output, Forward, Own(DockerIn)};
    }
    forall c | c in h.kernel.v6 ensures TidyChain(true, c, h.kernel.v6[c]) {
      assert c in {Input, Output, Forward};
    }
  }

  /** A safe apply that is left to time out. */
  lemma TimesOut(tools: Tools, j: Job, h: Host, apply: Event, run: seq<Event>)
    requires Inv(tools, h) && apply == Apply(true, BashScript(j), true, -1)
    requires run == [apply] + [Tick(DEADMAN_SECONDS)] + [Expire]
    ensures Follows(tools, h, run) && End(tools, h, run).origin == Off
  {
    BashGoesThrough(j, tools, h, true, apply);
    AppliedTimer(tools, h, apply);
    OneEvent(tools, h, apply);
    TimeRunsOut(tools, h, [apply]);
  }

  lemma OneEvent(tools: Tools, h: Host, e: Event)
    requires Possible(h, e)
    ensures Follows(tools, h, [e]) && End(tools, h, [e]) == Next(tools, h, e)
  {
    assert [e][1..] == [];
  }

  lemma Banned(t: Table, w: World, f: Foreigners, p: Packet, st: Recent, d: nat, toDocker: Entry, ban: Entry)
    requires toDocker.Foreign? && toDocker.jumps == Some(Own(DockerIn)) && ban.Foreign? && ban.jumps == None
    requires f.takes(Forward, toDocker, p) && f.verdict(Own(DockerIn), ban, p) == Some(Drop) && d > 0
    requires Own(DockerIn) in t && t[Own(DockerIn)] == [ban]
    ensures Walk(w, f, t, Forward, [toDocker], p, st, d) == Stop(Drop, st)
  {
    WalkOne(w, f, t, Own(DockerIn), ban, p, st, d - 1);
    WalkOne(w, f, t, Forward, toDocker, p, st, d);
  }

  lemma NotBanned(t: Table, w: World, f: Foreigners, p: Packet, st: Recent, d: nat, toDocker: Entry)
    requires toDocker.Foreign? && toDocker.jumps == Some(Own(DockerIn)) && f.takes(Forward, toDocker, p)
    requires Own(DockerIn) in t ==> t[Own(DockerIn)] == [STOCK]
    ensures Walk(w, f, t, Forward, [toDocker], p, st, d) == Fall(st)
  {
    StockReturns(w, f, t, p, st, d);
    WalkOne(w, f, t, Forward, toDocker, p, st, d);
  }

  /** A safe apply of any rule set that is then left to time out: the ban that
      dropped a packet in FORWARD before is gone after. */
  lemma BanLost(tools: Tools, j: Job, w: World, f: Foreigners, p: Packet, st: Recent, d: nat,
                toDocker: Entry, ban: Entry, apply: Event, run: seq<Event>)
    requires toDocker == Foreign("-j DOCKER-USER", Some(Own(DockerIn)))
    requires ban == Foreign("-s 203.0.113.7 -j DROP", None)
    requires f.takes(Forward, toDocker, p) && f.verdict(Own(DockerIn), ban, p) == Some(Drop) && d > 0
    requires apply == Apply(true, BashScript(j), true, -1) && run == [apply] + [Tick(DEADMAN_SECONDS)] + [Expire]
    ensures var h := BanningHost(toDocker, ban);
            var end := End(tools, h, run);
            && Inv(tools, h) && Follows(tools, h, run) && end.origin == Off
            && Forward in end.kernel.v4
            && Walk(w, f, h.kernel.v4, Forward, h.kernel.v4[Forward], p, st, d) == Stop(Drop, st)
            && Walk(w, f, end.kernel.v4, Forward, end.kernel.v4[Forward], p, st, d) == Fall(st)
  {
    var h := BanningHost(toDocker, ban);
    BanningHostFits(tools, toDocker, ban);
    TimesOut(tools, j, h, apply, run);
    V4Restored(tools, h, run);
    var end := End(tools, h, run);
    Banned(h.kernel.v4, w, f, p, st, d, toDocker, ban);
    assert Forward != Own(DockerIn) && end.kernel.v4[Forward] == h.kernel.v4[Forward] == [toDocker];
    NotBanned(end.kernel.v4, w, f, p, st, d, toDocker);
  }
}
