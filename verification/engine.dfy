/** The engine and its dead-man timer: apply, apply --safe, commit, revert, the
    timer's expiry and the passing of time, as a machine and as the object the
    shell script is. */
module Engine {
  import opened Text
  import opened Seqs
  import opened RuleLines
  import opened Tables
  import opened Scripts
  import opened BackEnds
  import opened Upkeep
  import opened Reverting
  import opened Guards

  const DEADMAN_SECONDS := 120

  /** Where the rules in force come from; Fresh before the engine ever ran. */
  datatype Origin = Fresh | Off | Plain | Safe(armedAt: int) | Committed

  datatype Host = Host(
    kernel: Kernel,
    timer: Option<int>,   // when the armed dead-man unit fires
    now: int,
    unitFile: bool,       // zfw.service written
    unitEnabled: bool,    // ... and enabled
    origin: Origin)

  /** What happens to the host. `ready` is the script check (readable, owned by
      root, not writable by others); `rejected` is the command of the script the
      kernel refuses; a commit's later steps may each fail. */
  datatype Event =
    | Apply(safe: bool, script: Script, ready: bool, rejected: int)
    | Commit(ready: bool, written: bool, reloaded: bool, enabled: bool)
    | Revert
    | Expire
    | Tick(seconds: nat)

  function ApplyRun(tools: Tools, h: Host, script: Script, rejected: int): Run {
    RunScript(script, tools, h.kernel, false, rejected)
  }

  predicate Succeeds(tools: Tools, h: Host, e: Event) {
    e.Apply? && e.ready && ApplyRun(tools, h, e.script, e.rejected).ok
  }

  function Next(tools: Tools, h: Host, e: Event): Host {
    match e
    case Apply(safe, script, ready, rejected) =>
      if !ready then h
      else
        var armed := if safe then h.(timer := Some(h.now + DEADMAN_SECONDS)) else h;
        var r := ApplyRun(tools, h, script, rejected);
        if r.ok then armed.(kernel := r.kernel, origin := if safe then Safe(h.now) else Plain)
        else armed.(kernel := Reverted(tools, r.kernel), timer := if safe then None else h.timer, origin := Off)
    case Commit(ready, written, reloaded, enabled) =>
      if !ready then h
      else h.(timer := None,
              unitFile := h.unitFile || written,
              unitEnabled := h.unitEnabled || (written && reloaded && enabled),
              origin := if h.origin.Safe? then Committed else h.origin)
    case Revert => h.(kernel := Reverted(tools, h.kernel), unitFile := false, unitEnabled := false, origin := Off)
    case Expire => h.(kernel := Reverted(tools, h.kernel), timer := None, origin := Off)
    case Tick(seconds) => h.(now := h.now + seconds)
  }

  /** The timer fires when due and not before; time does not pass it by. */
  predicate Possible(h: Host, e: Event) {
    match e
    case Apply(_, script, _, _) => GoodScript(script) && BothGuard(script)
    case Expire => h.timer.Some? && h.timer.value <= h.now
    case Tick(seconds) => h.timer.Some? ==> h.now + seconds <= h.timer.value
    case _ => true
  }

  predicate Follows(tools: Tools, h: Host, run: seq<Event>)
    decreases |run|
  {
    run == [] || (Possible(h, run[0]) && Follows(tools, Next(tools, h, run[0]), run[1..]))
  }

  function End(tools: Tools, h: Host, run: seq<Event>): Host
    decreases |run|
  {
    if run == [] then h else End(tools, Next(tools, h, run[0]), run[1..])
  }

  predicate SuitsRun(tools: Tools, run: seq<Event>) {
    forall e | e in run :: e.Apply? ==> Suits(tools, e.script)
  }

  /** Before the engine ever ran DOCKER-USER holds no compiled line, only Docker's
      RETURN and whatever its owner added. */
  predicate Untouched(t: Table) {
    Own(DockerIn) in t ==> forall e | e in t[Own(DockerIn)] :: e.Mine? ==> e == STOCK
  }

  /** The rules are off as far as any packet can tell: no ZFW chain in IPv4, no jump
      to one in IPv6, and DOCKER-USER back to its single RETURN. */
  ghost predicate OutOfForce(s: Kernel) {
    && NoZfw(false, s.v4) && Unjumped(s.v6)
    && (Own(DockerIn) in s.v4 ==> s.v4[Own(DockerIn)] == [STOCK])
  }

  ghost predicate Inv(tools: Tools, h: Host) {
    && TidyKernel(h.kernel)
    && (!tools.ip6tables ==> Unjumped(h.kernel.v6))
    && (h.origin.Fresh? ==> NoZfw(false, h.kernel.v4) && NoZfw(true, h.kernel.v6) && Untouched(h.kernel.v4))
    && (h.origin.Off? ==> OutOfForce(h.kernel))
    && (h.timer.Some? ==> h.now <= h.timer.value <= h.now + DEADMAN_SECONDS)
    && (h.origin.Safe? ==> h.timer == Some(h.origin.armedAt + DEADMAN_SECONDS) && h.origin.armedAt <= h.now)
  }

  /** Nothing of ZFW's is left anywhere while the rules are off, nor in IPv6 on a
      host that has no ip6tables. */
  ghost predicate Spotless(tools: Tools, h: Host) {
    (!tools.ip6tables ==> NoZfw(true, h.kernel.v6)) && (h.origin.Off? ==> OffState(h.kernel))
  }

  lemma NoZfwUnjumped(t: Table)
    requires Tidy(true, t) && NoZfw(true, t)
    ensures Unjumped(t)
  {
    forall c, e | c in t && e in t[c] ensures !e.Hook? {
      assert TidyChain(true, c, t[c]) && EntryFits(true, c, e);
    }
  }

  // ----- the invariant over runs -----

  lemma RevertKeeps(tools: Tools, s: Kernel)
    requires TidyKernel(s) && (!tools.ip6tables ==> Unjumped(s.v6))
    ensures var r := Reverted(tools, s);
            && TidyKernel(r) && SameOthersKernel(s, r) && OutOfForce(r)
            && (tools.ip6tables || NoZfw(true, s.v6) ==> OffState(r))
            && (!tools.ip6tables ==> r.v6 == s.v6)
  {
    RevertRestores(tools, s);
    if tools.ip6tables {
      NoZfwUnjumped(Reverted(tools, s).v6);
    }
  }

  lemma ApplyKeeps(tools: Tools, h: Host, script: Script, rejected: int)
    requires Inv(tools, h) && GoodScript(script) && BothGuard(script)
    ensures var r := ApplyRun(tools, h, script, rejected).kernel;
            && TidyKernel(r) && SameOthersKernel(h.kernel, r)
            && (!tools.ip6tables ==> Unjumped(r.v6))
            && (!tools.ip6tables && Suits(tools, script) ==> r.v6 == h.kernel.v6)
  {
    RunKeeps(script, tools, h.kernel, false, rejected);
    if !tools.ip6tables {
      GuardedMakesNoJump(script, tools, h.kernel, false, false, rejected);
      if Suits(tools, script) {
        GuardedKeepsV6(script, tools, h.kernel, false, false, rejected);
      }
    }
  }

  /** The host after an apply, from its outcome alone. */
  function Applied(h: Host, safe: bool, ok: bool, installed: Kernel, off: Kernel): Host {
    if ok then h.(kernel := installed, timer := if safe then Some(h.now + DEADMAN_SECONDS) else h.timer,
                  origin := if safe then Safe(h.now) else Plain)
    else h.(kernel := off, timer := if safe then None else h.timer, origin := Off)
  }

  lemma AppliedKeeps(tools: Tools, h: Host, safe: bool, ok: bool, installed: Kernel, off: Kernel)
    requires Inv(tools, h) && TidyKernel(installed) && TidyKernel(off) && OutOfForce(off)
    requires !tools.ip6tables ==> Unjumped(installed.v6)
    ensures Inv(tools, Applied(h, safe, ok, installed, off))
    ensures (!tools.ip6tables ==> NoZfw(true, installed.v6)) && OffState(off) ==>
      Spotless(tools, Applied(h, safe, ok, installed, off))
  {
  }

  lemma ApplyNextKeeps(tools: Tools, h: Host, safe: bool, script: Script, rejected: int)
    requires Inv(tools, h) && GoodScript(script) && BothGuard(script)
    ensures var n := Next(tools, h, Apply(safe, script, true, rejected));
            && Inv(tools, n) && SameOthersKernel(h.kernel, n.kernel)
            && (Spotless(tools, h) && Suits(tools, script) ==> Spotless(tools, n))
  {
    ApplyKeeps(tools, h, script, rejected);
    var r := ApplyRun(tools, h, script, rejected);
    var off := Reverted(tools, r.kernel);
    RevertKeeps(tools, r.kernel);
    SameTrans(h.kernel, r.kernel, off);
    AppliedKeeps(tools, h, safe, r.ok, r.kernel, off);
    assert Next(tools, h, Apply(safe, script, true, rejected)) == Applied(h, safe, r.ok, r.kernel, off);
  }

  lemma RevertNextKeeps(tools: Tools, h: Host, e: Event)
    requires Inv(tools, h) && (e.Revert? || e.Expire?)
    ensures var n := Next(tools, h, e);
            && Inv(tools, n) && SameOthersKernel(h.kernel, n.kernel)
            && (Spotless(tools, h) ==> Spotless(tools, n))
  {
    RevertKeeps(tools, h.kernel);
  }

  lemma NextKeeps(tools: Tools, h: Host, e: Event)
    requires Inv(tools, h) && Possible(h, e)
    ensures var n := Next(tools, h, e);
            && Inv(tools, n) && SameOthersKernel(h.kernel, n.kernel)
            && (Spotless(tools, h) && (e.Apply? ==> Suits(tools, e.script)) ==> Spotless(tools, n))
  {
    SameRefl(h.kernel);
    match e
    case Apply(safe, script, ready, rejected) =>
      if ready {
        ApplyNextKeeps(tools, h, safe, script, rejected);
      }
    case Revert => RevertNextKeeps(tools, h, e);
    case Expire => RevertNextKeeps(tools, h, e);
    case _ =>
  }

  /** Over every run, with applies that succeed or fail at any command, reverts,
      expiries, commits and any passage of time: at most one jump to each ZFW
      chain, in its place; everybody else's chains and rules unchanged and in
      order; and whenever the rules are off, no packet can meet anything of ZFW's.
      Nothing of ZFW's is even left then, unless a restore script built IPv6
      chains on a host with ip6tables-restore alone. */
  lemma {:induction false} EveryRun(tools: Tools, h: Host, run: seq<Event>)
    requires Inv(tools, h) && Follows(tools, h, run)
    ensures Inv(tools, End(tools, h, run))
    ensures SameOthersKernel(h.kernel, End(tools, h, run).kernel)
    ensures Spotless(tools, h) && SuitsRun(tools, run) ==> Spotless(tools, End(tools, h, run))
    decreases |run|
  {
    SameRefl(h.kernel);
    if run != [] {
      var next := Next(tools, h, run[0]);
      assert run[0] in run && forall e | e in run[1..] :: e in run;
      NextKeeps(tools, h, run[0]);
      EveryRun(tools, next, run[1..]);
      SameTrans(h.kernel, next.kernel, End(tools, next, run[1..]).kernel);
    }
  }

  /** What the compiler writes is what the engine may be given: the bash script on
      every host, the restore script on every sane one. */
  lemma CompiledPossible(j: Job, tools: Tools, h: Host, safe: bool, ready: bool, rejected: int)
    ensures Possible(h, Apply(safe, BashScript(j), ready, rejected)) && Suits(tools, BashScript(j))
    ensures Possible(h, Apply(safe, RestoreScript(j), ready, rejected))
    ensures SaneTools(tools) <==> Suits(tools, RestoreScript(j))
  {
    BashSuits(j.Compiled6(), j.codes, tools);
    RestoreAsks(j.Compiled6(), j.codes);
    BashGood(j.Compiled6(), j.codes);
    RestoreGood(j.Compiled6(), j.codes);
    forall g ensures Guarded(g, BashScript(j), false) && Guarded(g, RestoreScript(j), false) {
      BashGuarded(g, j.Compiled6(), j.codes);
      RestoreGuarded(g, j.Compiled6(), j.codes);
    }
  }

  /** A restore-mode apply, then a revert, leaves the host clean exactly on hosts
      where ip6tables-restore does not come without ip6tables. */
  lemma CleanAfterRevertExact(j: Job, tools: Tools, h: Host)
    requires TidyKernel(h.kernel) && NoZfw(true, h.kernel.v6)
    ensures OffState(Reverted(tools, Accepted(RestoreScript(j), tools, h.kernel, false).kernel)) <==> SaneTools(tools)
  {
    var q := j.Compiled6();
    RestoreGood(q, j.codes);
    RestoreGuarded(AnyTool, q, j.codes);
    if SaneTools(tools) {
      RunKeeps(RestoreScript(j), tools, h.kernel, false, -1);
      if !tools.ip6tables {
        GuardedKeepsV6(RestoreScript(j), tools, h.kernel, false, false, -1);
      }
      RevertRestores(tools, Accepted(RestoreScript(j), tools, h.kernel, false).kernel);
    } else {
      OrphanChain(q, j.codes, h.kernel);
    }
  }

  // ----- the dead man -----

  /** No commit passes its check and no apply succeeds during the run. */
  predicate Unattended(tools: Tools, h: Host, run: seq<Event>)
    decreases |run|
  {
    run == [] ||
    (&& !(run[0].Commit? && run[0].ready) && !Succeeds(tools, h, run[0])
     && Unattended(tools, Next(tools, h, run[0]), run[1..]))
  }

  lemma {:induction false} UnattendedOrigin(tools: Tools, h: Host, run: seq<Event>)
    requires Unattended(tools, h, run)
    ensures End(tools, h, run).origin in {h.origin, Off}
    decreases |run|
  {
    if run != [] {
      UnattendedOrigin(tools, Next(tools, h, run[0]), run[1..]);
    }
  }

  /** A safe apply that nobody commits is undone: any run that goes on for more
      than two minutes after arming, without a commit or another successful
      apply, ends with the rules off and out of force, however often applies
      fail, reverts happen or commits are refused meanwhile; with nothing of ZFW's
      left where the scripts suit the host. */
  lemma DeadmanUndoes(tools: Tools, h: Host, run: seq<Event>)
    requires Inv(tools, h) && Follows(tools, h, run)
    requires h.origin.Safe? && Unattended(tools, h, run)
    requires End(tools, h, run).now > h.origin.armedAt + 120
    ensures End(tools, h, run).origin == Off && OutOfForce(End(tools, h, run).kernel)
    ensures Spotless(tools, h) && SuitsRun(tools, run) ==> OffState(End(tools, h, run).kernel)
  {
    EveryRun(tools, h, run);
    UnattendedOrigin(tools, h, run);
  }

  predicate ClockOnly(run: seq<Event>) {
    forall e | e in run :: e.Tick? || e.Expire?
  }

  lemma {:induction false} ClockIdle(tools: Tools, h: Host, run: seq<Event>)
    requires h.timer.None? && ClockOnly(run) && Follows(tools, h, run)
    ensures End(tools, h, run).kernel == h.kernel
    decreases |run|
  {
    if run != [] {
      assert run[0] in run && forall e | e in run[1..] :: e in run;
      ClockIdle(tools, Next(tools, h, run[0]), run[1..]);
    }
  }

  lemma TimerRunsOut(tools: Tools, h: Host, run: seq<Event>)
    requires Inv(tools, h) && h.timer.Some? && run == [Tick(h.timer.value - h.now), Expire]
    ensures ClockOnly(run) && Follows(tools, h, run) && End(tools, h, run).kernel == Reverted(tools, h.kernel)
  {
    var due := Next(tools, h, run[0]);
    assert run[1..] == [Expire] && [Expire][1..] == [];
    assert Follows(tools, due, [Expire]);
    assert End(tools, h, run) == Next(tools, due, Expire);
  }

  /** Rules that hold a ZFW chain outlast the clock exactly when no timer is
      armed. An apply without --safe does not disarm one, so a stale timer takes
      its rules down too. */
  lemma OutlastsClockExact(tools: Tools, h: Host)
    requires Inv(tools, h) && Own(In) in h.kernel.v4
    ensures (forall run :: ClockOnly(run) && Follows(tools, h, run) ==> End(tools, h, run).kernel == h.kernel)
      <==> h.timer.None?
  {
    if h.timer.None? {
      forall run | ClockOnly(run) && Follows(tools, h, run) ensures End(tools, h, run).kernel == h.kernel {
        ClockIdle(tools, h, run);
      }
    } else {
      var run := [Tick(h.timer.value - h.now), Expire];
      TimerRunsOut(tools, h, run);
      RevertRestores(tools, h.kernel);
      assert Gone(Reverted(tools, h.kernel).v4, In);
    }
  }

  // ----- what commit, revert and a failure do -----

  lemma {:induction false} RunSplits(tools: Tools, h: Host, early: seq<Event>, late: seq<Event>)
    ensures Follows(tools, h, early + late) <==>
              Follows(tools, h, early) && Follows(tools, End(tools, h, early), late)
    ensures End(tools, h, early + late) == End(tools, End(tools, h, early), late)
    decreases |early|
  {
    if early == [] {
      assert early + late == late;
    } else {
      assert (early + late)[1..] == early[1..] + late;
      RunSplits(tools, Next(tools, h, early[0]), early[1..], late);
    }
  }

  /** A commit that passes its check cancels the dead man, whatever becomes of its
      later steps: nothing but time passing, the tables stay as they are. */
  lemma CommitOutlastsClock(
      tools: Tools, h: Host, written: bool, reloaded: bool, enabled: bool, later: seq<Event>)
    requires var n := Next(tools, h, Commit(true, written, reloaded, enabled));
             ClockOnly(later) && Follows(tools, n, later)
    ensures End(tools, Next(tools, h, Commit(true, written, reloaded, enabled)), later).kernel == h.kernel
  {
    ClockIdle(tools, Next(tools, h, Commit(true, written, reloaded, enabled)), later);
  }

  /** Before a timer is due, time does nothing. */
  lemma {:induction false} WaitsIdle(tools: Tools, h: Host, wait: seq<Event>)
    requires ClockOnly(wait) && Follows(tools, h, wait)
    requires h.timer.Some? ==> End(tools, h, wait).now < h.timer.value
    ensures End(tools, h, wait).now >= h.now
    ensures End(tools, h, wait) == h.(now := End(tools, h, wait).now)
    decreases |wait|
  {
    if wait != [] {
      assert wait[0] in wait && forall e | e in wait[1..] :: e in wait;
      TimeGoesOn(tools, h, wait);
      WaitsIdle(tools, Next(tools, h, wait[0]), wait[1..]);
    }
  }

  lemma {:induction false} TimeGoesOn(tools: Tools, h: Host, run: seq<Event>)
    ensures End(tools, h, run).now >= h.now
    decreases |run|
  {
    if run != [] {
      TimeGoesOn(tools, Next(tools, h, run[0]), run[1..]);
    }
  }

  lemma ArmedFor120(tools: Tools, h: Host, apply: Event)
    requires apply.Apply? && apply.safe && Succeeds(tools, h, apply)
    ensures var n := Next(tools, h, apply);
            && n.timer == Some(h.now + 120) && n.now == h.now
            && n.kernel == RunScript(apply.script, tools, h.kernel, false, apply.rejected).kernel
  {
  }

  /** A safe apply that goes through, and a commit that passes its check within two
      minutes: what the script made of the tables stays in force, however long
      nothing else happens. */
  lemma CommittedStays(
      tools: Tools, h: Host, apply: Event, wait: seq<Event>, commit: Event, later: seq<Event>)
    requires apply.Apply? && apply.safe && Succeeds(tools, h, apply) && commit.Commit? && commit.ready
    requires Follows(tools, h, [apply] + wait + [commit] + later) && ClockOnly(wait) && ClockOnly(later)
    requires End(tools, h, [apply] + wait).now < h.now + 120
    ensures End(tools, h, [apply] + wait + [commit] + later).kernel
         == RunScript(apply.script, tools, h.kernel, false, apply.rejected).kernel
  {
    var n, mid := Next(tools, h, apply), End(tools, h, [apply] + wait);
    RunSplits(tools, h, [apply] + wait + [commit], later);
    RunSplits(tools, h, [apply] + wait, [commit]);
    RunSplits(tools, h, [apply], wait);
    assert [apply][1..] == [] && [commit][1..] == [];
    ArmedFor120(tools, h, apply);
    WaitsIdle(tools, n, wait);
    assert End(tools, mid, [commit]) == Next(tools, mid, commit);
    CommitOutlastsClock(tools, mid, commit.written, commit.reloaded, commit.enabled, later);
  }

  /** An apply that fails at any command, safe or not, whatever was in force before,
      leaves the rules off and out of force. */
  lemma FailureTakesDown(tools: Tools, h: Host, apply: Event)
    requires Inv(tools, h) && Possible(h, apply) && apply.Apply? && apply.ready
    requires !RunScript(apply.script, tools, h.kernel, false, apply.rejected).ok
    ensures OutOfForce(Next(tools, h, apply).kernel) && SameOthersKernel(h.kernel, Next(tools, h, apply).kernel)
    ensures !Succeeds(tools, h, apply)
  {
    ApplyKeeps(tools, h, apply.script, apply.rejected);
    var r := ApplyRun(tools, h, apply.script, apply.rejected);
    RevertKeeps(tools, r.kernel);
    SameTrans(h.kernel, r.kernel, Reverted(tools, r.kernel));
  }

  /** So does a revert, whatever was in force, and the timer. */
  lemma RevertTakesDown(tools: Tools, h: Host, e: Event)
    requires Inv(tools, h) && (e == Revert || e == Expire)
    ensures OutOfForce(Next(tools, h, e).kernel) && SameOthersKernel(h.kernel, Next(tools, h, e).kernel)
  {
    RevertKeeps(tools, h.kernel);
  }

  /** An apply or a commit whose script does not pass the check does nothing at all. */
  lemma UncheckedDoesNothing(tools: Tools, h: Host, e: Event)
    requires (e.Apply? || e.Commit?) && !e.ready
    ensures Next(tools, h, e) == h
  {
  }

  // ----- what the next boot starts -----

  predicate Full(e: Event) {
    e.Commit? && e.ready && e.written && e.reloaded && e.enabled
  }

  /** Some event of the run is one of these, and no revert comes after it. */
  ghost predicate Unreverted(run: seq<Event>, m: Event -> bool) {
    exists i | 0 <= i < |run| :: m(run[i]) && forall j | i < j < |run| :: !run[j].Revert?
  }

  lemma UnrevertedSnoc(run: seq<Event>, e: Event, m: Event -> bool)
    requires !m(Revert)
    ensures Unreverted(run + [e], m) <==> m(e) || (Unreverted(run, m) && !e.Revert?)
  {
    var all := run + [e];
    if m(e) {
      assert m(all[|run|]);
    } else if Unreverted(run, m) && !e.Revert? {
      var i :| 0 <= i < |run| && m(run[i]) && forall j | i < j < |run| :: !run[j].Revert?;
      assert m(all[i]);
    }
    if Unreverted(all, m) && !m(e) {
      var i :| 0 <= i < |all| && m(all[i]) && forall j | i < j < |all| :: !all[j].Revert?;
      assert m(run[i]) && !all[|run|].Revert?;
      forall j | i < j < |run| ensures !run[j].Revert? {
        assert run[j] == all[j];
      }
    }
  }

  /** Over any run, the boot unit is enabled at its end exactly when a commit went
      through to the last step and no revert came after it, and its file is there
      when a commit got as far as writing it. An expiry leaves both: the boot after
      a dead man fired still starts the unit of an earlier commit. */
  lemma {:induction false} BootExact(tools: Tools, h: Host, run: seq<Event>)
    requires !h.unitFile && !h.unitEnabled
    ensures End(tools, h, run).unitEnabled <==> Unreverted(run, e => Full(e))
    ensures End(tools, h, run).unitFile <==> Unreverted(run, (e: Event) => e.Commit? && e.ready && e.written)
    decreases |run|
  {
    if run != [] {
      var n := |run| - 1;
      SplitLast(run);
      BootExact(tools, h, run[..n]);
      RunSplits(tools, h, run[..n], [run[n]]);
      assert [run[n]][1..] == [];
      UnrevertedSnoc(run[..n], run[n], e => Full(e));
      UnrevertedSnoc(run[..n], run[n], (e: Event) => e.Commit? && e.ready && e.written);
    }
  }

  /** A compiled bash script always goes through. */
  lemma BashSucceeds(j: Job, tools: Tools, h: Host, safe: bool)
    requires Inv(tools, h)
    ensures var e := Apply(safe, BashScript(j), true, -1);
            && Possible(h, e) && Succeeds(tools, h, e)
            && Next(tools, h, e).kernel == InstalledBash(j.Compiled6(), tools, h.kernel)
            && Next(tools, h, e).timer == (if safe then Some(h.now + DEADMAN_SECONDS) else h.timer)
            && Next(tools, h, e).now == h.now
            && Inv(tools, Next(tools, h, e)) && Own(In) in Next(tools, h, e).kernel.v4
  {
    CompiledPossible(j, tools, h, safe, true, -1);
    BashInstalls(j.Compiled6(), j.codes, tools, h.kernel);
    InstalledHoldsIn(j.Compiled6(), tools, h.kernel);
    AcceptedApply(tools, h, safe, BashScript(j), InstalledBash(j.Compiled6(), tools, h.kernel));
  }

  lemma InstalledHoldsIn(q: Parts, tools: Tools, s: Kernel)
    requires HasBuiltins(s)
    ensures Own(In) in InstalledBash(q, tools, s).v4
  {
  }

  lemma AcceptedApply(tools: Tools, h: Host, safe: bool, script: Script, installed: Kernel)
    requires Inv(tools, h) && Accepted(script, tools, h.kernel, false) == Run(true, installed, false)
    requires Possible(h, Apply(safe, script, true, -1))
    ensures var e := Apply(safe, script, true, -1);
            && Succeeds(tools, h, e) && Next(tools, h, e).kernel == installed
            && Next(tools, h, e).timer == (if safe then Some(h.now + DEADMAN_SECONDS) else h.timer)
            && Next(tools, h, e).now == h.now && Inv(tools, Next(tools, h, e))
  {
    NextKeeps(tools, h, Apply(safe, script, true, -1));
  }

  lemma {:induction false} RunOnTo(tools: Tools, h: Host, run: seq<Event>, e: Event)
    requires Follows(tools, h, run) && Possible(End(tools, h, run), e)
    ensures Follows(tools, h, run + [e]) && End(tools, h, run + [e]) == Next(tools, End(tools, h, run), e)
    decreases |run|
  {
    if run == [] {
      assert run + [e] == [e] && [e][1..] == [];
    } else {
      assert (run + [e])[1..] == run[1..] + [e];
      RunOnTo(tools, Next(tools, h, run[0]), run[1..], e);
    }
  }

  lemma TwoEvents(tools: Tools, h: Host, first: Event, second: Event)
    requires Possible(h, first) && Possible(Next(tools, h, first), second)
    ensures Follows(tools, h, [first] + [second])
    ensures End(tools, h, [first] + [second]) == Next(tools, Next(tools, h, first), second)
  {
    assert [] + [first] == [first] && End(tools, h, []) == h;
    RunOnTo(tools, h, [], first);
    RunOnTo(tools, h, [first], second);
  }

  /** The two minutes pass, and the timer fires. */
  lemma TimeRunsOut(tools: Tools, h: Host, run: seq<Event>)
    requires Follows(tools, h, run)
    requires End(tools, h, run).timer == Some(End(tools, h, run).now + DEADMAN_SECONDS)
    ensures var all := run + [Tick(DEADMAN_SECONDS)] + [Expire];
            Follows(tools, h, all) && End(tools, h, all).origin == Off
  {
    RunOnTo(tools, h, run, Tick(DEADMAN_SECONDS));
    RunOnTo(tools, h, run + [Tick(DEADMAN_SECONDS)], Expire);
  }

  /** A successful apply sets the timer or leaves it, and the clock alone. */
  lemma AppliedTimer(tools: Tools, h: Host, e: Event)
    requires e.Apply? && Succeeds(tools, h, e)
    ensures var n := Next(tools, h, e);
            && n.timer == (if e.safe then Some(h.now + DEADMAN_SECONDS) else h.timer) && n.now == h.now
            && n.origin == (if e.safe then Safe(h.now) else Plain)
  {
  }

  /** A safe apply, then a plain one, each of which succeeds, so that the second seems
      final: two minutes after the first its timer takes the second's rules down.
      Any two compiled scripts are such a pair (BashSucceeds). */
  lemma StaleTimerTakesDown(
      tools: Tools, h: Host, first: Event, second: Event, two: seq<Event>, all: seq<Event>)
    requires Inv(tools, h) && first.Apply? && first.safe && Possible(h, first) && Succeeds(tools, h, first)
    requires var n := Next(tools, h, first);
             second.Apply? && !second.safe && Possible(n, second) && Succeeds(tools, n, second)
    requires two == [first] + [second] && all == two + [Tick(DEADMAN_SECONDS)] + [Expire]
    ensures Follows(tools, h, two) && End(tools, h, two).origin == Plain
    ensures Follows(tools, h, all) && End(tools, h, all).origin == Off && OutOfForce(End(tools, h, all).kernel)
  {
    AppliedTimer(tools, h, first);
    AppliedTimer(tools, Next(tools, h, first), second);
    TwoEvents(tools, h, first, second);
    TimeRunsOut(tools, h, two);
    EveryRun(tools, h, all);
  }

  lemma BashGoesThrough(j: Job, tools: Tools, h: Host, safe: bool, e: Event)
    requires Inv(tools, h) && e == Apply(safe, BashScript(j), true, -1)
    ensures Possible(h, e) && Succeeds(tools, h, e)
  {
    BashSucceeds(j, tools, h, safe);
  }

  // ----- the object -----

  /** The engine as the script runs it: every command on the live tables in turn. */
  class FirewallEngine {
    const tools: Tools
    var kernel: Kernel
    var timer: Option<int>
    var now: int
    var unitFile: bool
    var unitEnabled: bool
    ghost var origin: Origin

    constructor (tools: Tools, kernel: Kernel, now: int)
      ensures this.tools == tools
      ensures State() == Host(kernel, None, now, false, false, Fresh)
    {
      this.tools := tools;
      this.kernel := kernel;
      this.timer := None;
      this.now := now;
      this.unitFile := false;
      this.unitEnabled := false;
      this.origin := Fresh;
    }

    ghost function State(): Host
      reads this
    {
      Host(kernel, timer, now, unitFile, unitEnabled, origin)
    }

    /** Runs a script command by command under `set -e`. */
    method RunCommands(script: Script, rejected: int) returns (ok: bool)
      modifies this`kernel
      ensures var r := RunScript(script, tools, old(kernel), false, rejected);
              ok == r.ok && kernel == r.kernel
    {
      var skipping := false;
      ghost var whole := RunScript(script, tools, kernel, false, rejected);
      for i := 0 to |script|
        invariant RunScript(script[i..], tools, kernel, skipping, rejected - i) == whole
      {
        assert script[i..][1..] == script[i + 1..];
        var r := StepCmd(script[i], tools, kernel, skipping, rejected == i);
        kernel := r.kernel;
        if !r.ok {
          return false;
        }
        skipping := r.skipping;
      }
      return true;
    }

    method TearDown()
      modifies this`kernel
      ensures kernel == Reverted(tools, old(kernel))
    {
      var _ := RunCommands(RevertScript(), -1);
    }

    method ArmDeadman()
      modifies this`timer
      ensures timer == Some(now + DEADMAN_SECONDS)
    {
      timer := None;
      timer := Some(now + DEADMAN_SECONDS);
    }

    method ApplyRules(safe: bool, script: Script, ready: bool, rejected: int) returns (ok: bool)
      modifies this
      ensures State() == Next(tools, old(State()), Apply(safe, script, ready, rejected))
      ensures ok == Succeeds(tools, old(State()), Apply(safe, script, ready, rejected))
    {
      if !ready {
        return false;
      }
      ghost var began := now;
      if safe {
        ArmDeadman();
      }
      ok := RunCommands(script, rejected);
      if !ok {
        TearDown();
        if safe {
          timer := None;
        }
        origin := Off;
        return;
      }
      origin := if safe then Safe(began) else Plain;
    }

    method CommitRules(ready: bool, written: bool, reloaded: bool, enabled: bool) returns (ok: bool)
      modifies this
      ensures State() == Next(tools, old(State()), Commit(ready, written, reloaded, enabled))
      ensures ok == (ready && written && reloaded && enabled)
    {
      if !ready {
        return false;
      }
      timer := None;
      origin := if origin.Safe? then Committed else origin;
      if !written {
        return false;
      }
      unitFile := true;
      if !reloaded || !enabled {
        return false;
      }
      unitEnabled := true;
      return true;
    }

    method RevertRules()
      modifies this
      ensures State() == Next(tools, old(State()), Revert)
    {
      TearDown();
      unitEnabled := false;
      unitFile := false;
      origin := Off;
    }

    /** The dead-man unit fires. */
    method AutoRevert()
      modifies this
      ensures State() == Next(tools, old(State()), Expire)
    {
      timer := None;
      TearDown();
      origin := Off;
    }
  }
}
