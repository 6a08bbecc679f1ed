/** What reaches the kernel log: the prefixes of the LOG lines one packet meets on a
    chain, which is all the events page and the classifier ever see. */
module Logs {
  import opened Text
  import opened Seqs
  import opened Rules
  import opened Netfilter
  import opened RuleLines
  import opened Ordering
  import opened Chains
  import opened Meaning
  import opened Verdicts

  /** The LOG lines a packet meets on its way down a chain. */
  function Logged(w: World, chain: seq<Line>, p: Packet, st: Recent): seq<string> {
    if chain == [] then []
    else if !AllHold(w, chain[0].conds, p) then Logged(w, chain[1..], p, st)
    else
      match chain[0].act
      case Jump(_) => []
      case Log(prefix) => [prefix] + Logged(w, chain[1..], p, st)
      case RecentSet(name) => Logged(w, chain[1..], p, Stamp(st, name, p))
      case RecentUpdate(name, seconds, hitcount) =>
        if Hits(st, name, p, seconds) >= hitcount then [] else Logged(w, chain[1..], p, st)
  }

  lemma LoggedStep(w: World, line: Line, rest: seq<Line>, p: Packet, st: Recent)
    ensures var r := Logged(w, [line] + rest, p, st);
            if !AllHold(w, line.conds, p) then r == Logged(w, rest, p, st)
            else if line.act.Jump? then r == []
            else if line.act.Log? then r == [line.act.prefix] + Logged(w, rest, p, st)
            else if line.act.RecentSet? then r == Logged(w, rest, p, Stamp(st, line.act.name, p))
            else if Hits(st, line.act.name, p, line.act.seconds) >= line.act.hitcount then r == []
            else r == Logged(w, rest, p, st)
  {
    assert ([line] + rest)[1..] == rest;
  }

  // ----- the fixed lines log nothing -----

  /** Where lines that only jump send the packet, if one of them takes it. */
  function Taken(w: World, lines: seq<Line>, p: Packet): Option<Verdict>
    requires forall l | l in lines :: l.act.Jump?
  {
    if lines == [] then None
    else if AllHold(w, lines[0].conds, p) then Some(lines[0].act.verdict)
    else Taken(w, lines[1..], p)
  }

  lemma {:induction false} JumpsAct(w: World, lines: seq<Line>, rest: seq<Line>, p: Packet, st: Recent)
    requires forall l | l in lines :: l.act.Jump?
    ensures var t := Taken(w, lines, p);
            && Eval(w, lines + rest, p, st) == (if t.Some? then Outcome(t.value, st) else Eval(w, rest, p, st))
            && Logged(w, lines + rest, p, st) == (if t.Some? then [] else Logged(w, rest, p, st))
  {
    if lines == [] {
      assert lines + rest == rest;
    } else {
      assert lines + rest == [lines[0]] + (lines[1..] + rest);
      assert lines[0] in lines;
      EvalStep(w, lines[0], lines[1..] + rest, p, st);
      LoggedStep(w, lines[0], lines[1..] + rest, p, st);
      JumpsAct(w, lines[1..], rest, p, st);
    }
  }

  lemma PrologueMeans(k: Kind, w: World, rs: RuleSet, extra: seq<string>, rest: seq<Line>, p: Packet, st: Recent)
    ensures var b := Bypass(k, w, rs, extra, p);
            Eval(w, Prologue(k, rs, extra) + rest, p, st) ==
            if b.Some? then Outcome(b.value, st) else Eval(w, rest, p, st)
  {
    match k {
      case In => PrologueIn(w, rs, extra, rest, p, st);
      case DockerIn => PrologueDocker(w, rs, extra, rest, p, st);
      case In6 => PrologueIn6(w, rs, extra, rest, p, st);
      case _ => PrologueOut(k, w, rs, extra, rest, p, st);
    }
  }

  lemma PrologueJumps(k: Kind, rs: RuleSet, extra: seq<string>)
    ensures forall l | l in Prologue(k, rs, extra) :: l.act.Jump?
  {
  }

  lemma OneJump(w: World, v: Verdict, p: Packet, st: Recent)
    ensures Eval(w, [Line([], Jump(v))], p, st).verdict == v
  {
    EvalStep(w, Line([], Jump(v)), [], p, st);
    assert [Line([], Jump(v))] + [] == [Line([], Jump(v))];
  }

  lemma PrologueLogs(k: Kind, w: World, rs: RuleSet, extra: seq<string>, rest: seq<Line>, p: Packet, st: Recent)
    ensures Logged(w, Prologue(k, rs, extra) + rest, p, st) ==
      if Bypass(k, w, rs, extra, p).Some? then [] else Logged(w, rest, p, st)
  {
    var lines := Prologue(k, rs, extra);
    PrologueJumps(k, rs, extra);
    JumpsAct(w, lines, rest, p, st);
    forall v ensures Taken(w, lines, p).None? ==>
        Eval(w, lines + [Line([], Jump(v))], p, st).verdict == v
      ensures Bypass(k, w, rs, extra, p).None? ==> Eval(w, lines + [Line([], Jump(v))], p, st).verdict == v
      ensures Taken(w, lines, p).Some? ==>
        Eval(w, lines + [Line([], Jump(v))], p, st).verdict == Taken(w, lines, p).value
      ensures Bypass(k, w, rs, extra, p).Some? ==>
        Eval(w, lines + [Line([], Jump(v))], p, st).verdict == Bypass(k, w, rs, extra, p).value
    {
      OneJump(w, v, p, st);
      JumpsAct(w, lines, [Line([], Jump(v))], p, st);
      PrologueMeans(k, w, rs, extra, [Line([], Jump(v))], p, st);
    }
    var a, b := Eval(w, lines + [Line([], Jump(Accept))], p, st), Eval(w, lines + [Line([], Jump(Drop))], p, st);
    assert Taken(w, lines, p).Some? <==> a.verdict == b.verdict;
    assert Bypass(k, w, rs, extra, p).Some? <==> a.verdict == b.verdict;
  }

  // ----- the rules -----

  /** What a governing rule logs: its own prefix, once, if it is to log and lets the
      packet come to that. */
  function RuleLogs(r: Rule, p: Packet, st: Recent): seq<string> {
    if r.log && !OverLimit(r, p, st) then ["ZFW-RULE-" + r.id + " "] else []
  }

  lemma LoggedWrapped(w: World, conds: seq<Match>, r: Rule, target: Verdict, rest: seq<Line>, p: Packet, st: Recent)
    ensures Logged(w, Wrapped(conds, r, target) + rest, p, st) ==
      if AllHold(w, conds, p) then RuleLogs(r, p, st) else Logged(w, rest, p, st)
  {
    var jump, log := Line(conds, Jump(target)), Line(conds, Log("ZFW-RULE-" + r.id + " "));
    var afterLimit := (if r.log then [log] else []) + ([jump] + rest);
    forall st' ensures Logged(w, afterLimit, p, st') ==
        if AllHold(w, conds, p) then (if r.log then ["ZFW-RULE-" + r.id + " "] else []) else Logged(w, rest, p, st')
    {
      LoggedStep(w, jump, rest, p, st');
      if r.log {
        LoggedStep(w, log, [jump] + rest, p, st');
      } else {
        assert afterLimit == [jump] + rest;
      }
    }
    if RateLimited(r) {
      var name, limit := BucketName(r), r.rateLimit.value;
      var set_, update := Line(conds, RecentSet(name)), Line(conds, RecentUpdate(name, limit.seconds, limit.conn));
      assert Wrapped(conds, r, target) + rest == [set_] + ([update] + afterLimit);
      LoggedStep(w, set_, [update] + afterLimit, p, st);
      LoggedStep(w, update, afterLimit, p, st);
      LoggedStep(w, update, afterLimit, p, Stamp(st, name, p));
    } else {
      assert Wrapped(conds, r, target) + rest == afterLimit;
    }
  }

  lemma {:induction false} LoggedWrapAll(
      w: World, alts: seq<seq<Match>>, r: Rule, target: Verdict, rest: seq<Line>, p: Packet, st: Recent)
    ensures Logged(w, WrapAll(alts, r, target) + rest, p, st) ==
      if AnyHold(w, alts, p) then RuleLogs(r, p, st) else Logged(w, rest, p, st)
  {
    if alts == [] {
      assert WrapAll(alts, r, target) + rest == rest;
    } else {
      var n := |alts| - 1;
      var last := Wrapped(alts[n], r, target);
      assert WrapAll(alts, r, target) + rest == WrapAll(alts[..n], r, target) + (last + rest);
      LoggedWrapAll(w, alts[..n], r, target, last + rest, p, st);
      LoggedWrapped(w, alts[n], r, target, rest, p, st);
      AnyHoldAppend(w, alts[..n], [alts[n]], p);
      AnyHoldOne(w, alts[n], p);
      assert alts[..n] + [alts[n]] == alts;
    }
  }

  lemma {:induction false} LoggedSection(
      k: Kind, w: World, rl: seq<Rule>, published: set<int>, rest: seq<Line>, p: Packet, st: Recent)
    requires forall r | r in rl :: Compilable(r)
    ensures var f := First(rl, Governs(k, w, published, p));
            Logged(w, Section(k, rl, published) + rest, p, st) ==
            if f.Some? then RuleLogs(f.value, p, st) else Logged(w, rest, p, st)
  {
    if rl == [] {
      assert Section(k, rl, published) + rest == rest;
    } else {
      var n := |rl| - 1;
      var r, m := rl[n], Governs(k, w, published, p);
      var last := if r.enabled then LinesOf(k, r, published) else [];
      SplitLast(rl);
      FirstSnoc(rl[..n], r, m);
      SectionRest(k, rl, published, last, rest);
      LoggedSection(k, w, rl[..n], published, last + rest, p, st);
      AltsMeaning(k, w, r, published, p);
      LoggedWrapAll(w, Alts(k, r, published), r, Target(k, r.action), rest, p, st);
      assert [] + rest == rest;
    }
  }

  // ----- the defaults -----

  /** What a packet no rule governs logs: the prefix of the default that drops it, if
      it is new and its port not on the V6Drop list. */
  function DefaultLogs(k: Kind, w: World, rs: RuleSet, p: Packet): seq<string> {
    if p.state != New then []
    else
      match k
      case In => if rs.policy == AllowPolicy then [] else ["ZFW-IN-DROP "]
      case DockerIn =>
        if rs.policy == DenyPolicy && rs.lan != "" && w.inNet(rs.lan, p.src) then ["ZFW-DOCK-DROP "] else []
      case In6 =>
        if rs.policy == AllowPolicy || (p.transport == TCP && p.dport in rs.v6Drop) then [] else ["ZFW-IN6-DROP "]
      case _ => []
  }

  lemma LogThenEnd(w: World, prefix: string, rest: seq<Line>, p: Packet, st: Recent)
    ensures Logged(w, [LogNew([], prefix)] + rest, p, st) ==
      (if p.state == New then [prefix] else []) + Logged(w, rest, p, st)
    ensures Logged(w, [Line([], Jump(Drop))], p, st) == [] && Logged(w, [Line([], Jump(Return))], p, st) == []
  {
    var log := LogNew([], prefix);
    assert log.conds == [StateIn({New})];
    SingleHolds(w, StateIn({New}), p);
    LoggedStep(w, log, rest, p, st);
    forall v | v in {Drop, Return} ensures Logged(w, [Line([], Jump(v))], p, st) == [] {
      LoggedStep(w, Line([], Jump(v)), [], p, st);
      assert [Line([], Jump(v))] + [] == [Line([], Jump(v))];
    }
  }

  lemma DropsLogged(w: World, prefix: string, p: Packet, st: Recent)
    ensures Logged(w, [LogNew([], prefix), Line([], Jump(Drop))], p, st) == if p.state == New then [prefix] else []
  {
    var log, end := LogNew([], prefix), Line([], Jump(Drop));
    LogThenEnd(w, prefix, [end], p, st);
    assert [log] + [end] == [log, end];
  }

  lemma LanLogged(w: World, rs: RuleSet, p: Packet, st: Recent)
    ensures Logged(w, Epilogue(DockerIn, rs), p, st) == DefaultLogs(DockerIn, w, rs, p)
  {
    var ret := Line([], Jump(Return));
    LogThenEnd(w, "", [], p, st);
    if rs.policy == DenyPolicy && rs.lan != "" {
      var log, lanDrop := LogNew([SrcNet(rs.lan)], "ZFW-DOCK-DROP "), Line([SrcNet(rs.lan)], Jump(Drop));
      assert Epilogue(DockerIn, rs) == [log] + ([lanDrop] + [ret]);
      LoggedStep(w, log, [lanDrop] + [ret], p, st);
      LoggedStep(w, lanDrop, [ret], p, st);
      SingleHolds(w, SrcNet(rs.lan), p);
      SingleHolds(w, StateIn({New}), p);
      AllHoldAppend(w, [SrcNet(rs.lan)], [StateIn({New})], p);
    } else {
      assert Epilogue(DockerIn, rs) == [ret];
    }
  }

  lemma In6Logged(w: World, rs: RuleSet, p: Packet, st: Recent)
    ensures Logged(w, Epilogue(In6, rs), p, st) == DefaultLogs(In6, w, rs, p)
  {
    var drops, ret := V6DropLines(rs.v6Drop), [Line([], Jump(Return))];
    var tail :=
      if rs.policy == AllowPolicy then ret else [LogNew([], "ZFW-IN6-DROP "), Line([], Jump(Drop))];
    assert Epilogue(In6, rs) == drops + tail;
    DropsLogged(w, "ZFW-IN6-DROP ", p, st);
    LogThenEnd(w, "", [], p, st);
    V6DropMeaning(w, rs.v6Drop, p);
    JumpsAct(w, drops, tail, p, st);
    TakenAny(w, drops, p);
  }

  lemma {:induction false} TakenAny(w: World, lines: seq<Line>, p: Packet)
    requires forall l | l in lines :: l.act.Jump?
    ensures Taken(w, lines, p).Some? <==> AnyLine(w, lines, p)
  {
    if lines != [] {
      TakenAny(w, lines[1..], p);
      assert lines == [lines[0]] + lines[1..];
      AnyLineAppend(w, [lines[0]], lines[1..], p);
    }
  }

  lemma EpilogueLogs(k: Kind, w: World, rs: RuleSet, p: Packet, st: Recent)
    ensures Logged(w, Epilogue(k, rs), p, st) == DefaultLogs(k, w, rs, p)
  {
    LogThenEnd(w, "", [], p, st);
    match k {
      case In => DropsLogged(w, "ZFW-IN-DROP ", p, st);
      case DockerIn => LanLogged(w, rs, p, st);
      case In6 => In6Logged(w, rs, p, st);
      case _ =>
    }
  }

  // ----- the theorem -----

  /** Exactly what is logged, on every chain, for every packet and every recent table:
      nothing of a packet that bypasses the rules; for a packet some rule decides,
      that rule's prefix and only once, if the rule is to log and its limit does not
      refuse the packet first; else the default's. */
  lemma LogsExact(k: Kind, w: World, rs: RuleSet, published: set<int>, extra: seq<string>, p: Packet, st: Recent)
    requires CompilableSet(rs)
    ensures var out, m := Logged(w, Compiled(k, rs, published, extra), p, st), Governs(k, w, published, p);
            var bypass := Bypass(k, w, rs, extra, p);
            && (bypass.Some? ==> out == [])
            && (bypass.None? && (forall r | r in rs.rules :: !m(r)) ==> out == DefaultLogs(k, w, rs, p))
            && (forall i | bypass.None? && Wins(rs.rules, m, i) :: out == RuleLogs(rs.rules[i], p, st))
  {
    var rl, m := StableSort(rs.rules), Governs(k, w, published, p);
    var section, tail := Section(k, rl, published), Epilogue(k, rs);
    assert Compiled(k, rs, published, extra) == Prologue(k, rs, extra) + (section + tail);
    PrologueLogs(k, w, rs, extra, section + tail, p, st);
    SortElements(rs.rules);
    forall r | r in rl ensures Compilable(r) {
      assert r in multiset(rl);
    }
    LoggedSection(k, w, rl, published, tail, p, st);
    EpilogueLogs(k, w, rs, p, st);
    FirstOfSorted(rs.rules, m);
  }

  /** So no new packet is dropped by default without a trace, but on the V6Drop list,
      and none is logged twice. */
  lemma DefaultDropsAreLogged(
      k: Kind, w: World, rs: RuleSet, published: set<int>, extra: seq<string>, p: Packet, st: Recent)
    requires CompilableSet(rs) && p.state == New && Bypass(k, w, rs, extra, p).None?
    requires forall r | r in rs.rules :: !Applies(k, w, r, published, p)
    ensures var chain := Compiled(k, rs, published, extra);
            && |Logged(w, chain, p, st)| <= 1
            && (Logged(w, chain, p, st) != [] ==> Eval(w, chain, p, st).verdict == Drop)
            && (Eval(w, chain, p, st).verdict == Drop ==>
                  || Logged(w, chain, p, st) != []
                  || (k == In6 && p.transport == TCP && p.dport in rs.v6Drop))
  {
    LogsExact(k, w, rs, published, extra, p, st);
    ChainMeaning(k, w, rs, published, extra, p, st);
  }
}
