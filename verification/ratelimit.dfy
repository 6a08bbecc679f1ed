/** Rate limits over whole runs of packets, through any of the chains in any
    interleaving, sharing one recent table. */
module RateLimiting {
  import opened Text
  import opened Rules
  import opened Netfilter
  import opened RuleLines
  import opened Ordering
  import opened Chains
  import opened Meaning

  /** A packet reaching one of the chains. */
  datatype Arrival = Arrival(kind: Kind, packet: Packet)

  /** A compiled firewall. */
  datatype Wall = Wall(w: World, rs: RuleSet, published: set<int>, extra: seq<string>)

  function Step(g: Wall, a: Arrival, st: Recent): Outcome {
    Eval(g.w, Compiled(a.kind, g.rs, g.published, g.extra), a.packet, st)
  }

  /** The recent table after a run. */
  function After(g: Wall, run: seq<Arrival>, st: Recent): Recent {
    if run == [] then st
    else Step(g, run[|run| - 1], After(g, run[..|run| - 1], st)).recent
  }

  predicate DecidedBy(g: Wall, a: Arrival, r: Rule) {
    && Bypass(a.kind, g.w, g.rs, g.extra, a.packet).None?
    && exists i | 0 <= i < |g.rs.rules| ::
         Wins(g.rs.rules, Governs(a.kind, g.w, g.published, a.packet), i) && g.rs.rules[i] == r
  }

  /** The arrival is decided by r and not dropped. */
  predicate PassedBy(g: Wall, a: Arrival, st: Recent, r: Rule) {
    DecidedBy(g, a, r) && Step(g, a, st).verdict != Drop
  }

  predicate Counted(g: Wall, a: Arrival, st: Recent, r: Rule, sender: Addr, low: int, high: int) {
    PassedBy(g, a, st, r) && a.packet.src == sender && low <= a.packet.time <= high
  }

  /** How many arrivals of one sender rule r let through, among those no older
      than `low` and no younger than `high`. */
  function Passes(g: Wall, run: seq<Arrival>, st: Recent, r: Rule, sender: Addr, low: int, high: int): nat {
    if run == [] then 0
    else
      var n := |run| - 1;
      Passes(g, run[..n], st, r, sender, low, high)
      + if Counted(g, run[n], After(g, run[..n], st), r, sender, low, high) then 1 else 0
  }

  lemma CountSnoc(stamps: seq<int>, t: int, since: int)
    ensures CountSince(stamps + [t], since) == CountSince(stamps, since) + if t >= since then 1 else 0
  {
    assert (stamps + [t])[..|stamps|] == stamps;
  }

  lemma {:induction false} CountAntitone(stamps: seq<int>, early: int, late: int)
    requires early <= late
    ensures CountSince(stamps, late) <= CountSince(stamps, early)
  {
    if stamps != [] {
      CountAntitone(stamps[..|stamps| - 1], early, late);
    }
  }

  /** What one arrival does, said by its deciding rule. */
  lemma StepDecided(g: Wall, a: Arrival, st: Recent, r: Rule)
    requires CompilableSet(g.rs) && DecidedBy(g, a, r)
    ensures Step(g, a, st) == RuleOutcome(r, Target(a.kind, r.action), a.packet, st)
  {
    ChainMeaning(a.kind, g.w, g.rs, g.published, g.extra, a.packet, st);
  }

  /** One arrival touches at most one bucket: that of its deciding rule, for its
      own sender. Without a rate-limited deciding rule it touches none. */
  lemma OneBucket(g: Wall, a: Arrival, st: Recent, name: string, sender: Addr)
    requires CompilableSet(g.rs)
    ensures var was, now := Stamps(st, name, sender), Stamps(Step(g, a, st).recent, name, sender);
            && was <= now
            && (was != now ==> sender == a.packet.src)
            && (was != now ==>
                  exists r :: && r in g.rs.rules && DecidedBy(g, a, r) && BucketName(r) == name
                              && r.rateLimit.Some? && r.rateLimit.value.conn >= 1 && r.rateLimit.value.seconds >= 1)
  {
    StampedByDecider(g, a, st);
    if i :| 0 <= i < |g.rs.rules| && DecidedBy(g, a, g.rs.rules[i]) {
      StepDecided(g, a, st, g.rs.rules[i]);
      OutcomeStamps(g.rs.rules[i], Target(a.kind, g.rs.rules[i].action), a.packet, st, name, sender);
    }
  }

  /** Only a deciding rule stamps. */
  lemma StampedByDecider(g: Wall, a: Arrival, st: Recent)
    requires CompilableSet(g.rs)
    ensures Step(g, a, st).recent == st || exists i | 0 <= i < |g.rs.rules| :: DecidedBy(g, a, g.rs.rules[i])
  {
    ChainMeaning(a.kind, g.w, g.rs, g.published, g.extra, a.packet, st);
    if Bypass(a.kind, g.w, g.rs, g.extra, a.packet).None? {
      if i :| Wins(g.rs.rules, Governs(a.kind, g.w, g.published, a.packet), i) {
        assert DecidedBy(g, a, g.rs.rules[i]);
      }
    }
  }

  lemma OutcomeStamps(r: Rule, target: Verdict, p: Packet, st: Recent, name: string, sender: Addr)
    ensures var was, now := Stamps(st, name, sender), Stamps(RuleOutcome(r, target, p, st).recent, name, sender);
            && was <= now
            && (was != now ==>
                  && sender == p.src && BucketName(r) == name
                  && r.rateLimit.Some? && r.rateLimit.value.conn >= 1 && r.rateLimit.value.seconds >= 1)
  {
  }

  /** The exact verdict of a rule with a limit of at least one connection in at least
      one second: the packet's own stamp counts, so it passes while fewer than
      conn - 1 earlier stamps are in the window, and it leaves one stamp, or two
      when it is dropped. */
  lemma LimitExact(g: Wall, a: Arrival, st: Recent, r: Rule, l: RateLimit)
    requires CompilableSet(g.rs) && DecidedBy(g, a, r)
    requires r.rateLimit == Some(l) && l.conn >= 1 && l.seconds >= 1
    ensures var out := Step(g, a, st);
            var earlier := Hits(st, BucketName(r), a.packet, l.seconds);
            var was, t := Stamps(st, BucketName(r), a.packet.src), a.packet.time;
            && (earlier + 1 >= l.conn ==> out.verdict == Drop)
            && (earlier + 1 < l.conn ==> out.verdict == Target(a.kind, r.action))
            && Stamps(out.recent, BucketName(r), a.packet.src) ==
                 was + if earlier + 1 >= l.conn then [t, t] else [t]
  {
    StepDecided(g, a, st, r);
    CountSnoc(Stamps(st, BucketName(r), a.packet.src), a.packet.time, a.packet.time - l.seconds);
  }

  /** A rule without such a limit acts and nothing more: it refuses nobody for coming
      often and leaves every bucket as it was. */
  lemma Unlimited(g: Wall, a: Arrival, st: Recent, r: Rule)
    requires CompilableSet(g.rs) && DecidedBy(g, a, r)
    requires r.rateLimit.None? || r.rateLimit.value.conn < 1 || r.rateLimit.value.seconds < 1
    ensures Step(g, a, st) == Outcome(Target(a.kind, r.action), st)
  {
    StepDecided(g, a, st, r);
  }

  /** Rules share a bucket exactly when they share an id, so in a valid set only rules
      without one do; and no packet decided by another rule stands in a rule's way. */
  lemma BucketsApart(g: Wall, a: Arrival, st: Recent, r: Rule, other: Rule, sender: Addr)
    requires CompilableSet(g.rs) && DecidedBy(g, a, other)
    ensures BucketName(r) == BucketName(other) <==> r.id == other.id
    ensures r.id != other.id ==>
      Stamps(Step(g, a, st).recent, BucketName(r), sender) == Stamps(st, BucketName(r), sender)
  {
    var n, m := BucketName(r), BucketName(other);
    assert r.id == n[1..] && other.id == m[1..];
    StepDecided(g, a, st, other);
    OutcomeStamps(other, Target(a.kind, other.action), a.packet, st, BucketName(r), sender);
  }

  /** The field's promise, conn connections per window, is met for a sender
      exactly when it does not stand at conn - 1: that last allowed connection
      is already refused. */
  lemma PromiseExact(g: Wall, a: Arrival, st: Recent, r: Rule, l: RateLimit)
    requires CompilableSet(g.rs) && DecidedBy(g, a, r) && r.action == Allow
    requires r.rateLimit == Some(l) && l.conn >= 1 && l.seconds >= 1
    ensures var earlier := Hits(st, BucketName(r), a.packet, l.seconds);
            ((Step(g, a, st).verdict != Drop) == (earlier < l.conn)) <==> earlier != l.conn - 1
  {
    LimitExact(g, a, st, r, l);
  }

  /** A limit of one connection refuses every connection. */
  lemma LimitOfOneRefusesAll(g: Wall, a: Arrival, st: Recent, r: Rule, l: RateLimit)
    requires CompilableSet(g.rs) && DecidedBy(g, a, r)
    requires r.rateLimit == Some(l) && l.conn == 1 && l.seconds >= 1
    ensures Step(g, a, st).verdict == Drop
  {
    LimitExact(g, a, st, r, l);
  }

  /** Every packet a rule let through left its stamp. */
  lemma {:induction false} PassesLeaveStamps(
      g: Wall, run: seq<Arrival>, st: Recent, r: Rule, l: RateLimit, sender: Addr, low: int, high: int)
    requires CompilableSet(g.rs) && r.rateLimit == Some(l) && l.conn >= 1 && l.seconds >= 1
    ensures Passes(g, run, st, r, sender, low, high)
         <= CountSince(Stamps(After(g, run, st), BucketName(r), sender), low)
  {
    if run != [] {
      var n := |run| - 1;
      var mid, a := After(g, run[..n], st), run[n];
      PassesLeaveStamps(g, run[..n], st, r, l, sender, low, high);
      OneBucket(g, a, mid, BucketName(r), sender);
      CountPrefix(Stamps(mid, BucketName(r), sender), Stamps(After(g, run, st), BucketName(r), sender), low);
      if PassedBy(g, a, mid, r) && a.packet.src == sender {
        StepDecided(g, a, mid, r);
        CountSnoc(Stamps(mid, BucketName(r), sender), a.packet.time, low);
      }
    }
  }

  lemma {:induction false} CountPrefix(a: seq<int>, b: seq<int>, since: int)
    requires a <= b
    ensures CountSince(a, since) <= CountSince(b, since)
  {
    if a != b {
      CountPrefix(a, b[..|b| - 1], since);
    }
  }

  lemma CountAll(stamps: seq<int>, early: int, conn: int)
    requires CountSince(stamps, early) + 1 < conn
    ensures forall low | early <= low :: CountSince(stamps, low) + 1 < conn
  {
    forall low | early <= low ensures CountSince(stamps, low) + 1 < conn {
      CountAntitone(stamps, early, low);
    }
  }

  /** When a packet passes, few stamps of its sender are in the window before it. */
  lemma RoomBefore(g: Wall, a: Arrival, st: Recent, r: Rule, l: RateLimit)
    requires CompilableSet(g.rs) && r.rateLimit == Some(l) && l.conn >= 1 && l.seconds >= 1 && PassedBy(g, a, st, r)
    ensures forall low | a.packet.time - l.seconds <= low ::
      CountSince(Stamps(st, BucketName(r), a.packet.src), low) + 1 < l.conn
  {
    LimitExact(g, a, st, r, l);
    CountAll(Stamps(st, BucketName(r), a.packet.src), a.packet.time - l.seconds, l.conn);
  }

  /** Over any run, through any mix of chains, and whatever the table held before,
      a rate-limited rule lets fewer than conn packets of one sender through in
      any window of its length, all its emitted lines counted together. */
  lemma {:induction false} WindowBound(
      g: Wall, run: seq<Arrival>, st: Recent, r: Rule, l: RateLimit, sender: Addr, low: int, high: int)
    requires CompilableSet(g.rs) && r.rateLimit == Some(l) && l.conn >= 1 && l.seconds >= 1 && high <= low + l.seconds
    ensures Passes(g, run, st, r, sender, low, high) < l.conn
  {
    if run != [] {
      var n := |run| - 1;
      var mid := After(g, run[..n], st);
      if Counted(g, run[n], mid, r, sender, low, high) {
        PassesLeaveStamps(g, run[..n], st, r, l, sender, low, high);
        RoomBefore(g, run[n], mid, r, l);
      } else {
        WindowBound(g, run[..n], st, r, l, sender, low, high);
      }
    }
  }
}
