/** The migration of the old three-tier configuration into a rule list, and what
    the chains compiled from that list do. */
module Tiers {
  import opened Text
  import opened Rules
  import opened Netfilter
  import opened RuleLines
  import opened Ordering
  import opened Chains
  import opened Meaning
  import opened ConfigFile

  // ----- port numbers -----

  /** The 64-bit wrap-around of the source's `int`. */
  function Wrap(n: int): int {
    (n + 0x8000_0000_0000_0000) % 0x1_0000_0000_0000_0000 - 0x8000_0000_0000_0000
  }

  function Digits(s: string): int {
    if s == "" then 0
    else Wrap(Digits(s[..|s| - 1]) * 10 + if IsDigit(s[|s| - 1]) then s[|s| - 1] as int - '0' as int else 0)
  }

  /** The number of a text of digits; anything else has none, a sign included. */
  function Number(s: string): Option<int> {
    if AllDigits(s) then Some(Digits(s)) else None
  }

  function Numbers(ss: seq<string>): seq<int> {
    if ss == [] then []
    else Numbers(ss[..|ss| - 1]) + if Number(ss[|ss| - 1]).Some? then [Number(ss[|ss| - 1]).value] else []
  }

  /** The loop over the characters of one text; a non-digit ends it. */
  method ReadNumber(s: string) returns (n: int, ok: bool)
    ensures ok == Number(s).Some? && (ok ==> Number(s).value == n)
  {
    n, ok := 0, |s| > 0;
    for j := 0 to |s|
      invariant n == Digits(s[..j])
      invariant ok == (|s| > 0) && forall k | 0 <= k < j :: IsDigit(s[k])
    {
      assert s[..j + 1][..j] == s[..j];
      if s[j] < '0' || s[j] > '9' {
        assert s[j] in s && !IsDigit(s[j]);
        return n, false;
      }
      n := Wrap(n * 10 + (s[j] as int - '0' as int));
    }
    assert s[..|s|] == s;
    assert forall c | c in s :: IsDigit(c);
  }

  lemma NumbersStep(ss: seq<string>, i: nat)
    requires i < |ss|
    ensures Numbers(ss[..i + 1])
         == Numbers(ss[..i]) + if Number(ss[i]).Some? then [Number(ss[i]).value] else []
  {
    assert ss[..i + 1][..i] == ss[..i];
  }

  method AtoiList(ss: seq<string>) returns (out: seq<int>)
    ensures out == Numbers(ss)
  {
    out := [];
    for i := 0 to |ss|
      invariant out == Numbers(ss[..i])
    {
      NumbersStep(ss, i);
      var s := ss[i];
      var n, ok := ReadNumber(s);
      if ok {
        out := out + [n];
      }
    }
    assert ss[..|ss|] == ss;
  }

  // ----- the migrated rule list -----

  function TierSource(lan: string): Source {
    if lan != "" then Source(RangeSource, lan) else Source(AnySource, "")
  }

  function TierRule(id: string, order: int, name: string, src: Source, protocol: Protocol, zone: Zone,
                    ports: seq<int>): Rule
  {
    Rule(id, order, true, name, Allow, src, Ports(ListPorts, ports, 0, 0), protocol, zone, "",
         None, false, None, Unset, "")
  }

  /** One more rule, ten Orders behind the last, unless it would select no port. */
  function Grow(rules: seq<Rule>, ids: seq<string>, name: string, src: Source, protocol: Protocol, zone: Zone,
                ports: seq<int>): (more: seq<Rule>)
    requires |rules| < |ids|
    ensures |more| == |rules| + if ports == [] then 0 else 1
  {
    if ports == [] then rules
    else rules + [TierRule(ids[|rules|], 10 * (|rules| + 1), name, src, protocol, zone, ports)]
  }

  /** The published ports that were not on the drop list. */
  function Kept(listening: seq<int>, drop: seq<int>): seq<int> {
    if listening == [] then []
    else
      var p := listening[|listening| - 1];
      Kept(listening[..|listening| - 1], drop) + if p in drop then [] else [p]
  }

  function MigratedRules(cfg: Config, listening: seq<int>, ids: seq<string>): seq<Rule>
    requires |ids| >= 3
  {
    var src := TierSource(cfg.lan);
    var one := Grow([], ids, "Host TCP ports (migrated)", src, Tcp, HostZone, Numbers(cfg.hostTCP));
    var two := Grow(one, ids, "Host UDP ports (migrated)", src, Udp, HostZone, Numbers(cfg.hostUDP));
    Grow(two, ids, "Docker apps (migrated)", src, Tcp, DockerZone, Kept(listening, Numbers(cfg.dockerDrop)))
  }

  function Migrated(cfg: Config, listening: seq<int>, ids: seq<string>): RuleSet
    requires |ids| >= 3
  {
    RuleSet(0, cfg.lan, cfg.hostIP, DenyPolicy, Numbers(cfg.v6Drop), MigratedRules(cfg, listening, ids))
  }

  /** The `add` closure: it appends to the rules and moves the order on. */
  method Add(rules: seq<Rule>, order: int, ids: seq<string>, src: Source, name: string, protocol: Protocol, zone: Zone,
             ports: seq<int>)
    returns (more: seq<Rule>, next: int)
    requires |rules| < |ids| && order == 10 * (|rules| + 1)
    ensures more == Grow(rules, ids, name, src, protocol, zone, ports) && next == 10 * (|more| + 1)
  {
    if |ports| == 0 {
      return rules, order;
    }
    var r := TierRule(ids[|rules|], order, name, src, protocol, zone, ports);
    return rules + [r], order + 10;
  }

  /** `ids` are the fresh random ids in the order they are drawn. */
  method FromTiers(cfg: Config, listening: seq<int>, ids: seq<string>) returns (rs: RuleSet)
    requires |ids| >= 3
    ensures rs == Migrated(cfg, listening, ids)
  {
    var v6 := AtoiList(cfg.v6Drop);
    rs := RuleSet(0, cfg.lan, cfg.hostIP, DenyPolicy, v6, []);
    var dropped := AtoiList(cfg.dockerDrop);
    var drop: map<int, bool> := map[];
    for i := 0 to |dropped|
      invariant forall p :: p in drop <==> p in dropped[..i]
    {
      drop := drop[dropped[i] := true];
    }
    assert dropped[..|dropped|] == dropped;
    var dockerAllow: seq<int> := [];
    for i := 0 to |listening|
      invariant dockerAllow == Kept(listening[..i], dropped)
    {
      assert listening[..i + 1][..i] == listening[..i];
      if listening[i] !in drop {
        dockerAllow := dockerAllow + [listening[i]];
      }
    }
    assert listening[..|listening|] == listening;
    var src := Source(AnySource, "");
    if cfg.lan != "" {
      src := Source(RangeSource, cfg.lan);
    }
    var order := 10;
    var tcp := AtoiList(cfg.hostTCP);
    var udp := AtoiList(cfg.hostUDP);
    var rules: seq<Rule> := [];
    rules, order := Add(rules, order, ids, src, "Host TCP ports (migrated)", Tcp, HostZone, tcp);
    rules, order := Add(rules, order, ids, src, "Host UDP ports (migrated)", Udp, HostZone, udp);
    rules, order := Add(rules, order, ids, src, "Docker apps (migrated)", Tcp, DockerZone, dockerAllow);
    rs := rs.(rules := rules);
  }

  // ----- what the compiled chains then do -----

  lemma {:induction false} KeptExact(listening: seq<int>, drop: seq<int>, p: int)
    ensures p in Kept(listening, drop) <==> p in listening && p !in drop
  {
    if listening != [] {
      KeptExact(listening[..|listening| - 1], drop, p);
      assert listening == listening[..|listening| - 1] + [listening[|listening| - 1]];
    }
  }

  /** Rule r is one the migration wrote for this protocol, zone and port list. */
  predicate IsTier(r: Rule, src: Source, protocol: Protocol, zone: Zone, ports: seq<int>) {
    && r.enabled && r.action == Allow && r.source == src && r.protocol == protocol && r.zone == zone
    && r.ports == Ports(ListPorts, ports, 0, 0) && ports != []
    && r.schedule == None && r.rateLimit == None && r.direction == Unset && !r.log
  }

  /** The three tiers, each present exactly when it selects a port. */
  lemma TiersPresent(cfg: Config, listening: seq<int>, ids: seq<string>)
    requires |ids| >= 3
    ensures var src, rl, kept := TierSource(cfg.lan), MigratedRules(cfg, listening, ids),
              Kept(listening, Numbers(cfg.dockerDrop));
            && (forall r | r in rl ::
                  || IsTier(r, src, Tcp, HostZone, Numbers(cfg.hostTCP))
                  || IsTier(r, src, Udp, HostZone, Numbers(cfg.hostUDP))
                  || IsTier(r, src, Tcp, DockerZone, kept))
            && (Numbers(cfg.hostTCP) != [] ==>
                  exists r :: r in rl && IsTier(r, src, Tcp, HostZone, Numbers(cfg.hostTCP)))
            && (Numbers(cfg.hostUDP) != [] ==>
                  exists r :: r in rl && IsTier(r, src, Udp, HostZone, Numbers(cfg.hostUDP)))
            && (kept != [] ==> exists r :: r in rl && IsTier(r, src, Tcp, DockerZone, kept))
  {
    ThreeTiers(ids, TierSource(cfg.lan), Numbers(cfg.hostTCP), Numbers(cfg.hostUDP),
               Kept(listening, Numbers(cfg.dockerDrop)),
               MigratedRules(cfg, listening, ids));
  }

  lemma ThreeTiers(ids: seq<string>, src: Source, tcp: seq<int>, udp: seq<int>, kept: seq<int>, rl: seq<Rule>)
    requires |ids| >= 3
    requires var one := Grow([], ids, "Host TCP ports (migrated)", src, Tcp, HostZone, tcp);
             var two := Grow(one, ids, "Host UDP ports (migrated)", src, Udp, HostZone, udp);
             rl == Grow(two, ids, "Docker apps (migrated)", src, Tcp, DockerZone, kept)
    ensures forall r | r in rl ::
              || IsTier(r, src, Tcp, HostZone, tcp) || IsTier(r, src, Udp, HostZone, udp)
              || IsTier(r, src, Tcp, DockerZone, kept)
    ensures tcp != [] ==> exists r :: r in rl && IsTier(r, src, Tcp, HostZone, tcp)
    ensures udp != [] ==> exists r :: r in rl && IsTier(r, src, Udp, HostZone, udp)
    ensures kept != [] ==> exists r :: r in rl && IsTier(r, src, Tcp, DockerZone, kept)
  {
    var one := Grow([], ids, "Host TCP ports (migrated)", src, Tcp, HostZone, tcp);
    var two := Grow(one, ids, "Host UDP ports (migrated)", src, Udp, HostZone, udp);
    GrowTells([], ids, "Host TCP ports (migrated)", src, Tcp, HostZone, tcp);
    GrowTells(one, ids, "Host UDP ports (migrated)", src, Udp, HostZone, udp);
    GrowTells(two, ids, "Docker apps (migrated)", src, Tcp, DockerZone, kept);
    if tcp != [] {
      assert one[0] in rl;
    }
    if udp != [] {
      assert two[|two| - 1] in rl;
    }
  }

  lemma GrowTells(rules: seq<Rule>, ids: seq<string>, name: string, src: Source, protocol: Protocol, zone: Zone,
                  ports: seq<int>)
    requires |rules| < |ids|
    ensures var more := Grow(rules, ids, name, src, protocol, zone, ports);
            && rules <= more
            && (forall r | r in more :: r in rules || IsTier(r, src, protocol, zone, ports))
            && (ports != [] ==> more[|more| - 1] in more && IsTier(more[|more| - 1], src, protocol, zone, ports))
  {
  }

  /** The source of every migrated rule, as an IPv4 or IPv6 chain reads it. */
  predicate FromLan(k: Kind, w: World, lan: string, p: Packet) {
    lan == "" || ((':' in lan) == k.IsV6() && w.inNet(lan, p.src))
  }

  /** What the old configuration opened on each inbound chain. */
  predicate Opened(k: Kind, w: World, cfg: Config, listening: seq<int>, p: Packet) {
    && FromLan(k, w, cfg.lan, p)
    && if k == DockerIn
       then p.transport == TCP && p.origDport in listening && p.origDport !in Numbers(cfg.dockerDrop)
       else || (p.transport == TCP && p.dport in Numbers(cfg.hostTCP))
            || (p.transport == UDP && p.dport in Numbers(cfg.hostUDP))
  }

  /** Which packets one migrated rule takes. */
  lemma TierApplies(k: Kind, w: World, r: Rule, lan: string, protocol: Protocol, zone: Zone, ports: seq<int>,
                    published: set<int>, p: Packet)
    requires !k.IsOut() && IsTier(r, TierSource(lan), protocol, zone, ports)
    requires protocol in {Tcp, Udp} && zone in {HostZone, DockerZone}
    ensures Applies(k, w, r, published, p) <==>
      && FromLan(k, w, lan, p) && (k == DockerIn) == (zone == DockerZone)
      && p.transport == (if protocol == Tcp then TCP else UDP) && PortOn(k, p) in ports
  {
  }

  lemma SomeTierApplies(
      k: Kind, w: World, cfg: Config, listening: seq<int>, ids: seq<string>, published: set<int>, p: Packet)
    requires |ids| >= 3 && !k.IsOut()
    ensures (exists r :: r in MigratedRules(cfg, listening, ids) && Applies(k, w, r, published, p))
       <==> Opened(k, w, cfg, listening, p)
  {
    var src, rl, kept := TierSource(cfg.lan), MigratedRules(cfg, listening, ids),
      Kept(listening, Numbers(cfg.dockerDrop));
    TiersPresent(cfg, listening, ids);
    KeptExact(listening, Numbers(cfg.dockerDrop), p.origDport);
    SomeTier(k, w, cfg.lan, rl, Numbers(cfg.hostTCP), Numbers(cfg.hostUDP), kept, published, p);
  }

  lemma SomeTier(k: Kind, w: World, lan: string, rl: seq<Rule>, tcp: seq<int>, udp: seq<int>, kept: seq<int>,
                 published: set<int>, p: Packet)
    requires !k.IsOut()
    requires var src := TierSource(lan);
             && (forall r | r in rl ::
                   || IsTier(r, src, Tcp, HostZone, tcp)
                   || IsTier(r, src, Udp, HostZone, udp)
                   || IsTier(r, src, Tcp, DockerZone, kept))
             && (tcp != [] ==> exists r :: r in rl && IsTier(r, src, Tcp, HostZone, tcp))
             && (udp != [] ==> exists r :: r in rl && IsTier(r, src, Udp, HostZone, udp))
             && (kept != [] ==> exists r :: r in rl && IsTier(r, src, Tcp, DockerZone, kept))
    ensures (exists r :: r in rl && Applies(k, w, r, published, p)) <==>
      && FromLan(k, w, lan, p)
      && if k == DockerIn then p.transport == TCP && p.origDport in kept
         else (p.transport == TCP && p.dport in tcp) || (p.transport == UDP && p.dport in udp)
  {
    var src := TierSource(lan);
    forall r | r in rl
      ensures IsTier(r, src, Tcp, HostZone, tcp) ==> (Applies(k, w, r, published, p) <==>
                FromLan(k, w, lan, p) && k != DockerIn && p.transport == TCP && PortOn(k, p) in tcp)
      ensures IsTier(r, src, Udp, HostZone, udp) ==> (Applies(k, w, r, published, p) <==>
                FromLan(k, w, lan, p) && k != DockerIn && p.transport == UDP && PortOn(k, p) in udp)
      ensures IsTier(r, src, Tcp, DockerZone, kept) ==> (Applies(k, w, r, published, p) <==>
                FromLan(k, w, lan, p) && k == DockerIn && p.transport == TCP && PortOn(k, p) in kept)
    {
      if IsTier(r, src, Tcp, HostZone, tcp) {
        TierApplies(k, w, r, lan, Tcp, HostZone, tcp, published, p);
      } else if IsTier(r, src, Udp, HostZone, udp) {
        TierApplies(k, w, r, lan, Udp, HostZone, udp, published, p);
      } else {
        TierApplies(k, w, r, lan, Tcp, DockerZone, kept, published, p);
      }
    }
  }

  lemma TiersCompilable(cfg: Config, listening: seq<int>, ids: seq<string>)
    requires |ids| >= 3
    ensures forall r | r in MigratedRules(cfg, listening, ids) ::
      Compilable(r) && r.action == Allow && r.rateLimit.None?
  {
    TiersPresent(cfg, listening, ids);
    forall r | r in MigratedRules(cfg, listening, ids)
      ensures Compilable(r) && r.action == Allow && r.rateLimit.None?
    {
      var src := TierSource(cfg.lan);
      if IsTier(r, src, Tcp, HostZone, Numbers(cfg.hostTCP)) {
        TierCompiles(r, cfg.lan, Tcp, HostZone, Numbers(cfg.hostTCP));
      } else if IsTier(r, src, Udp, HostZone, Numbers(cfg.hostUDP)) {
        TierCompiles(r, cfg.lan, Udp, HostZone, Numbers(cfg.hostUDP));
      } else {
        TierCompiles(r, cfg.lan, Tcp, DockerZone, Kept(listening, Numbers(cfg.dockerDrop)));
      }
    }
  }

  lemma TierCompiles(r: Rule, lan: string, protocol: Protocol, zone: Zone, ports: seq<int>)
    requires IsTier(r, TierSource(lan), protocol, zone, ports)
    ensures Compilable(r) && r.action == Allow && r.rateLimit.None?
  {
  }

  /** End to end: after the migration and a compile, a packet no bypass line takes
      is let in exactly when the old configuration opened its port to its sender,
      whatever is published when the compile runs. */
  lemma MigrationExact(k: Kind, w: World, cfg: Config, listening: seq<int>, ids: seq<string>,
                       published: set<int>, extra: seq<string>, p: Packet, st: Recent)
    requires |ids| >= 3 && !k.IsOut()
    requires Bypass(k, w, Migrated(cfg, listening, ids), extra, p).None?
    ensures var rs := Migrated(cfg, listening, ids);
            Eval(w, Compiled(k, rs, published, extra), p, st) ==
              Outcome(if Opened(k, w, cfg, listening, p) then Target(k, Allow) else Default(k, w, rs, p), st)
  {
    var rs, m := Migrated(cfg, listening, ids), Governs(k, w, published, p);
    TiersCompilable(cfg, listening, ids);
    ChainMeaning(k, w, rs, published, extra, p, st);
    SomeTierApplies(k, w, cfg, listening, ids, published, p);
    if i :| Wins(rs.rules, m, i) {
      assert rs.rules[i] in rs.rules && m(rs.rules[i]);
    }
  }

  /** The promise to a LAN: a new TCP (UDP) packet from it reaches the host exactly
      on the ports the old file opened for TCP (UDP), and a published container
      port exactly when that port was not on the old drop list. It is kept for a
      LAN written without colons; one written as IPv4-mapped IPv6, which the
      validator takes, loses every port. */
  lemma LanKeepsItsPorts(w: World, cfg: Config, listening: seq<int>, ids: seq<string>,
                         published: set<int>, extra: seq<string>, p: Packet, st: Recent)
    requires |ids| >= 3
    requires cfg.lan != "" && w.inNet(cfg.lan, p.src)
    ensures var rs := Migrated(cfg, listening, ids);
            var host := Eval(w, Compiled(In, rs, published, extra), p, st).verdict;
            Bypass(In, w, rs, extra, p).None? ==>
              && (host == Accept || host == Drop)
              && (p.transport == TCP ==> (host == Accept <==> ':' !in cfg.lan && p.dport in Numbers(cfg.hostTCP)))
              && (p.transport == UDP ==> (host == Accept <==> ':' !in cfg.lan && p.dport in Numbers(cfg.hostUDP)))
    ensures var rs := Migrated(cfg, listening, ids);
            var docker := Eval(w, Compiled(DockerIn, rs, published, extra), p, st).verdict;
            Bypass(DockerIn, w, rs, extra, p).None? && p.transport == TCP && p.origDport in listening ==>
              && (docker == Return || docker == Drop)
              && (docker == Return <==> ':' !in cfg.lan && p.origDport !in Numbers(cfg.dockerDrop))
  {
    var rs := Migrated(cfg, listening, ids);
    if Bypass(In, w, rs, extra, p).None? {
      MigrationExact(In, w, cfg, listening, ids, published, extra, p, st);
    }
    if Bypass(DockerIn, w, rs, extra, p).None? {
      MigrationExact(DockerIn, w, cfg, listening, ids, published, extra, p, st);
    }
  }

  /** Without a LAN the drop list is void: no container port is ever refused. */
  lemma DropListNeedsLan(w: World, cfg: Config, listening: seq<int>, ids: seq<string>,
                         published: set<int>, extra: seq<string>, p: Packet, st: Recent)
    requires |ids| >= 3
    requires Bypass(DockerIn, w, Migrated(cfg, listening, ids), extra, p).None?
    ensures Eval(w, Compiled(DockerIn, Migrated(cfg, listening, ids), published, extra), p, st).verdict == Drop
       <==> cfg.lan != "" && w.inNet(cfg.lan, p.src) && !Opened(DockerIn, w, cfg, listening, p)
  {
    MigrationExact(DockerIn, w, cfg, listening, ids, published, extra, p, st);
  }

  /** With an IPv4 LAN the migrated set drops every IPv6 packet that no bypass line
      takes, on the old V6_DROP list or not. */
  lemma MigrationClosesIPv6(w: World, cfg: Config, listening: seq<int>, ids: seq<string>,
                            published: set<int>, extra: seq<string>, p: Packet, st: Recent)
    requires |ids| >= 3
    requires Bypass(In6, w, Migrated(cfg, listening, ids), extra, p).None?
    ensures cfg.lan != "" && ':' !in cfg.lan ==>
      Eval(w, Compiled(In6, Migrated(cfg, listening, ids), published, extra), p, st) == Outcome(Drop, st)
  {
    MigrationExact(In6, w, cfg, listening, ids, published, extra, p, st);
  }

  // ----- what the migration loses -----

  lemma {:induction false} DigitsMonotone(s: string, n: nat)
    requires n <= |s|
    ensures Natural(s[..n]) <= Natural(s)
  {
    if n < |s| {
      assert s[..|s| - 1][..n] == s[..n];
      DigitsMonotone(s[..|s| - 1], n);
    } else {
      assert s[..n] == s;
    }
  }

  lemma {:induction false} SmallDigits(s: string)
    requires Natural(s) <= 65535
    ensures Digits(s) == Natural(s)
  {
    if s != "" {
      DigitsMonotone(s, |s| - 1);
      SmallDigits(s[..|s| - 1]);
    }
  }

  /** Of the port texts the validator takes, the migration reads exactly the
      unsigned ones; "+80" is valid and is dropped without a word. */
  lemma NumberExact(p: string)
    requires PortText(p)
    ensures Number(p) == Atoi(p) <==> AllDigits(p)
    ensures !AllDigits(p) ==> Number(p) == None
  {
    if AllDigits(p) {
      SmallDigits(p);
    }
  }

  /** "+80" is such a text: the validator takes it, the migration loses it. */
  lemma SignedPortLost(p: string)
    requires p == "+80"
    ensures PortText(p) && Atoi(p) == Some(80) && Number(p) == None && Numbers([p]) == []
  {
    assert p[1..] == "80" && AllDigits("80") && p[0] in p && !IsDigit(p[0]);
    assert "80"[..1] == "8" && "8"[..0] == "";
    assert Natural("8") == 8 && Natural("80") == 80;
    assert [p][..0] == [];
  }

  lemma {:induction false} NumbersExact(ss: seq<string>)
    requires forall s | s in ss :: PortText(s)
    ensures forall n :: n in Numbers(ss) <==> exists s :: s in ss && AllDigits(s) && Atoi(s) == Some(n)
    ensures forall n | n in Numbers(ss) :: IsPort(n)
    ensures |Numbers(ss)| == |ss| <==> forall s | s in ss :: AllDigits(s)
    ensures |Numbers(ss)| <= |ss|
  {
    if ss != [] {
      var front, s := ss[..|ss| - 1], ss[|ss| - 1];
      assert ss == front + [s];
      assert forall x | x in front :: x in ss;
      NumbersExact(front);
      NumberExact(s);
    }
  }

  // ----- whether the migrated set is valid -----

  predicate DistinctSafe(ids: seq<string>) {
    && |ids| >= 3 && ids[0] != ids[1] && ids[0] != ids[2] && ids[1] != ids[2]
    && forall i | 0 <= i < 3 :: ids[i] != "" && IsSafeRuleID(ids[i])
  }

  /** A validated configuration migrates to a rule set that passes validation
      exactly when none of its port lists outgrows a rule. */
  lemma MigratedValidExact(net: NetParser, cfg: Config, listening: seq<int>, ids: seq<string>)
    requires ValidConfig(net, cfg) && DistinctSafe(ids)
    requires net.isIPv4CIDR(cfg.lan) ==> net.isCIDR(cfg.lan)
    requires forall p | p in listening :: IsPort(p)
    ensures Valid(net, Migrated(cfg, listening, ids)) <==>
      && |Numbers(cfg.hostTCP)| <= MAX_PORTS_PER_RULE
      && |Numbers(cfg.hostUDP)| <= MAX_PORTS_PER_RULE
      && |Kept(listening, Numbers(cfg.dockerDrop))| <= MAX_PORTS_PER_RULE
      && |Numbers(cfg.v6Drop)| <= MAX_V6_DROP_PORTS
  {
    var tcp, udp, v6 := Numbers(cfg.hostTCP), Numbers(cfg.hostUDP), Numbers(cfg.v6Drop);
    var kept := Kept(listening, Numbers(cfg.dockerDrop));
    PortsInRange(net, cfg);
    forall p | p in kept ensures IsPort(p) {
      KeptExact(listening, Numbers(cfg.dockerDrop), p);
    }
    RulesValidExact(net, ids, TierSource(cfg.lan), tcp, udp, kept);
    var rs := Migrated(cfg, listening, ids);
    assert ValidHeader(net, rs) <==> |v6| <= MAX_V6_DROP_PORTS;
    IdsDistinct(rs.rules, ids);
  }

  lemma IdsDistinct(rules: seq<Rule>, ids: seq<string>)
    requires DistinctSafe(ids) && |rules| <= 3 && forall i | 0 <= i < |rules| :: rules[i].id == ids[i]
    ensures DistinctIDs(rules)
  {
    forall i, j | 0 <= i < j < |rules| ensures rules[i].id != rules[j].id {
      assert rules[i].id == ids[i] && rules[j].id == ids[j];
    }
  }

  lemma PortsInRange(net: NetParser, cfg: Config)
    requires ValidConfig(net, cfg)
    ensures forall p | p in Numbers(cfg.hostTCP) || p in Numbers(cfg.hostUDP) || p in Numbers(cfg.v6Drop) :: IsPort(p)
  {
    var all := cfg.hostTCP + cfg.hostUDP + cfg.dockerDrop + cfg.v6Drop;
    forall p | p in cfg.hostTCP || p in cfg.hostUDP || p in cfg.v6Drop ensures PortText(p) {
      assert p in all;
    }
    NumbersExact(cfg.hostTCP);
    NumbersExact(cfg.hostUDP);
    NumbersExact(cfg.v6Drop);
  }

  lemma RulesValidExact(net: NetParser, ids: seq<string>, src: Source, tcp: seq<int>, udp: seq<int>, kept: seq<int>)
    requires DistinctSafe(ids) && ValidSource(net, src)
    requires forall p | p in tcp || p in udp || p in kept :: IsPort(p)
    ensures var one := Grow([], ids, "Host TCP ports (migrated)", src, Tcp, HostZone, tcp);
            var two := Grow(one, ids, "Host UDP ports (migrated)", src, Udp, HostZone, udp);
            var more := Grow(two, ids, "Docker apps (migrated)", src, Tcp, DockerZone, kept);
            && (forall i | 0 <= i < |more| :: more[i].id == ids[i])
            && ((forall r | r in more :: ValidRule(net, r)) <==>
                  |tcp| <= MAX_PORTS_PER_RULE && |udp| <= MAX_PORTS_PER_RULE && |kept| <= MAX_PORTS_PER_RULE)
  {
    var one := Grow([], ids, "Host TCP ports (migrated)", src, Tcp, HostZone, tcp);
    var two := Grow(one, ids, "Host UDP ports (migrated)", src, Udp, HostZone, udp);
    GrowValid(net, [], ids, "Host TCP ports (migrated)", src, Tcp, HostZone, tcp);
    GrowValid(net, one, ids, "Host UDP ports (migrated)", src, Udp, HostZone, udp);
    GrowValid(net, two, ids, "Docker apps (migrated)", src, Tcp, DockerZone, kept);
  }

  lemma GrowValid(net: NetParser, rules: seq<Rule>, ids: seq<string>, name: string, src: Source, protocol: Protocol,
                  zone: Zone, ports: seq<int>)
    requires |rules| < |ids| && name != "" && ValidSource(net, src) && IsSafeRuleID(ids[|rules|])
    requires protocol in {Tcp, Udp, Both} && zone in {HostZone, DockerZone, AutoZone}
    requires forall p | p in ports :: IsPort(p)
    requires forall i | 0 <= i < |rules| :: rules[i].id == ids[i]
    ensures var more := Grow(rules, ids, name, src, protocol, zone, ports);
            && (forall i | 0 <= i < |more| :: more[i].id == ids[i])
            && ((forall r | r in more :: ValidRule(net, r)) <==>
                (forall r | r in rules :: ValidRule(net, r)) && |ports| <= MAX_PORTS_PER_RULE)
  {
    if ports != [] {
      var r := TierRule(ids[|rules|], 10 * (|rules| + 1), name, src, protocol, zone, ports);
      assert ValidRule(net, r) <==> |ports| <= MAX_PORTS_PER_RULE;
      var more := rules + [r];
      assert r in more;
      assert forall x | x in rules :: x in more;
    }
  }
}
