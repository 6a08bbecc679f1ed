/** First start: the old configuration migrated, saved, and then loaded to be
    compiled. */
module Seeding {
  import opened Text
  import opened Seqs
  import opened Rules
  import opened Files
  import opened ConfigFile
  import opened Migration
  import opened Tiers

  /** The migration branch of seeding: no file is ever overwritten, and the migrated
      set is written whatever it is. `ids` are for its rules, `spare` for rules a
      save finds without one. */
  method SeedFromTiers(store: RulesStore, cfg: Config, listening: seq<int>, ids: seq<string>, spare: seq<string>,
                       disk: Disk)
    returns (seeded: bool)
    requires |ids| >= 3 && |spare| >= 3
    modifies store
    ensures seeded == (old(store.file) == Missing && disk.writes && disk.renames)
    ensures WithoutId(Migrated(cfg, listening, ids).rules) <= |spare|
    ensures store.file ==
      if seeded then Whole(Written(Stamped(Migrated(cfg, listening, ids), spare))) else old(store.file)
  {
    FewRules(cfg, listening, ids);
    if store.file != Missing {
      return false;
    }
    var rs := FromTiers(cfg, listening, ids);
    seeded := store.Save(rs, spare, disk);
  }

  lemma {:induction false} AtMostAll(rules: seq<Rule>)
    ensures WithoutId(rules) <= |rules|
  {
    if rules != [] {
      AtMostAll(rules[..|rules| - 1]);
    }
  }

  lemma FewRules(cfg: Config, listening: seq<int>, ids: seq<string>)
    requires |ids| >= 3
    ensures WithoutId(Migrated(cfg, listening, ids).rules) <= 3
  {
    AtMostAll(MigratedRules(cfg, listening, ids));
  }

  // ----- what a recompile makes of the file -----

  /** The rule set a recompile goes on with: loaded, and let through by the
      validator. */
  function CompileInput(net: NetParser, file: Slot): Option<RuleSet> {
    var loaded := if Decoded(file).Some? then MigrateSpec(Decoded(file).value) else Refused;
    if loaded.Accepted? && Valid(net, loaded.rs) then Some(loaded.rs) else None
  }

  /** The head of a recompile, on a store nobody else writes to. */
  method LoadForCompile(store: RulesStore, net: NetParser, backs: bool, disk: Disk) returns (rs: Option<RuleSet>)
    modifies store
    ensures backs && disk.writes && disk.renames ==> rs == CompileInput(net, old(store.file))
    ensures rs.Some? ==> rs == CompileInput(net, old(store.file)) && Valid(net, rs.value)
  {
    var r := store.Load(Fate(store.file, backs, disk));
    if r.Failed? {
      return None;
    }
    var ok := Validate(net, r.rs);
    return if ok then Some(r.rs) else None;
  }

  lemma {:induction false} NoneWithoutId(rules: seq<Rule>, ids: seq<string>)
    requires forall r | r in rules :: r.id != ""
    ensures WithoutId(rules) == 0 && FillIds(rules, ids) == rules
  {
    if rules != [] {
      var n := |rules| - 1;
      assert rules[n] in rules;
      NoneWithoutId(rules[..n], ids);
      assert rules[..n] + [rules[n]] == rules;
    }
  }

  /** From a validated configuration the migrated set is always saved, as it is but
      for the version, and a recompile takes it exactly when no port list outgrows
      a rule. A host that publishes more than 128 kept ports has a rules file that
      every recompile refuses. */
  lemma SeededExact(net: NetParser, cfg: Config, listening: seq<int>, ids: seq<string>, spare: seq<string>)
    requires ValidConfig(net, cfg) && DistinctSafe(ids) && |spare| >= 3
    requires net.isIPv4CIDR(cfg.lan) ==> net.isCIDR(cfg.lan)
    requires forall p | p in listening :: IsPort(p)
    ensures var rs := Migrated(cfg, listening, ids);
            && WithoutId(rs.rules) <= |spare| && Stamped(rs, spare) == rs.(version := CURRENT_SCHEMA)
            && CompileInput(net, Whole(Written(Stamped(rs, spare)))) ==
                 if && |Numbers(cfg.hostTCP)| <= MAX_PORTS_PER_RULE
                    && |Numbers(cfg.hostUDP)| <= MAX_PORTS_PER_RULE
                    && |Kept(listening, Numbers(cfg.dockerDrop))| <= MAX_PORTS_PER_RULE
                    && |Numbers(cfg.v6Drop)| <= MAX_V6_DROP_PORTS
                 then Some(rs.(version := CURRENT_SCHEMA)) else None
  {
    var rs := Migrated(cfg, listening, ids);
    MigratedNamed(cfg, listening, ids);
    NamedStamp(net, rs, spare);
    MigratedValidExact(net, cfg, listening, ids);
  }

  /** A set with all its ids: saved, it is the same set, and is compiled iff valid. */
  lemma NamedStamp(net: NetParser, rs: RuleSet, spare: seq<string>)
    requires forall r | r in rs.rules :: r.id != ""
    ensures var saved := rs.(version := CURRENT_SCHEMA);
            && WithoutId(rs.rules) == 0 && Stamped(rs, spare) == saved
            && CompileInput(net, Whole(Written(saved))) == if Valid(net, rs) then Some(saved) else None
  {
    NoneWithoutId(rs.rules, spare);
    VersionFree(net, rs, CURRENT_SCHEMA);
  }

  /** A host that publishes ports 1 to n. */
  function FirstPorts(n: nat): seq<int> {
    if n == 0 then [] else FirstPorts(n - 1) + [n]
  }

  lemma {:induction false} FirstPortsKept(n: nat)
    ensures |FirstPorts(n)| == n && Kept(FirstPorts(n), []) == FirstPorts(n)
    ensures forall p | p in FirstPorts(n) :: 1 <= p <= n
  {
    if n > 0 {
      FirstPortsKept(n - 1);
      DropLast(FirstPorts(n - 1), n);
    }
  }

  /** One published port too many: a configuration without a drop list is saved and
      never compiled. */
  lemma TooManyPublished(net: NetParser, lan: string, host: string, ids: seq<string>, spare: seq<string>)
    requires DistinctSafe(ids) && |spare| >= 3 && net.isIPv4CIDR(lan) && net.isCIDR(lan) && net.isIPv4(host)
    ensures var cfg := Config(lan, host, [], [], [], []);
            var rs := Migrated(cfg, FirstPorts(MAX_PORTS_PER_RULE + 1), ids);
            && ValidConfig(net, cfg) && WithoutId(rs.rules) <= |spare|
            && CompileInput(net, Whole(Written(Stamped(rs, spare)))) == None
  {
    var cfg := Config(lan, host, [], [], [], []);
    FirstPortsKept(MAX_PORTS_PER_RULE + 1);
    SeededExact(net, cfg, FirstPorts(MAX_PORTS_PER_RULE + 1), ids, spare);
  }

  lemma VersionFree(net: NetParser, rs: RuleSet, version: int)
    ensures Valid(net, rs.(version := version)) <==> Valid(net, rs)
  {
    assert ValidHeader(net, rs.(version := version)) <==> ValidHeader(net, rs);
  }

  lemma MigratedNamed(cfg: Config, listening: seq<int>, ids: seq<string>)
    requires DistinctSafe(ids)
    ensures forall r | r in MigratedRules(cfg, listening, ids) :: r.id != ""
  {
  }
}
