/** Loading rules.json: the schema migration, alone and under any number of
    concurrent loads of one old file, at every interleaving and crash point. */
module Migration {
  import opened Text
  import opened Rules
  import opened Files
  import opened Seqs

  const CURRENT_SCHEMA := 3

  datatype MigrateResult = Refused | Accepted(rs: RuleSet, changed: bool)

  /** What migration promises: older known schemas are lifted to the current one
      with nothing but the stamp changed, the current one is left alone, newer
      and unknown ones are refused. */
  function MigrateSpec(rs: RuleSet): MigrateResult {
    if rs.version < 0 || rs.version > CURRENT_SCHEMA then Refused
    else Accepted(rs.(version := CURRENT_SCHEMA), rs.version != CURRENT_SCHEMA)
  }

  /** One schema step at a time, until the version is current or unknown. */
  method Migrate(rs0: RuleSet) returns (r: MigrateResult)
    ensures r == MigrateSpec(rs0)
  {
    var rs := rs0;
    if rs.version > CURRENT_SCHEMA {
      return Refused;
    }
    if rs.version == CURRENT_SCHEMA {
      return Accepted(rs, false);
    }
    while rs.version < CURRENT_SCHEMA
      invariant rs == rs0.(version := rs.version) && rs.version <= CURRENT_SCHEMA
      invariant rs.version == rs0.version || (0 <= rs0.version && 0 <= rs.version)
      decreases CURRENT_SCHEMA - rs.version
    {
      match rs.version {
        case 0 => rs := rs.(version := 1);
        case 1 => rs := rs.(version := 2);
        case 2 => rs := rs.(version := 3);
        case _ => return Refused;
      }
    }
    return Accepted(rs, true);
  }

  // ----- files -----

  /** File contents: as a user left them, or as this build writes a rule set.
      Both decode to their rule set; garbage does not decode. */
  datatype Bytes = Garbage | Hand(rs: RuleSet) | Written(rs: RuleSet)

  /** A file being written in place may be seen, or left by a crash, half done. */
  datatype Slot = Missing | Partial | Whole(bytes: Bytes)

  datatype Loaded = Failed | Ok(rs: RuleSet)

  /** The rule set of a file, when there is one to read. */
  function Decoded(f: Slot): Option<RuleSet> {
    if f.Whole? && !f.bytes.Garbage? then Some(f.bytes.rs) else None
  }

  // ----- saving -----

  function WithoutId(rules: seq<Rule>): nat {
    if rules == [] then 0
    else WithoutId(rules[..|rules| - 1]) + if rules[|rules| - 1].id == "" then 1 else 0
  }

  /** Every rule without an id gets the next of the fresh ones. */
  function FillIds(rules: seq<Rule>, ids: seq<string>): (r: seq<Rule>)
    requires WithoutId(rules) <= |ids|
    ensures |r| == |rules|
  {
    if rules == [] then []
    else
      var n := |rules| - 1;
      FillIds(rules[..n], ids)
      + [if rules[n].id == "" then rules[n].(id := ids[WithoutId(rules[..n])]) else rules[n]]
  }

  /** What a save writes: the set with the current schema and no id missing. It
      validates nothing. */
  function Stamped(rs: RuleSet, ids: seq<string>): RuleSet
    requires WithoutId(rs.rules) <= |ids|
  {
    rs.(version := CURRENT_SCHEMA, rules := FillIds(rs.rules, ids))
  }

  /** What the second look under the lock finds, and whether the backup, the
      temporary file and the rename go through. */
  datatype Fate = Fate(later: Slot, backs: bool, disk: Disk)

  /** What one load returns and leaves in the file and its backups. */
  predicate LoadIs(was: Slot, backups0: map<int, Slot>, fate: Fate, r: Loaded, file: Slot, backups: map<int, Slot>) {
    var m := if Decoded(was).Some? then MigrateSpec(Decoded(was).value) else Refused;
    if m.Refused? then r == Failed && file == was && backups == backups0
    else if !m.changed then r == Ok(m.rs) && file == was && backups == backups0
    else
      var later := Decoded(fate.later);
      if later.Some? && later.value.version >= CURRENT_SCHEMA then
        r == Ok(later.value) && file == fate.later && backups == backups0
      else
        && backups == backups0[was.bytes.rs.version := if fate.backs then was else Partial]
        && if fate.backs && fate.disk.writes && fate.disk.renames
           then r == Ok(m.rs) && file == Whole(Written(m.rs))
           else r == Failed && file == fate.later
  }

  /** The store of one daemon, load by load. */
  class RulesStore {
    var file: Slot
    var backups: map<int, Slot>
    var tmp: Slot

    constructor (file: Slot)
      ensures this.file == file && backups == map[] && tmp == Missing
    {
      this.file := file;
      this.backups := map[];
      this.tmp := Missing;
    }

    method WriteAtomic(rs: RuleSet, disk: Disk) returns (ok: bool)
      modifies this`file, this`tmp
      ensures ok == (disk.writes && disk.renames)
      ensures file == if ok then Whole(Written(rs)) else old(file)
    {
      tmp := Partial;
      if !disk.writes {
        return false;
      }
      tmp := Whole(Written(rs));
      if !disk.renames {
        return false;
      }
      file, tmp := tmp, Missing;
      return true;
    }

    /** Whatever the set is, it is stamped and written. `ids` are the fresh random
        ids in the order they are drawn. */
    method Save(rs: RuleSet, ids: seq<string>, disk: Disk) returns (ok: bool)
      requires WithoutId(rs.rules) <= |ids|
      modifies this`file, this`tmp
      ensures ok == (disk.writes && disk.renames)
      ensures file == if ok then Whole(Written(Stamped(rs, ids))) else old(file)
    {
      var rules, drawn := rs.rules, 0;
      for i := 0 to |rules|
        invariant file == old(file) && FilledSoFar(rs.rules, ids, i, rules, drawn)
      {
        FilledOneMore(rs.rules, ids, i, rules, drawn);
        if rules[i].id == "" {
          rules := rules[i := rules[i].(id := ids[drawn])];
          drawn := drawn + 1;
        }
      }
      assert rs.rules[..|rs.rules|] == rs.rules && rs.rules[|rs.rules|..] == [];
      assert rules == FillIds(rs.rules, ids);
      var saved := rs.(version := CURRENT_SCHEMA, rules := rules);
      assert saved == Stamped(rs, ids);
      ok := WriteAtomic(saved, disk);
    }

    /** One load, with whatever others did to the file before its second look: an
        old file is backed up under its own version, rewritten once and returned
        migrated; one that another load has migrated by then is returned as it is
        found; anything else is left alone. */
    method Load(fate: Fate) returns (r: Loaded)
      modifies this
      ensures LoadIs(old(file), old(backups), fate, r, file, backups)
    {
      var b := file;
      if !b.Whole? || b.bytes.Garbage? {
        return Failed;
      }
      var m := Migrate(b.bytes.rs);
      if m.Refused? {
        return Failed;
      }
      if m.changed {
        file := fate.later;
        if file.Whole? && !file.bytes.Garbage? && file.bytes.rs.version >= CURRENT_SCHEMA {
          return Ok(file.bytes.rs);
        }
        if !fate.backs {
          backups := backups[b.bytes.rs.version := Partial];
          return Failed;
        }
        backups := backups[b.bytes.rs.version := b];
        var ok := WriteAtomic(m.rs, fate.disk);
        if !ok {
          return Failed;
        }
      }
      return Ok(m.rs);
    }
  }

  lemma {:induction false} MissingMonotone(rules: seq<Rule>, i: nat)
    requires i <= |rules|
    ensures WithoutId(rules[..i]) <= WithoutId(rules)
  {
    if i == |rules| {
      assert rules[..i] == rules;
    } else {
      assert rules[..|rules| - 1][..i] == rules[..i];
      MissingMonotone(rules[..|rules| - 1], i);
    }
  }

  lemma FillStep(rules: seq<Rule>, ids: seq<string>, i: nat)
    requires i < |rules| && WithoutId(rules) <= |ids|
    ensures WithoutId(rules[..i + 1]) == WithoutId(rules[..i]) + if rules[i].id == "" then 1 else 0
    ensures WithoutId(rules[..i]) <= WithoutId(rules[..i + 1]) <= WithoutId(rules)
    ensures rules[i].id == "" ==> WithoutId(rules[..i]) < |ids|
    ensures FillIds(rules[..i + 1], ids) == FillIds(rules[..i], ids)
      + [if rules[i].id == "" then rules[i].(id := ids[WithoutId(rules[..i])]) else rules[i]]
  {
    assert rules[..i + 1][..i] == rules[..i];
    MissingMonotone(rules, i + 1);
  }

  /** The first i rules have their ids, from the first `drawn` fresh ones. */
  predicate FilledSoFar(rules: seq<Rule>, ids: seq<string>, i: int, now: seq<Rule>, drawn: int)
    requires WithoutId(rules) <= |ids|
  {
    && 0 <= i <= |rules| && WithoutId(rules[..i]) <= |ids| && drawn == WithoutId(rules[..i])
    && now == FillIds(rules[..i], ids) + rules[i..]
  }

  lemma FilledOneMore(rules: seq<Rule>, ids: seq<string>, i: int, now: seq<Rule>, drawn: int)
    requires WithoutId(rules) <= |ids| && i < |rules| && FilledSoFar(rules, ids, i, now, drawn)
    ensures |now| == |rules| && now[i] == rules[i]
    ensures if rules[i].id == ""
            then drawn < |ids| && FilledSoFar(rules, ids, i + 1, now[i := rules[i].(id := ids[drawn])], drawn + 1)
            else FilledSoFar(rules, ids, i + 1, now, drawn)
  {
    var front := FillIds(rules[..i], ids);
    FillStep(rules, ids, i);
    var r := if rules[i].id == "" then rules[i].(id := ids[drawn]) else rules[i];
    var tail := rules[i..];
    assert |front| == i && tail[0] == rules[i] && tail[1..] == rules[i + 1..];
    ReplaceNext(front, tail, r);
    if rules[i].id != "" {
      assert now[i := r] == now;
    }
  }

  // ----- what a save does to a set -----

  /** Fresh ids: safe, distinct, and none of them in use. */
  predicate FreshIds(rules: seq<Rule>, ids: seq<string>) {
    && (forall i | 0 <= i < |ids| :: ids[i] != "" && IsSafeRuleID(ids[i]))
    && (forall i, j | 0 <= i < j < |ids| :: ids[i] != ids[j])
    && forall r | r in rules :: r.id !in ids
  }

  /** Only missing ids change, each to one of its own. */
  lemma {:induction false} FilledAt(rules: seq<Rule>, ids: seq<string>, i: nat)
    requires i < |rules| && WithoutId(rules) <= |ids|
    ensures WithoutId(rules[..i]) <= |ids|
    ensures rules[i].id == "" ==> WithoutId(rules[..i]) < |ids|
    ensures FillIds(rules, ids)[i] ==
      if rules[i].id == "" then rules[i].(id := ids[WithoutId(rules[..i])]) else rules[i]
  {
    var n := |rules| - 1;
    FillStep(rules, ids, i);
    if i < n {
      assert rules[..n][..i] == rules[..i];
      MissingMonotone(rules, n);
      FilledAt(rules[..n], ids, i);
    }
  }

  lemma MissingGrows(rules: seq<Rule>, i: nat, j: nat)
    requires i < j <= |rules| && rules[i].id == ""
    ensures WithoutId(rules[..i]) < WithoutId(rules[..j])
  {
    assert rules[..i + 1][..i] == rules[..i] && rules[..j][..i + 1] == rules[..i + 1];
    MissingMonotone(rules[..j], i + 1);
  }

  lemma FilledDistinct(rules: seq<Rule>, ids: seq<string>)
    requires WithoutId(rules) <= |ids| && FreshIds(rules, ids) && DistinctIDs(rules)
    ensures DistinctIDs(FillIds(rules, ids))
  {
    var filled := FillIds(rules, ids);
    forall i, j | 0 <= i < j < |filled| && filled[i].id != "" ensures filled[i].id != filled[j].id {
      FilledAt(rules, ids, i);
      FilledAt(rules, ids, j);
      assert rules[i] in rules && rules[j] in rules;
      if rules[i].id == "" && rules[j].id == "" {
        MissingGrows(rules, i, j);
      }
    }
  }

  lemma FilledDistinctBack(rules: seq<Rule>, ids: seq<string>)
    requires WithoutId(rules) <= |ids| && DistinctIDs(FillIds(rules, ids))
    ensures DistinctIDs(rules)
  {
    forall i, j | 0 <= i < j < |rules| && rules[i].id != "" ensures rules[i].id != rules[j].id {
      FilledAt(rules, ids, i);
      FilledAt(rules, ids, j);
      if rules[j].id != "" {
        assert FillIds(rules, ids)[i].id != FillIds(rules, ids)[j].id;
      }
    }
  }

  lemma IdApart(net: NetParser, r: Rule, id: string)
    requires r.id == "" && IsSafeRuleID(id)
    ensures ValidRule(net, r.(id := id)) <==> ValidRule(net, r)
  {
  }

  /** A save makes no set valid and none invalid. */
  lemma SaveKeepsValid(net: NetParser, rs: RuleSet, ids: seq<string>)
    requires WithoutId(rs.rules) <= |ids| && FreshIds(rs.rules, ids)
    ensures Valid(net, Stamped(rs, ids)) <==> Valid(net, rs)
  {
    var filled := FillIds(rs.rules, ids);
    forall i | 0 <= i < |filled| ensures ValidRule(net, filled[i]) <==> ValidRule(net, rs.rules[i]) {
      FilledAt(rs.rules, ids, i);
      if rs.rules[i].id == "" {
        IdApart(net, rs.rules[i], filled[i].id);
      }
    }
    SameElsewhere(net, rs.rules, filled);
    if DistinctIDs(rs.rules) {
      FilledDistinct(rs.rules, ids);
    } else if DistinctIDs(filled) {
      FilledDistinctBack(rs.rules, ids);
    }
    assert ValidHeader(net, Stamped(rs, ids)) <==> ValidHeader(net, rs);
  }

  lemma SameElsewhere(net: NetParser, a: seq<Rule>, b: seq<Rule>)
    requires |a| == |b| && forall i | 0 <= i < |a| :: ValidRule(net, b[i]) <==> ValidRule(net, a[i])
    ensures (forall r | r in b :: ValidRule(net, r)) <==> (forall r | r in a :: ValidRule(net, r))
  {
    if forall r | r in a :: ValidRule(net, r) {
      forall i | 0 <= i < |b| ensures ValidRule(net, b[i]) {
        assert a[i] in a;
      }
    } else {
      var i :| 0 <= i < |a| && !ValidRule(net, a[i]);
      assert b[i] in b;
    }
  }

  /** What a save writes: every field and every rule as it was, in its place, stamped
      schema 3, and a rule's id replaced only where there was none. */
  lemma SaveKeepsRest(rs: RuleSet, ids: seq<string>, i: nat)
    requires WithoutId(rs.rules) <= |ids|
    ensures var out := Stamped(rs, ids);
            && out == RuleSet(3, rs.lan, rs.hostIP, rs.policy, rs.v6Drop, out.rules) && |out.rules| == |rs.rules|
            && (i < |rs.rules| ==>
                  && out.rules[i].(id := rs.rules[i].id) == rs.rules[i]
                  && (rs.rules[i].id != "" ==> out.rules[i] == rs.rules[i])
                  && (rs.rules[i].id == "" ==> out.rules[i].id in ids))
  {
    if i < |rs.rules| {
      FilledAt(rs.rules, ids, i);
    }
  }

  /** What one load promises of the file and its backups, with the schemas written out:
      a file of schema 3 is returned as it is and left alone; one of another schema
      than 0 to 2, or none, fails and is left alone; an old one that nobody else
      touches, on a willing disk, is returned and rewritten lifted; and the file is
      never replaced but by the lifted set, its backup complete. */
  lemma LoadPromise(was: Slot, backups0: map<int, Slot>, fate: Fate, r: Loaded, file: Slot, backups: map<int, Slot>)
    requires LoadIs(was, backups0, fate, r, file, backups)
    ensures r.Ok? ==> r.rs.version >= 3
    ensures Decoded(was).None? || Decoded(was).value.version < 0 || Decoded(was).value.version > 3 ==>
      r == Failed && file == was && backups == backups0
    ensures Decoded(was).Some? && Decoded(was).value.version == 3 ==>
      r == Ok(Decoded(was).value) && file == was && backups == backups0
    ensures Decoded(was).Some? && 0 <= Decoded(was).value.version < 3 ==>
      var rs := Decoded(was).value;
      && (fate == Fate(was, true, Disk(true, true)) ==>
            r == Ok(rs.(version := 3)) && file == Whole(Written(rs.(version := 3)))
            && backups == backups0[rs.version := was])
      && (file == fate.later
          || (file == Whole(Written(rs.(version := 3))) && rs.version in backups && backups[rs.version] == was))
  {
  }

  // ----- any number of loads at once -----

  /** Where one load stands. The file it read travels with it. */
  datatype Stage =
    | Start
    | WantLock(read: Bytes)
    | Locked(read: Bytes)         // holds the lock, has not re-read
    | Backing(read: Bytes)        // backup being written in place
    | BackedUp(read: Bytes)
    | Staging(read: Bytes)        // temporary file being written
    | Staged(read: Bytes)
    | Renamed(read: Bytes)        // done, still holding the lock
    | Done(result: Loaded)

  predicate HoldsLock(p: Stage) {
    p.Locked? || p.Backing? || p.BackedUp? || p.Staging? || p.Staged? || p.Renamed?
  }

  datatype System = System(
    file: Bytes,                  // replaced by rename only, so always whole
    backup: Slot,                 // the backup of the original's version
    tmp: Slot,
    lock: Option<nat>,
    loads: seq<Stage>,
    rewrites: nat)                // how often the file was replaced

  /** One step of load i; a write may fail, and then the load returns an error. */
  datatype Move = Move(i: nat, writeFails: bool)

  predicate CanMove(s: System, m: Move) {
    && m.i < |s.loads| && !s.loads[m.i].Done?
    && (s.loads[m.i].WantLock? ==> s.lock.None?)
  }

  function Give(s: System, i: nat, p: Stage): System
    requires i < |s.loads|
  {
    s.(loads := s.loads[i := p], lock := if p.Done? && s.lock == Some(i) then None else s.lock)
  }

  function Next(s: System, m: Move): System
    requires CanMove(s, m)
  {
    match s.loads[m.i]
    case Start =>
      if s.file.Garbage? then Give(s, m.i, Done(Failed))
      else
        var r := MigrateSpec(s.file.rs);
        Give(s, m.i, if r.Refused? then Done(Failed) else if r.changed then WantLock(s.file) else Done(Ok(r.rs)))
    case WantLock(read) => Give(s.(lock := Some(m.i)), m.i, Locked(read))
    case Locked(read) =>
      if !s.file.Garbage? && s.file.rs.version >= CURRENT_SCHEMA then Give(s, m.i, Done(Ok(s.file.rs)))
      else Give(s.(backup := Partial), m.i, Backing(read))
    case Backing(read) =>
      if m.writeFails then Give(s, m.i, Done(Failed))
      else Give(s.(backup := Whole(read)), m.i, BackedUp(read))
    case BackedUp(read) => Give(s.(tmp := Partial), m.i, Staging(read))
    case Staging(read) =>
      if m.writeFails || read.Garbage? || MigrateSpec(read.rs).Refused? then Give(s, m.i, Done(Failed))
      else Give(s.(tmp := Whole(Written(MigrateSpec(read.rs).rs))), m.i, Staged(read))
    case Staged(read) =>
      if m.writeFails || !s.tmp.Whole? then Give(s, m.i, Done(Failed))
      else Give(s.(file := s.tmp.bytes, tmp := Missing, rewrites := s.rewrites + 1), m.i, Renamed(read))
    case Renamed(read) =>
      Give(s, m.i, Done(if read.Garbage? || MigrateSpec(read.rs).Refused? then Failed else Ok(MigrateSpec(read.rs).rs)))
    case Done(_) => s
  }

  // ----- one load of the machine is one call -----

  function Moved(s: System, writeFails: bool): System {
    if CanMove(s, Move(0, writeFails)) then Next(s, Move(0, writeFails)) else s
  }

  /** One load from beginning to end, somebody else having replaced the file by `later`
      before its second look. */
  function Alone(was: Bytes, later: Bytes, backup: Slot, tmp: Slot, backs: bool, disk: Disk): System {
    var looked := Moved(System(was, backup, tmp, None, [Start], 0), false);
    if looked.loads[0].Done? then looked
    else
      var again := Moved(Moved(looked, false).(file := later), false);
      var backed := Moved(Moved(again, !backs), false);
      Moved(Moved(Moved(backed, !disk.writes), !disk.renames), false)
  }

  /** The machine's moves of one load and the store's method agree: what the load
      returns, what it leaves in the file and what in the backup. */
  lemma LoadIsMoves(was: Bytes, later: Bytes, backups0: map<int, Slot>, backup: Slot, tmp: Slot,
                    backs: bool, disk: Disk)
    requires !was.Garbage? ==> was.rs.version in backups0 && backups0[was.rs.version] == backup
    ensures var e := Alone(was, later, backup, tmp, backs, disk);
            && |e.loads| == 1 && e.loads[0].Done?
            && LoadIs(Whole(was), backups0, Fate(Whole(later), backs, disk), e.loads[0].result, Whole(e.file),
                      if was.Garbage? then backups0 else backups0[was.rs.version := e.backup])
  {
    var s := System(was, backup, tmp, None, [Start], 0);
    FirstLook(s);
    if !was.Garbage? && 0 <= was.rs.version < CURRENT_SCHEMA {
      SecondLook(s.(loads := [WantLock(was)]), was, later);
      if !later.Garbage? && later.rs.version >= CURRENT_SCHEMA {
        DoneStays(s.(file := later, loads := [Done(Ok(later.rs))]));
      } else {
        BackedAndWritten(s.(file := later, backup := Partial, loads := [Backing(was)], lock := Some(0)),
                         was, backs, disk);
      }
    }
    assert !was.Garbage? ==> backups0[was.rs.version := backup] == backups0;
  }

  lemma OneLoad(s: System, p: Stage, q: Stage)
    requires s.loads == [p]
    ensures s.loads[0 := q] == [q]
  {
  }

  lemma DoneStays(s: System)
    requires |s.loads| == 1 && s.loads[0].Done?
    ensures forall fails :: Moved(s, fails) == s
  {
  }

  lemma FirstLook(s: System)
    requires s.loads == [Start]
    ensures var n := Moved(s, false);
            if s.file.Garbage? || MigrateSpec(s.file.rs).Refused? then n == Give(s, 0, Done(Failed))
            else if s.file.rs.version == CURRENT_SCHEMA then n == Give(s, 0, Done(Ok(s.file.rs)))
            else n == s.(loads := [WantLock(s.file)])
    ensures Give(s, 0, Done(Failed)).loads == [Done(Failed)]
  {
    forall q ensures s.loads[0 := q] == [q] {
      OneLoad(s, Start, q);
    }
  }

  lemma SecondLook(s: System, was: Bytes, later: Bytes)
    requires s.loads == [WantLock(was)] && s.lock == None
    ensures var n := Moved(Moved(s, false).(file := later), false);
            if !later.Garbage? && later.rs.version >= CURRENT_SCHEMA
            then n == s.(file := later, loads := [Done(Ok(later.rs))])
            else n == s.(file := later, backup := Partial, loads := [Backing(was)], lock := Some(0))
  {
    var locked := s.(lock := Some(0), loads := [Locked(was)]);
    OneLoad(s, WantLock(was), Locked(was));
    assert Moved(s, false) == locked;
    forall q ensures locked.(file := later).loads[0 := q] == [q] {
      OneLoad(locked.(file := later), Locked(was), q);
    }
  }

  /** From the backup on. */
  lemma BackedAndWritten(s: System, was: Bytes, backs: bool, disk: Disk)
    requires s.loads == [Backing(was)] && s.lock == Some(0)
    requires !was.Garbage? && 0 <= was.rs.version < CURRENT_SCHEMA
    ensures var n := Moved(Moved(Moved(Moved(Moved(s, !backs), false), !disk.writes), !disk.renames), false);
            var lifted := was.rs.(version := CURRENT_SCHEMA);
            && n.backup == (if backs then Whole(was) else s.backup)
            && if backs && disk.writes && disk.renames
               then n.loads == [Done(Ok(lifted))] && n.file == Written(lifted)
               else n.loads == [Done(Failed)] && n.file == s.file
  {
    var lifted := was.rs.(version := CURRENT_SCHEMA);
    if !backs {
      OneLoad(s, Backing(was), Done(Failed));
      DoneStays(s.(loads := [Done(Failed)], lock := None));
    } else {
      var backed := s.(backup := Whole(was), loads := [BackedUp(was)]);
      var staging := backed.(tmp := Partial, loads := [Staging(was)]);
      OneLoad(s, Backing(was), BackedUp(was));
      assert Moved(s, false) == backed;
      OneLoad(backed, BackedUp(was), Staging(was));
      assert Moved(backed, false) == staging;
      WrittenAndRenamed(staging, was, disk);
    }
  }

  lemma WrittenAndRenamed(s: System, was: Bytes, disk: Disk)
    requires s.loads == [Staging(was)] && s.lock == Some(0)
    requires !was.Garbage? && 0 <= was.rs.version < CURRENT_SCHEMA
    ensures var n := Moved(Moved(Moved(s, !disk.writes), !disk.renames), false);
            var lifted := was.rs.(version := CURRENT_SCHEMA);
            && n.backup == s.backup
            && if disk.writes && disk.renames
               then n.loads == [Done(Ok(lifted))] && n.file == Written(lifted)
               else n.loads == [Done(Failed)] && n.file == s.file
  {
    var lifted := was.rs.(version := CURRENT_SCHEMA);
    var staged := s.(tmp := Whole(Written(lifted)), loads := [Staged(was)]);
    var renamed := s.(file := Written(lifted), tmp := Missing, rewrites := s.rewrites + 1, loads := [Renamed(was)]);
    OneLoad(s, Staging(was), Done(Failed));
    OneLoad(s, Staging(was), Staged(was));
    OneLoad(staged, Staged(was), Done(Failed));
    OneLoad(staged, Staged(was), Renamed(was));
    OneLoad(renamed, Renamed(was), Done(Ok(lifted)));
    if disk.writes {
      assert Moved(s, false) == staged;
      if disk.renames {
        assert Moved(staged, false) == renamed;
      } else {
        DoneStays(staged.(loads := [Done(Failed)], lock := None));
      }
    } else {
      DoneStays(s.(loads := [Done(Failed)], lock := None));
    }
  }

  predicate OldSchema(orig: Bytes) {
    orig.Hand? && 0 <= orig.rs.version < CURRENT_SCHEMA
  }

  function Lifted(orig: Bytes): RuleSet
    requires OldSchema(orig)
  {
    orig.rs.(version := CURRENT_SCHEMA)
  }

  /** What one load may know, given what the files are. */
  predicate Fits(s: System, orig: Bytes, p: Stage)
    requires OldSchema(orig)
  {
    match p
    case Start => true
    case WantLock(read) => read == orig
    case Locked(read) => read == orig
    case Backing(read) => read == orig && s.file == orig
    case BackedUp(read) => read == orig && s.file == orig && s.backup == Whole(orig)
    case Staging(read) => read == orig && s.file == orig && s.backup == Whole(orig)
    case Staged(read) =>
      read == orig && s.file == orig && s.backup == Whole(orig) && s.tmp == Whole(Written(Lifted(orig)))
    case Renamed(read) => read == orig && s.file == Written(Lifted(orig))
    case Done(r) => r.Ok? ==> r.rs == Lifted(orig) && s.file == Written(Lifted(orig))
  }

  /** The file is the original or its migrated form, the latter after exactly one
      rewrite and never without a complete backup; the lock holder is the only
      load inside. */
  predicate Safe(s: System, orig: Bytes)
    requires OldSchema(orig)
  {
    && (s.lock.Some? ==> s.lock.value < |s.loads|)
    && (s.file == orig || s.file == Written(Lifted(orig)))
    && s.rewrites == (if s.file == orig then 0 else 1)
    && (s.file != orig ==> s.backup == Whole(orig))
    && (forall i | 0 <= i < |s.loads| :: HoldsLock(s.loads[i]) <==> s.lock == Some(i))
    && (forall i | 0 <= i < |s.loads| :: Fits(s, orig, s.loads[i]))
  }

  lemma MoveKeepsSafe(s: System, orig: Bytes, m: Move)
    requires OldSchema(orig) && Safe(s, orig) && CanMove(s, m)
    ensures Safe(Next(s, m), orig)
  {
    var n := Next(s, m);
    assert Fits(s, orig, s.loads[m.i]);
    forall i | 0 <= i < |n.loads| ensures Fits(n, orig, n.loads[i]) {
      if i != m.i {
        assert Fits(s, orig, s.loads[i]) && n.loads[i] == s.loads[i];
        assert HoldsLock(s.loads[i]) <==> s.lock == Some(i);
        assert HoldsLock(s.loads[m.i]) <==> s.lock == Some(m.i);
      }
    }
  }

  predicate Follows(s: System, run: seq<Move>)
    decreases |run|
  {
    run == [] || (CanMove(s, run[0]) && Follows(Next(s, run[0]), run[1..]))
  }

  function End(s: System, run: seq<Move>): System
    requires Follows(s, run)
    decreases |run|
  {
    if run == [] then s else End(Next(s, run[0]), run[1..])
  }

  lemma {:induction false} RunKeepsSafe(s: System, orig: Bytes, run: seq<Move>)
    requires OldSchema(orig) && Safe(s, orig) && Follows(s, run)
    ensures Safe(End(s, run), orig) && |End(s, run).loads| == |s.loads|
    decreases |run|
  {
    if run != [] {
      MoveKeepsSafe(s, orig, run[0]);
      RunKeepsSafe(Next(s, run[0]), orig, run[1..]);
    }
  }

  /** n loads about to begin on one old file, with whatever an earlier crash left
      in the backup and temporary files. */
  function Begin(orig: Bytes, n: nat, backup: Slot, tmp: Slot): System {
    System(orig, backup, tmp, None, seq(n, _ => Start), 0)
  }

  /** At every point of every interleaving: the file is the original or the
      migrated form, rewritten at most once, the backup complete whenever it is
      migrated; and every load that has returned a set returned the same one,
      the original with only its version changed. */
  lemma ConcurrentLoads(orig: Bytes, n: nat, backup: Slot, tmp: Slot, run: seq<Move>)
    requires OldSchema(orig) && Follows(Begin(orig, n, backup, tmp), run)
    ensures var s := End(Begin(orig, n, backup, tmp), run);
            && (s.file == orig || (s.file == Written(Lifted(orig)) && s.backup == Whole(orig)))
            && s.rewrites == (if s.file == orig then 0 else 1)
            && (forall i | 0 <= i < |s.loads| && s.loads[i].Done? && s.loads[i].result.Ok? ::
                  s.loads[i].result.rs == orig.rs.(version := CURRENT_SCHEMA) && s.rewrites == 1)
  {
    var s := Begin(orig, n, backup, tmp);
    assert Safe(s, orig);
    RunKeepsSafe(s, orig, run);
    var e := End(s, run);
    forall i | 0 <= i < |e.loads| && e.loads[i].Done? && e.loads[i].result.Ok?
      ensures e.loads[i].result.rs == orig.rs.(version := CURRENT_SCHEMA) && e.rewrites == 1
    {
      assert Fits(e, orig, e.loads[i]);
    }
  }

  predicate AllDone(s: System) {
    forall i | 0 <= i < |s.loads| :: s.loads[i].Done?
  }

  predicate NoneFailed(s: System) {
    forall i | 0 <= i < |s.loads| :: s.loads[i] != Done(Failed)
  }

  lemma {:induction false} NoWriteFails(s: System, orig: Bytes, run: seq<Move>)
    requires OldSchema(orig) && Safe(s, orig) && Follows(s, run) && NoneFailed(s)
    requires forall m | m in run :: !m.writeFails
    ensures NoneFailed(End(s, run))
    decreases |run|
  {
    if run != [] {
      var m := run[0];
      var n := Next(s, m);
      assert m in run && forall x | x in run[1..] :: x in run;
      MoveKeepsSafe(s, orig, m);
      assert Fits(s, orig, s.loads[m.i]);
      forall i | 0 <= i < |n.loads| ensures n.loads[i] != Done(Failed) {
        if i != m.i {
          assert n.loads[i] == s.loads[i];
        }
      }
      NoWriteFails(n, orig, run[1..]);
    }
  }

  /** When the disk obliges and every load has finished, every one of them has the
      migrated set, and exactly one rewrote the file. */
  lemma ExactlyOneRewrites(orig: Bytes, n: nat, backup: Slot, tmp: Slot, run: seq<Move>)
    requires OldSchema(orig) && n > 0 && Follows(Begin(orig, n, backup, tmp), run)
    requires forall m | m in run :: !m.writeFails
    requires AllDone(End(Begin(orig, n, backup, tmp), run))
    ensures var s := End(Begin(orig, n, backup, tmp), run);
            && s.rewrites == 1 && s.file == Written(orig.rs.(version := CURRENT_SCHEMA)) && s.backup == Whole(orig)
            && s.loads == seq(n, _ => Done(Ok(orig.rs.(version := CURRENT_SCHEMA))))
  {
    var b := Begin(orig, n, backup, tmp);
    var s := End(b, run);
    assert Safe(b, orig);
    RunKeepsSafe(b, orig, run);
    NoWriteFails(b, orig, run);
    forall i | 0 <= i < n ensures s.loads[i] == Done(Ok(Lifted(orig))) {
      assert Fits(s, orig, s.loads[i]) && s.loads[i].Done? && s.loads[i] != Done(Failed);
      assert s.loads[i].result.Ok?;
    }
    assert Fits(s, orig, s.loads[0]);
  }

  // ----- and they finish -----

  function Rank(p: Stage): nat {
    match p
    case Start => 8
    case WantLock(_) => 7
    case Locked(_) => 6
    case Backing(_) => 5
    case BackedUp(_) => 4
    case Staging(_) => 3
    case Staged(_) => 2
    case Renamed(_) => 1
    case Done(_) => 0
  }

  function Work(loads: seq<Stage>): nat {
    if loads == [] then 0 else Rank(loads[0]) + Work(loads[1..])
  }

  lemma {:induction false} WorkUpdate(loads: seq<Stage>, i: nat, p: Stage)
    requires i < |loads|
    ensures Work(loads[i := p]) + Rank(loads[i]) == Work(loads) + Rank(p)
  {
    if i > 0 {
      WorkUpdate(loads[1..], i - 1, p);
      assert loads[i := p][1..] == loads[1..][i - 1 := p];
    } else {
      assert loads[i := p][1..] == loads[1..];
    }
  }

  lemma SomeoneMoves(s: System, orig: Bytes)
    requires OldSchema(orig) && Safe(s, orig) && !AllDone(s)
    ensures exists m :: CanMove(s, m)
  {
    var i :| 0 <= i < |s.loads| && !s.loads[i].Done?;
    if s.lock.Some? {
      assert HoldsLock(s.loads[s.lock.value]);
      assert CanMove(s, Move(s.lock.value, false));
    } else {
      assert CanMove(s, Move(i, false));
    }
  }

  /** Nothing waits for ever: wherever a run has come to, some load can move until
      all are done, and no run is longer than eight steps a load. */
  lemma NoDeadlock(orig: Bytes, n: nat, backup: Slot, tmp: Slot, run: seq<Move>)
    requires OldSchema(orig) && Follows(Begin(orig, n, backup, tmp), run)
    ensures var s := End(Begin(orig, n, backup, tmp), run);
            AllDone(s) || exists m :: CanMove(s, m)
    ensures |run| <= 8 * n
  {
    var b := Begin(orig, n, backup, tmp);
    assert Safe(b, orig);
    RunKeepsSafe(b, orig, run);
    if !AllDone(End(b, run)) {
      SomeoneMoves(End(b, run), orig);
    }
    RunIsBounded(b, run);
    AllToDo(b.loads);
  }

  lemma {:induction false} AllToDo(loads: seq<Stage>)
    requires forall p | p in loads :: p == Start
    ensures Work(loads) == 8 * |loads|
  {
    if loads != [] {
      assert loads[0] in loads && forall p | p in loads[1..] :: p in loads;
      AllToDo(loads[1..]);
    }
  }

  lemma {:induction false} RunIsBounded(s: System, run: seq<Move>)
    requires Follows(s, run)
    ensures |run| <= Work(s.loads)
    decreases |run|
  {
    if run != [] {
      var n := Next(s, run[0]);
      WorkUpdate(s.loads, run[0].i, n.loads[run[0].i]);
      assert n.loads == s.loads[run[0].i := n.loads[run[0].i]];
      RunIsBounded(n, run[1..]);
    }
  }
}
