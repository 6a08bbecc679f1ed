/** The kernel's filter tables as scripts see them, and an interpreter for the
    commands the two back ends and the engine issue. */
module Tables {
  import opened Text
  import opened Netfilter
  import opened RuleLines

  /** `Own(DockerIn)` is DOCKER-USER, which Docker creates; the other `Own`
      chains are ZFW's. */
  datatype Chain = Input | Output | Forward | Own(kind: Kind) | Other(name: string)

  /** One entry of a chain: a compiled line, a bare jump, or somebody else's rule. */
  datatype Entry = Mine(line: Line) | Hook(target: Chain) | Foreign(text: string, jumps: Option<Chain>)

  type Table = map<Chain, seq<Entry>>

  datatype Kernel = Kernel(v4: Table, v6: Table) {
    function Of(fam6: bool): Table {
      if fam6 then v6 else v4
    }

    function With(fam6: bool, t: Table): Kernel {
      if fam6 then Kernel(v4, t) else Kernel(t, v6)
    }
  }

  /** Which IPv6 tools the host has. */
  datatype Tools = Tools(ip6tables: bool, ip6restore: bool)

  /** An `iptables-restore --noflush` document: declared chains, then appends. */
  datatype Doc = Doc(chains: seq<Chain>, appends: seq<(Chain, Line)>)

  datatype Op =
    | NewChain(fam6: bool, chain: Chain)              // -N
    | FlushChain(fam6: bool, chain: Chain)            // -F
    | Append(fam6: bool, chain: Chain, line: Line)    // -A
    | EnsureHook(fam6: bool, from: Chain, to: Chain)  // -C || -I 1
    | Unhook(fam6: bool, from: Chain, to: Chain)      // -D
    | DropChain(fam6: bool, chain: Chain)             // -X
    | Restore(fam6: bool, doc: Doc)                   // --test, then --noflush
    | LoadSet(name: string)                           // ipset restore

  datatype Cmd =
    | Must(op: Op)           // under set -e
    | Try(op: Op)            // ... || true
    | IfChain(chain: Chain)  // if $IPT -L chain
    | IfIp6tables            // if [ -n "$IPT6" ]
    | IfIp6restore           // if [ -n "$IPT6R" ]
    | EndIf

  type Script = seq<Cmd>

  function Entries(lines: seq<Line>): seq<Entry> {
    seq(|lines|, i requires 0 <= i < |lines| => Mine(lines[i]))
  }

  predicate Refers(e: Entry, c: Chain) {
    e == Hook(c) || (e.Foreign? && e.jumps == Some(c))
  }

  predicate Referenced(t: Table, c: Chain) {
    exists x | x in t :: exists e | e in t[x] :: Refers(e, c)
  }

  function RemoveFirst(s: seq<Entry>, e: Entry): seq<Entry> {
    if s == [] then [] else if s[0] == e then s[1..] else [s[0]] + RemoveFirst(s[1..], e)
  }

  /** `:CHAIN - [0:0]`: create or empty. */
  function Declare(t: Table, chains: seq<Chain>): Table {
    if chains == [] then t else Declare(t, chains[..|chains| - 1])[chains[|chains| - 1] := []]
  }

  function AppendAll(t: Table, appends: seq<(Chain, Line)>): Option<Table> {
    if appends == [] then Some(t)
    else
      var n := |appends| - 1;
      var front := AppendAll(t, appends[..n]);
      var c := appends[n].0;
      if front.None? || c !in front.value then None
      else Some(front.value[c := front.value[c] + [Mine(appends[n].1)]])
  }

  /** One operation; None when it fails, and then nothing has changed. */
  function Exec(op: Op, s: Kernel): Option<Kernel> {
    match op
    case NewChain(f, c) => if c in s.Of(f) then None else Some(s.With(f, s.Of(f)[c := []]))
    case FlushChain(f, c) => if c in s.Of(f) then Some(s.With(f, s.Of(f)[c := []])) else None
    case Append(f, c, line) =>
      if c in s.Of(f) then Some(s.With(f, s.Of(f)[c := s.Of(f)[c] + [Mine(line)]])) else None
    case EnsureHook(f, from, to) =>
      var t := s.Of(f);
      if from in t && Hook(to) in t[from] then Some(s)
      else if from in t && to in t then Some(s.With(f, t[from := [Hook(to)] + t[from]]))
      else None
    case Unhook(f, from, to) =>
      var t := s.Of(f);
      if from in t && Hook(to) in t[from] then Some(s.With(f, t[from := RemoveFirst(t[from], Hook(to))])) else None
    case DropChain(f, c) =>
      var t := s.Of(f);
      if c in t && t[c] == [] && !Referenced(t, c) then Some(s.With(f, t - {c})) else None
    case Restore(f, doc) =>
      var r := AppendAll(Declare(s.Of(f), doc.chains), doc.appends);
      if r.Some? then Some(s.With(f, r.value)) else None
    case LoadSet(_) => Some(s)
  }

  datatype Run = Run(ok: bool, kernel: Kernel, skipping: bool)

  /** Whether an `if` line enters its block. */
  predicate Taken(c: Cmd, tools: Tools, s: Kernel) {
    match c
    case IfChain(chain) => chain in s.v4
    case IfIp6tables => tools.ip6tables
    case IfIp6restore => tools.ip6restore
    case _ => true
  }

  function StepCmd(c: Cmd, tools: Tools, s: Kernel, skipping: bool, rejected: bool): Run {
    if c.EndIf? then Run(true, s, false)
    else if skipping then Run(true, s, true)
    else if c.Must? then
      var r := Exec(c.op, s);
      if rejected || r.None? then Run(false, s, false) else Run(true, r.value, false)
    else if c.Try? then
      var r := Exec(c.op, s);
      Run(true, if rejected || r.None? then s else r.value, false)
    else
      Run(true, s, !Taken(c, tools, s))
  }

  /** A script under `set -e`, the command of index `rejected` being refused by
      the kernel (a bad rule, a missing module); a negative index refuses none. */
  function RunScript(script: Script, tools: Tools, s: Kernel, skipping: bool, rejected: int): Run {
    if script == [] then Run(true, s, skipping)
    else
      var r := StepCmd(script[0], tools, s, skipping, rejected == 0);
      if !r.ok then r else RunScript(script[1..], tools, r.kernel, r.skipping, rejected - 1)
  }

  lemma {:induction false} RunConcat(a: Script, b: Script, tools: Tools, s: Kernel, skipping: bool, rejected: int)
    ensures var r := RunScript(a, tools, s, skipping, rejected);
            RunScript(a + b, tools, s, skipping, rejected) ==
            if r.ok then RunScript(b, tools, r.kernel, r.skipping, rejected - |a|) else r
  {
    if a == [] {
      assert a + b == b;
    } else {
      var r := StepCmd(a[0], tools, s, skipping, rejected == 0);
      assert (a + b)[1..] == a[1..] + b;
      if r.ok {
        RunConcat(a[1..], b, tools, r.kernel, r.skipping, rejected - 1);
      }
    }
  }

  function Appends(fam6: bool, c: Chain, lines: seq<Line>): Script {
    seq(|lines|, i requires 0 <= i < |lines| => Must(Append(fam6, c, lines[i])))
  }

  /** Appending lines one by one to a chain that exists. */
  lemma {:induction false} RunAppends(fam6: bool, c: Chain, lines: seq<Line>, tools: Tools, s: Kernel)
    requires c in s.Of(fam6)
    ensures RunScript(Appends(fam6, c, lines), tools, s, false, -1)
         == Run(true, s.With(fam6, s.Of(fam6)[c := s.Of(fam6)[c] + Entries(lines)]), false)
  {
    var t := s.Of(fam6);
    if lines == [] {
      assert t[c] + Entries(lines) == t[c];
      assert t[c := t[c]] == t;
    } else {
      var n := |lines| - 1;
      RunAppends(fam6, c, lines[..n], tools, s);
      assert Appends(fam6, c, lines) == Appends(fam6, c, lines[..n]) + [Must(Append(fam6, c, lines[n]))];
      var mid := s.With(fam6, t[c := t[c] + Entries(lines[..n])]);
      RunConcat(Appends(fam6, c, lines[..n]), [Must(Append(fam6, c, lines[n]))], tools, s, false, -1);
      RunOne(Must(Append(fam6, c, lines[n])), tools, mid, false, -1 - n);
      assert t[c] + Entries(lines) == (t[c] + Entries(lines[..n])) + [Mine(lines[n])];
      assert mid.Of(fam6)[c := t[c] + Entries(lines)] == t[c := t[c] + Entries(lines)];
    }
  }

  lemma RunOne(c: Cmd, tools: Tools, s: Kernel, skipping: bool, rejected: int)
    ensures RunScript([c], tools, s, skipping, rejected) == StepCmd(c, tools, s, skipping, rejected == 0)
  {
    assert [c][1..] == [];
  }
}
