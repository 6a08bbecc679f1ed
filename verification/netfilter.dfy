/** The packet filter the compiled lines run on: packets, match clauses, lines,
    and the evaluation of one chain, with the `-m recent` state it carries. */
module Netfilter {
  import opened Rules

  type Addr = nat

  datatype Transport = TCP | UDP | ICMP | ICMPv6 | OtherTransport(number: nat)

  datatype CtState = New | Established | Related | Invalid | Untracked

  /** `origDport` is the destination port before DNAT, which conntrack keeps. */
  datatype Packet = Packet(
    inIface: string,
    outIface: string,
    src: Addr,
    dst: Addr,
    transport: Transport,
    dport: int,
    origDport: int,
    state: CtState,
    time: int)

  /** What an address literal, a country set and a schedule mean: uninterpreted. */
  datatype World = World(
    inNet: (string, Addr) -> bool,
    inSet: (string, Addr) -> bool,
    active: (Schedule, int) -> bool)

  /** One match clause of a line. */
  datatype Match =
    | StateIn(states: set<CtState>)         // -m conntrack --ctstate
    | InIface(pattern: string)              // -i
    | OutIface(pattern: string)             // -o
    | SrcNet(net: string)                   // -s
    | DstNet(net: string)                   // -d
    | SrcSet(name: string)                  // -m set --match-set NAME src
    | DstSet(name: string)                  // -m set --match-set NAME dst
    | ProtoIs(transport: Transport)         // -p
    | BadProto                              // -p with a name no protocol has
    | Dport(port: int)                      // --dport P
    | DportRange(low: int, high: int)       // --dport A:B
    | Multiport(ports: seq<int>)            // -m multiport --dports
    | OrigDport(port: int)                  // --ctorigdstport P
    | OrigDportRange(low: int, high: int)   // --ctorigdstport A:B
    | TimeWindow(schedule: Schedule)        // -m time

  datatype Verdict = Accept | Drop | Return

  datatype Act =
    | Jump(verdict: Verdict)
    | Log(prefix: string)                                    // does not end the chain
    | RecentSet(name: string)                                // no target at all
    | RecentUpdate(name: string, seconds: int, hitcount: int) // drops when it matches

  datatype Line = Line(conds: seq<Match>, act: Act)

  /** Interface match: a trailing `+` is a wildcard. */
  predicate IfaceMatches(pattern: string, iface: string) {
    if pattern != "" && pattern[|pattern| - 1] == '+'
    then pattern[..|pattern| - 1] <= iface
    else pattern == iface
  }

  predicate Holds(w: World, m: Match, p: Packet) {
    match m
    case StateIn(states) => p.state in states
    case InIface(pattern) => IfaceMatches(pattern, p.inIface)
    case OutIface(pattern) => IfaceMatches(pattern, p.outIface)
    case SrcNet(net) => w.inNet(net, p.src)
    case DstNet(net) => w.inNet(net, p.dst)
    case SrcSet(name) => w.inSet(name, p.src)
    case DstSet(name) => w.inSet(name, p.dst)
    case ProtoIs(transport) => p.transport == transport
    case BadProto => false
    case Dport(port) => p.dport == port
    case DportRange(low, high) => low <= p.dport <= high
    case Multiport(ports) => p.dport in ports
    case OrigDport(port) => p.origDport == port
    case OrigDportRange(low, high) => low <= p.origDport <= high
    case TimeWindow(schedule) => w.active(schedule, p.time)
  }

  predicate AllHold(w: World, conds: seq<Match>, p: Packet) {
    forall i | 0 <= i < |conds| :: Holds(w, conds[i], p)
  }

  // ----- the recent table: time stamps per (bucket, source), unbounded -----

  type Recent = map<(string, Addr), seq<int>>

  function Stamps(st: Recent, name: string, a: Addr): seq<int> {
    if (name, a) in st then st[(name, a)] else []
  }

  function Stamp(st: Recent, name: string, p: Packet): Recent {
    st[(name, p.src) := Stamps(st, name, p.src) + [p.time]]
  }

  /** How many stamps are no older than `since`. */
  function CountSince(stamps: seq<int>, since: int): nat {
    if stamps == [] then 0
    else CountSince(stamps[..|stamps| - 1], since) + if stamps[|stamps| - 1] >= since then 1 else 0
  }

  function Hits(st: Recent, name: string, p: Packet, seconds: int): nat {
    CountSince(Stamps(st, name, p.src), p.time - seconds)
  }

  // ----- evaluation -----

  datatype Outcome = Outcome(verdict: Verdict, recent: Recent)

  /** One packet through one user chain, top to bottom. */
  function Eval(w: World, chain: seq<Line>, p: Packet, st: Recent): Outcome {
    if chain == [] then Outcome(Return, st)
    else if !AllHold(w, chain[0].conds, p) then Eval(w, chain[1..], p, st)
    else
      match chain[0].act
      case Jump(v) => Outcome(v, st)
      case Log(_) => Eval(w, chain[1..], p, st)
      case RecentSet(name) => Eval(w, chain[1..], p, Stamp(st, name, p))
      case RecentUpdate(name, seconds, hitcount) =>
        if Hits(st, name, p, seconds) >= hitcount
        then Outcome(Drop, Stamp(st, name, p))
        else Eval(w, chain[1..], p, st)
  }

  /** Evaluation of a chain whose first line is known. */
  lemma EvalStep(w: World, line: Line, rest: seq<Line>, p: Packet, st: Recent)
    ensures var r := Eval(w, [line] + rest, p, st);
            if !AllHold(w, line.conds, p) || line.act.Log? then r == Eval(w, rest, p, st)
            else if line.act.Jump? then r == Outcome(line.act.verdict, st)
            else if line.act.RecentSet? then r == Eval(w, rest, p, Stamp(st, line.act.name, p))
            else if Hits(st, line.act.name, p, line.act.seconds) >= line.act.hitcount
            then r == Outcome(Drop, Stamp(st, line.act.name, p))
            else r == Eval(w, rest, p, st)
  {
    assert ([line] + rest)[1..] == rest;
  }

  predicate AnyLine(w: World, lines: seq<Line>, p: Packet) {
    exists l | l in lines :: AllHold(w, l.conds, p)
  }

  /** Lines that all jump to the same verdict act as one line that jumps there
      when any of them matches. */
  lemma {:induction false} EvalSameJump(
      w: World, lines: seq<Line>, v: Verdict, rest: seq<Line>, p: Packet, st: Recent)
    requires forall l | l in lines :: l.act == Jump(v)
    ensures Eval(w, lines + rest, p, st) ==
      if AnyLine(w, lines, p) then Outcome(v, st) else Eval(w, rest, p, st)
  {
    if lines == [] {
      assert lines + rest == rest;
    } else {
      assert lines + rest == [lines[0]] + (lines[1..] + rest);
      EvalStep(w, lines[0], lines[1..] + rest, p, st);
      EvalSameJump(w, lines[1..], v, rest, p, st);
      assert forall l | l in lines :: l == lines[0] || l in lines[1..];
    }
  }
}
