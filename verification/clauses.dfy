/** What holds of every clause of a rule's pieces holds of every clause of its
    lines. Two conditions are carried this way: that iptables accepts a clause,
    and that it belongs to its chain's address family. */
module Clauses {
  import opened Text
  import opened Rules
  import opened Netfilter
  import opened RuleLines

  predicate Fits(ok: Match -> bool, conds: seq<Match>) {
    forall m | m in conds :: ok(m)
  }

  predicate AltsFit(ok: Match -> bool, alts: seq<seq<Match>>) {
    forall a | a in alts :: Fits(ok, a)
  }

  predicate LinesFit(ok: Match -> bool, lines: seq<Line>) {
    forall l | l in lines :: Fits(ok, l.conds)
  }

  lemma {:induction false} PrependFits(ok: Match -> bool, head: seq<Match>, tails: seq<seq<Match>>)
    requires Fits(ok, head) && AltsFit(ok, tails)
    ensures AltsFit(ok, Prepend(head, tails))
  {
    if tails != [] {
      var tail := tails[|tails| - 1];
      PrependFits(ok, head, tails[..|tails| - 1]);
      assert Fits(ok, tail);
      assert forall m | m in head + tail :: m in head || m in tail;
    }
  }

  lemma {:induction false} CrossFits(ok: Match -> bool, heads: seq<seq<Match>>, tails: seq<seq<Match>>)
    requires AltsFit(ok, heads) && AltsFit(ok, tails)
    ensures AltsFit(ok, Cross(heads, tails))
  {
    if heads != [] {
      CrossFits(ok, heads[..|heads| - 1], tails);
      PrependFits(ok, heads[|heads| - 1], tails);
    }
  }

  lemma {:induction false} ChunksFit(ok: Match -> bool, ports: seq<int>)
    requires forall c: seq<int> | c != [] && |c| <= MAX_MULTIPORT && (forall p | p in c :: p in ports) ::
      Fits(ok, ChunkFrag(c))
    ensures AltsFit(ok, Chunks(ports))
  {
    if |ports| > MAX_MULTIPORT {
      var back := ports[MAX_MULTIPORT..];
      assert forall p | p in back :: p in ports;
      assert Fits(ok, ChunkFrag(ports[..MAX_MULTIPORT]));
      ChunksFit(ok, back);
    } else if ports != [] {
      assert Fits(ok, ChunkFrag(ports));
    }
  }

  lemma {:induction false} WrapAllFits(ok: Match -> bool, alts: seq<seq<Match>>, r: Rule, target: Verdict)
    requires AltsFit(ok, alts)
    ensures LinesFit(ok, WrapAll(alts, r, target))
  {
    if alts != [] {
      WrapAllFits(ok, alts[..|alts| - 1], r, target);
      assert forall l | l in Wrapped(alts[|alts| - 1], r, target) :: l.conds == alts[|alts| - 1];
    }
  }

  // ----- from the pieces of a rule to its alternatives -----

  /** The address fragments a rule puts on a chain. */
  function PeerFrags(k: Kind, s: Source): seq<seq<Match>> {
    match k
    case In => SourceFrags(s)
    case DockerIn => SourceFrags(s)
    case In6 => if Source6Arg(s).Some? then [Source6Arg(s).value] else []
    case _ => DestFrags(s, k == Out6)
  }

  /** Protocol and time of a rule. */
  predicate PlainFits(ok: Match -> bool, r: Rule) {
    AltsFit(ok, ProtoFrags(r.protocol)) && Fits(ok, ScheduleArg(r.schedule))
  }

  function Share(k: Kind, r: Rule, published: set<int>): Option<PortSpec> {
    ZonePorts(r, published, if k == DockerIn then WantDocker else WantHost)
  }

  function ShareFrags(k: Kind, ps: PortSpec): seq<seq<Match>> {
    if k == DockerIn then OrigPortFrags(ps) else PortFrags(ps)
  }

  /** The port fragments a rule puts on a chain. */
  predicate PortsFit(ok: Match -> bool, k: Kind, r: Rule, published: set<int>) {
    if k.IsOut() then
      match r.ports.kind
      case AllPorts => true
      case RangePorts => ok(DportRange(r.ports.from, r.ports.to))
      case _ => AltsFit(ok, Chunks(r.ports.list))
    else
      var ps := Share(k, r, published);
      ps.Some? && !ps.value.all ==> AltsFit(ok, ShareFrags(k, ps.value))
  }

  lemma InTailsFit(ok: Match -> bool, r: Rule, ps: PortSpec, frags: seq<seq<Match>>)
    requires PlainFits(ok, r) && (!ps.all ==> AltsFit(ok, frags))
    ensures AltsFit(ok, InTails(r, ps, frags))
  {
    var sch := ScheduleArg(r.schedule);
    if !ps.all {
      CrossFits(ok, frags, [sch]);
      CrossFits(ok, ProtoFrags(r.protocol), Cross(frags, [sch]));
    } else if r.protocol != Both {
      assert ProtoFrags(r.protocol)[0] == [ProtoArg(r.protocol)];
      assert Fits(ok, [ProtoArg(r.protocol)]);
      assert forall m | m in [ProtoArg(r.protocol)] + sch :: m in [ProtoArg(r.protocol)] || m in sch;
    }
  }

  lemma OutTailsFit(ok: Match -> bool, k: Kind, r: Rule, published: set<int>)
    requires k.IsOut() && PlainFits(ok, r) && PortsFit(ok, k, r, published)
    ensures AltsFit(ok, OutTails(r))
  {
    match r.ports.kind {
      case AllPorts =>
        if r.protocol != Both {
          assert ProtoFrags(r.protocol)[0] == [ProtoArg(r.protocol)];
        }
      case RangePorts => CrossFits(ok, ProtoFrags(r.protocol), [[DportRange(r.ports.from, r.ports.to)]]);
      case _ => CrossFits(ok, ProtoFrags(r.protocol), Chunks(r.ports.list));
    }
  }

  /** When the pieces of a rule fit, so does every alternative it puts on a chain. */
  lemma RuleFits(ok: Match -> bool, k: Kind, r: Rule, published: set<int>)
    requires PlainFits(ok, r) && PortsFit(ok, k, r, published)
    requires Alts(k, r, published) != [] ==> AltsFit(ok, PeerFrags(k, r.source))
    ensures AltsFit(ok, Alts(k, r, published))
  {
    if Alts(k, r, published) != [] {
      var peers := PeerFrags(k, r.source);
      if k.IsOut() {
        var sch := [ScheduleArg(r.schedule)];
        OutTailsFit(ok, k, r, published);
        CrossFits(ok, peers, sch);
        CrossFits(ok, Cross(peers, sch), OutTails(r));
      } else {
        var ps := Share(k, r, published).value;
        InTailsFit(ok, r, ps, ShareFrags(k, ps));
        CrossFits(ok, peers, InTails(r, ps, ShareFrags(k, ps)));
      }
    }
  }
}
