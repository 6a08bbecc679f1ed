/** One rule to its lines. A rule fans out into alternatives, the match prefixes
    of (source x protocol x port fragment), each wrapped into the rate-limit,
    LOG and action lines. The functions say which lines; the methods build them
    the way the compiler does, in nested loops over growing slices. */
module RuleLines {
  import opened Text
  import opened Seqs
  import opened Rules
  import opened Netfilter

  /** The six chains rules are compiled into. */
  datatype Kind = In | DockerIn | In6 | Out | Out6 | FwdOut {
    predicate IsOut() { Out? || Out6? || FwdOut? }
    predicate IsV6() { In6? || Out6? }
  }

  const MAX_MULTIPORT := 15

  // ----- fragments -----

  datatype PortSpec = PortSpec(all: bool, list: seq<int>, from: int, to: int) {
    predicate IsRange() { from != 0 }
  }

  datatype Want = WantHost | WantDocker

  function SetName(cc: string): string {
    "zfw-cc-" + Lower(Trim(cc))
  }

  function ProtoArg(p: Protocol): Match {
    match p
    case Tcp => ProtoIs(TCP)
    case Udp => ProtoIs(UDP)
    case _ => BadProto
  }

  function ProtoList(p: Protocol): seq<Protocol> {
    if p == Both then [Tcp, Udp] else [p]
  }

  function ScheduleArg(s: Option<Schedule>): seq<Match> {
    if s.None? then [] else [TimeWindow(s.value)]
  }

  function SetFrags(codes: seq<string>, dst: bool): seq<seq<Match>> {
    seq(|codes|, i requires 0 <= i < |codes| =>
      [if dst then DstSet(SetName(codes[i])) else SrcSet(SetName(codes[i]))])
  }

  function SourceFrags(s: Source): seq<seq<Match>> {
    match s.kind
    case IpSource => [[SrcNet(s.value)]]
    case RangeSource => [[SrcNet(s.value)]]
    case CountrySource =>
      var codes := SplitCountries(s.value);
      if codes == [] then [[]] else SetFrags(codes, false)
    case _ => [[]]
  }

  /** The IPv6 source fragment, or None when the source has no IPv6 form. */
  function Source6Arg(s: Source): Option<seq<Match>> {
    match s.kind
    case AnySource => Some([])
    case IpSource => if ':' in s.value then Some([SrcNet(s.value)]) else None
    case RangeSource => if ':' in s.value then Some([SrcNet(s.value)]) else None
    case _ => None
  }

  /** The peer fragments of an outbound rule; the IPv6 form skips IPv4 peers and countries. */
  function DestFrags(s: Source, v6: bool): seq<seq<Match>> {
    match s.kind
    case AnySource => [[]]
    case IpSource => if v6 && ':' !in s.value then [] else [[DstNet(s.value)]]
    case RangeSource => if v6 && ':' !in s.value then [] else [[DstNet(s.value)]]
    case CountrySource => if v6 then [] else SetFrags(SplitCountries(s.value), true)
    case OtherSource => []
  }

  function ChunkFrag(chunk: seq<int>): seq<Match>
    requires chunk != []
  {
    if |chunk| == 1 then [Dport(chunk[0])] else [Multiport(chunk)]
  }

  /** The port list in runs of at most fifteen, one fragment each. */
  function Chunks(ports: seq<int>): seq<seq<Match>> {
    if ports == [] then []
    else if |ports| <= MAX_MULTIPORT then [ChunkFrag(ports)]
    else [ChunkFrag(ports[..MAX_MULTIPORT])] + Chunks(ports[MAX_MULTIPORT..])
  }

  function PortFrags(ps: PortSpec): seq<seq<Match>> {
    if ps.IsRange() then [[DportRange(ps.from, ps.to)]] else Chunks(ps.list)
  }

  function OrigPortFrags(ps: PortSpec): seq<seq<Match>> {
    if ps.IsRange() then [[OrigDportRange(ps.from, ps.to)]]
    else seq(|ps.list|, i requires 0 <= i < |ps.list| => [OrigDport(ps.list[i])])
  }

  function ProtoFrags(p: Protocol): seq<seq<Match>> {
    if p == Both then [[ProtoIs(TCP)], [ProtoIs(UDP)]] else [[ProtoArg(p)]]
  }

  /** The ports of the list that are published (or that are not), in order. */
  function Pick(ports: seq<int>, published: set<int>, want: bool): seq<int> {
    if ports == [] then []
    else
      var last := ports[|ports| - 1];
      Pick(ports[..|ports| - 1], published, want) + if (last in published) == want then [last] else []
  }

  /** The part of a rule's ports that one chain gets; None when it gets none. */
  function ZonePorts(r: Rule, published: set<int>, want: Want): Option<PortSpec> {
    var whole := match r.ports.kind
      case AllPorts => PortSpec(true, [], 0, 0)
      case RangePorts => PortSpec(false, [], r.ports.from, r.ports.to)
      case _ => PortSpec(false, r.ports.list, 0, 0);
    match r.zone
    case HostZone => if want == WantHost then Some(whole) else None
    case DockerZone => if want == WantDocker then Some(whole) else None
    case _ =>
      if r.ports.kind in {AllPorts, RangePorts} then if want == WantHost then Some(whole) else None
      else
        var mine := Pick(r.ports.list, published, want == WantDocker);
        if mine == [] then None else Some(PortSpec(false, mine, 0, 0))
  }

  // ----- alternatives -----

  function Prepend(head: seq<Match>, tails: seq<seq<Match>>): seq<seq<Match>> {
    if tails == [] then []
    else Prepend(head, tails[..|tails| - 1]) + [head + tails[|tails| - 1]]
  }

  /** Every head followed by every tail, heads outermost. */
  function Cross(heads: seq<seq<Match>>, tails: seq<seq<Match>>): seq<seq<Match>> {
    if heads == [] then []
    else Cross(heads[..|heads| - 1], tails) + Prepend(heads[|heads| - 1], tails)
  }

  /** Protocol, port fragment and schedule of an inbound rule. */
  function InTails(r: Rule, ps: PortSpec, frags: seq<seq<Match>>): seq<seq<Match>> {
    var sch := ScheduleArg(r.schedule);
    if ps.all then if r.protocol == Both then [sch] else [[ProtoArg(r.protocol)] + sch]
    else Cross(ProtoFrags(r.protocol), Cross(frags, [sch]))
  }

  /** Protocol and port fragment of an outbound rule. */
  function OutTails(r: Rule): seq<seq<Match>> {
    match r.ports.kind
    case AllPorts => if r.protocol == Both then [[]] else [[ProtoArg(r.protocol)]]
    case RangePorts => Cross(ProtoFrags(r.protocol), [[DportRange(r.ports.from, r.ports.to)]])
    case _ => Cross(ProtoFrags(r.protocol), Chunks(r.ports.list))
  }

  predicate OutTargeted(k: Kind, r: Rule) {
    && r.IsOutbound()
    && r.zone in (if k == FwdOut then {DockerZone, AutoZone} else {HostZone, AutoZone})
    && (k != Out6 ==> !IsIPv6Source(r.source))
  }

  /** The match prefixes a rule contributes to a chain; none when it is not targeted. */
  function Alts(k: Kind, r: Rule, published: set<int>): seq<seq<Match>> {
    match k
    case In =>
      var ps := ZonePorts(r, published, WantHost);
      if r.IsOutbound() || IsIPv6Source(r.source) || ps.None? then []
      else Cross(SourceFrags(r.source), InTails(r, ps.value, PortFrags(ps.value)))
    case DockerIn =>
      var ps := ZonePorts(r, published, WantDocker);
      if r.IsOutbound() || IsIPv6Source(r.source) || ps.None? then []
      else Cross(SourceFrags(r.source), InTails(r, ps.value, OrigPortFrags(ps.value)))
    case In6 =>
      var ps := ZonePorts(r, published, WantHost);
      var src := Source6Arg(r.source);
      if r.IsOutbound() || ps.None? || src.None? then []
      else Cross([src.value], InTails(r, ps.value, PortFrags(ps.value)))
    case _ =>
      if !OutTargeted(k, r) then []
      else Cross(Cross(DestFrags(r.source, k == Out6), [ScheduleArg(r.schedule)]), OutTails(r))
  }

  // ----- lines -----

  predicate RateLimited(r: Rule) {
    r.rateLimit.Some? && r.rateLimit.value.conn > 0 && r.rateLimit.value.seconds > 0
  }

  function BucketName(r: Rule): string {
    "z" + r.id
  }

  /** The lines of one match prefix: rate limit, LOG, action. */
  function Wrapped(conds: seq<Match>, r: Rule, target: Verdict): seq<Line> {
    (if RateLimited(r) then
       [Line(conds, RecentSet(BucketName(r))),
        Line(conds, RecentUpdate(BucketName(r), r.rateLimit.value.seconds, r.rateLimit.value.conn))]
     else [])
    + (if r.log then [Line(conds, Log("ZFW-RULE-" + r.id + " "))] else [])
    + [Line(conds, Jump(target))]
  }

  function WrapAll(alts: seq<seq<Match>>, r: Rule, target: Verdict): seq<Line> {
    if alts == [] then []
    else WrapAll(alts[..|alts| - 1], r, target) + Wrapped(alts[|alts| - 1], r, target)
  }

  /** ACCEPT on the chains that end the packet's walk, RETURN where a later
      chain must still see it; DROP for deny rules on every chain. */
  function Target(k: Kind, a: Action): Verdict {
    if a == Deny then Drop else if k == DockerIn || k == In6 then Return else Accept
  }

  function LinesOf(k: Kind, r: Rule, published: set<int>): seq<Line> {
    WrapAll(Alts(k, r, published), r, Target(k, r.action))
  }

  // ----- distribution laws, used by the loops -----

  lemma {:induction false} WrapAllAppend(a: seq<seq<Match>>, b: seq<seq<Match>>, r: Rule, target: Verdict)
    ensures WrapAll(a + b, r, target) == WrapAll(a, r, target) + WrapAll(b, r, target)
  {
    if b == [] {
      assert a + b == a;
    } else {
      assert (a + b)[..|a + b| - 1] == a + b[..|b| - 1];
      WrapAllAppend(a, b[..|b| - 1], r, target);
    }
  }

  lemma {:induction false} PrependAppend(head: seq<Match>, a: seq<seq<Match>>, b: seq<seq<Match>>)
    ensures Prepend(head, a + b) == Prepend(head, a) + Prepend(head, b)
  {
    if b == [] {
      assert a + b == a;
    } else {
      assert (a + b)[..|a + b| - 1] == a + b[..|b| - 1];
      PrependAppend(head, a, b[..|b| - 1]);
    }
  }

  lemma PrependSnoc(head: seq<Match>, tails: seq<seq<Match>>, tail: seq<Match>)
    ensures Prepend(head, tails + [tail]) == Prepend(head, tails) + [head + tail]
  {
    assert (tails + [tail])[..|tails|] == tails;
  }

  lemma CrossSnoc(heads: seq<seq<Match>>, head: seq<Match>, tails: seq<seq<Match>>)
    ensures Cross(heads + [head], tails) == Cross(heads, tails) + Prepend(head, tails)
  {
    assert (heads + [head])[..|heads|] == heads;
  }

  lemma CrossSingle(head: seq<Match>, tails: seq<seq<Match>>)
    ensures Cross([head], tails) == Prepend(head, tails)
  {
    CrossSnoc([], head, tails);
    assert [] + [head] == [head] && [] + Prepend(head, tails) == Prepend(head, tails);
  }

  lemma WrapAllSnoc(alts: seq<seq<Match>>, alt: seq<Match>, r: Rule, target: Verdict)
    ensures WrapAll(alts + [alt], r, target) == WrapAll(alts, r, target) + Wrapped(alt, r, target)
  {
    assert (alts + [alt])[..|alts|] == alts;
  }

  lemma CrossOne(frags: seq<seq<Match>>, sch: seq<Match>, k: nat)
    requires k < |frags|
    ensures Cross(frags[..k + 1], [sch]) == Cross(frags[..k], [sch]) + [frags[k] + sch]
  {
    assert frags[..k + 1] == frags[..k] + [frags[k]];
    CrossSnoc(frags[..k], frags[k], [sch]);
    PrependSnoc(frags[k], [], sch);
    assert [] + [sch] == [sch] && [] + [frags[k] + sch] == [frags[k] + sch];
  }

  lemma ChunksStep(ports: seq<int>, start: nat, chunk: seq<int>)
    requires start < |ports|
    requires chunk == ports[start..if start + MAX_MULTIPORT > |ports| then |ports| else start + MAX_MULTIPORT]
    ensures chunk != [] && Chunks(Left(ports, start)) == [ChunkFrag(chunk)] + Chunks(Left(ports, start + MAX_MULTIPORT))
  {
    var left := ports[start..];
    if |left| > MAX_MULTIPORT {
      assert chunk == left[..MAX_MULTIPORT] && left[MAX_MULTIPORT..] == Left(ports, start + MAX_MULTIPORT);
    } else {
      assert chunk == left && Left(ports, start + MAX_MULTIPORT) == [];
    }
  }

  /** One more round of an outer loop over the heads. */
  lemma CrossStep(heads: seq<seq<Match>>, tails: seq<seq<Match>>, i: nat, r: Rule, target: Verdict)
    requires i < |heads|
    ensures WrapAll(Cross(heads[..i + 1], tails), r, target)
         == WrapAll(Cross(heads[..i], tails), r, target) + WrapAll(Prepend(heads[i], tails), r, target)
  {
    assert heads[..i + 1] == heads[..i] + [heads[i]];
    CrossSnoc(heads[..i], heads[i], tails);
    WrapAllAppend(Cross(heads[..i], tails), Prepend(heads[i], tails), r, target);
  }

  lemma {:induction false} PrependNest(a: seq<Match>, b: seq<Match>, tails: seq<seq<Match>>)
    ensures Prepend(a, Prepend(b, tails)) == Prepend(a + b, tails)
  {
    if tails != [] {
      var n := |tails| - 1;
      PrependNest(a, b, tails[..n]);
      PrependSnoc(a, Prepend(b, tails[..n]), b + tails[n]);
      assert a + (b + tails[n]) == a + b + tails[n];
    }
  }

  /** One more round of the loop over protocols, under a fixed source. */
  lemma NestedStep(
      src: seq<Match>, heads: seq<seq<Match>>, tails: seq<seq<Match>>, j: nat, r: Rule, target: Verdict)
    requires j < |heads|
    ensures WrapAll(Prepend(src, Cross(heads[..j + 1], tails)), r, target)
         == WrapAll(Prepend(src, Cross(heads[..j], tails)), r, target)
            + WrapAll(Prepend(src + heads[j], tails), r, target)
  {
    assert heads[..j + 1] == heads[..j] + [heads[j]];
    CrossSnoc(heads[..j], heads[j], tails);
    PrependAppend(src, Cross(heads[..j], tails), Prepend(heads[j], tails));
    PrependNest(src, heads[j], tails);
    WrapAllAppend(Prepend(src, Cross(heads[..j], tails)), Prepend(src + heads[j], tails), r, target);
  }

  lemma {:induction false} CrossUnit(frags: seq<seq<Match>>)
    ensures Cross(frags, [[]]) == frags
  {
    if frags != [] {
      var n := |frags| - 1;
      CrossUnit(frags[..n]);
      CrossOne(frags, [], n);
      assert frags[..n + 1] == frags && frags[n] + [] == frags[n];
    }
  }

  // ----- the compiler's own loops -----

  method WrapEmit(conds: seq<Match>, r: Rule, target: Verdict) returns (out: seq<Line>)
    ensures out == Wrapped(conds, r, target)
  {
    out := [];
    if r.rateLimit.Some? && r.rateLimit.value.conn > 0 && r.rateLimit.value.seconds > 0 {
      var name := "z" + r.id;
      out := out + [Line(conds, RecentSet(name)),
                    Line(conds, RecentUpdate(name, r.rateLimit.value.seconds, r.rateLimit.value.conn))];
    }
    if r.log {
      out := out + [Line(conds, Log("ZFW-RULE-" + r.id + " "))];
    }
    out := out + [Line(conds, Jump(target))];
  }

  method SourceArgs(s: Source) returns (out: seq<seq<Match>>)
    ensures out == SourceFrags(s)
  {
    if s.kind in {IpSource, RangeSource} {
      return [[SrcNet(s.value)]];
    }
    if s.kind == CountrySource {
      var codes := SplitCountries(s.value);
      out := [];
      for i := 0 to |codes|
        invariant out == SetFrags(codes[..i], false)
      {
        out := out + [[SrcSet(SetName(codes[i]))]];
      }
      assert codes[..|codes|] == codes;
      if |out| == 0 {
        return [[]];
      }
      return;
    }
    return [[]];
  }

  ghost function Left(ports: seq<int>, start: nat): seq<int> {
    if start <= |ports| then ports[start..] else []
  }

  method MultiportArgs(ports: seq<int>) returns (out: seq<seq<Match>>)
    ensures out == Chunks(ports)
  {
    out := [];
    var start := 0;
    while start < |ports|
      invariant 0 <= start
      invariant out + Chunks(Left(ports, start)) == Chunks(ports)
    {
      var end := start + MAX_MULTIPORT;
      if end > |ports| {
        end := |ports|;
      }
      var chunk := ports[start..end];
      ghost var before := out;
      ChunksStep(ports, start, chunk);
      if |chunk| == 1 {
        out := out + [[Dport(chunk[0])]];
      } else {
        out := out + [[Multiport(chunk)]];
      }
      Assoc3(before, [ChunkFrag(chunk)], Chunks(Left(ports, start + MAX_MULTIPORT)));
      start := start + MAX_MULTIPORT;
    }
  }

  method PortArgs(ps: PortSpec) returns (out: seq<seq<Match>>)
    ensures out == PortFrags(ps)
  {
    if ps.IsRange() {
      return [[DportRange(ps.from, ps.to)]];
    }
    out := MultiportArgs(ps.list);
  }

  /** The original destination port of DNATed traffic takes no multiport list:
      one fragment a port. */
  method OrigPortArgs(ps: PortSpec) returns (out: seq<seq<Match>>)
    ensures out == OrigPortFrags(ps)
  {
    if ps.IsRange() {
      return [[OrigDportRange(ps.from, ps.to)]];
    }
    out := [];
    for i := 0 to |ps.list|
      invariant |out| == i && forall j | 0 <= j < i :: out[j] == [OrigDport(ps.list[j])]
    {
      out := out + [[OrigDport(ps.list[i])]];
    }
  }

  method PortsForZone(r: Rule, published: set<int>, want: Want) returns (ps: PortSpec, ok: bool)
    ensures ok == ZonePorts(r, published, want).Some?
    ensures ok ==> ps == ZonePorts(r, published, want).value
  {
    var none := PortSpec(false, [], 0, 0);
    var allSpec := PortSpec(true, [], 0, 0);
    var listSpec := PortSpec(false, r.ports.list, 0, 0);
    var rangeSpec := PortSpec(false, [], r.ports.from, r.ports.to);
    match r.zone {
      case HostZone | DockerZone =>
        if want != (if r.zone == HostZone then WantHost else WantDocker) {
          return none, false;
        }
        match r.ports.kind {
          case AllPorts => return allSpec, true;
          case RangePorts => return rangeSpec, true;
          case _ => return listSpec, true;
        }
      case _ =>
        if r.ports.kind == AllPorts {
          return (if want == WantHost then allSpec else none), want == WantHost;
        }
        if r.ports.kind == RangePorts {
          return (if want == WantHost then rangeSpec else none), want == WantHost;
        }
        var hp, dp := [], [];
        for i := 0 to |r.ports.list|
          invariant hp == Pick(r.ports.list[..i], published, false)
          invariant dp == Pick(r.ports.list[..i], published, true)
        {
          assert r.ports.list[..i + 1][..i] == r.ports.list[..i];
          if r.ports.list[i] in published {
            dp := dp + [r.ports.list[i]];
          } else {
            hp := hp + [r.ports.list[i]];
          }
        }
        assert r.ports.list[..|r.ports.list|] == r.ports.list;
        var mine := if want == WantHost then hp else dp;
        return PortSpec(false, mine, 0, 0), |mine| != 0;
    }
  }

  /** The innermost loop: one emission per port fragment. */
  method PortLines(head: seq<Match>, frags: seq<seq<Match>>, sch: seq<Match>, r: Rule, target: Verdict)
    returns (lines: seq<Line>)
    ensures lines == WrapAll(Prepend(head, Cross(frags, [sch])), r, target)
  {
    lines := [];
    for k := 0 to |frags|
      invariant lines == WrapAll(Prepend(head, Cross(frags[..k], [sch])), r, target)
    {
      var more := WrapEmit(head + frags[k] + sch, r, target);
      CrossOne(frags, sch, k);
      PrependSnoc(head, Cross(frags[..k], [sch]), frags[k] + sch);
      assert head + frags[k] + sch == head + (frags[k] + sch);
      WrapAllSnoc(Prepend(head, Cross(frags[..k], [sch])), head + frags[k] + sch, r, target);
      lines := lines + more;
    }
    assert frags[..|frags|] == frags;
  }

  /** The two inner loops that hostLines, hostLines6 and dockerLines each spell
      out: every protocol, and for each every port fragment. */
  method ProtoPortLines(src: seq<Match>, frags: seq<seq<Match>>, sch: seq<Match>, r: Rule, target: Verdict)
    returns (lines: seq<Line>)
    ensures lines == WrapAll(Prepend(src, Cross(ProtoFrags(r.protocol), Cross(frags, [sch]))), r, target)
  {
    lines := [];
    var protos := ProtoList(r.protocol);
    ghost var heads, tails := ProtoFrags(r.protocol), Cross(frags, [sch]);
    for j := 0 to |protos|
      invariant lines == WrapAll(Prepend(src, Cross(heads[..j], tails)), r, target)
    {
      var proto := ProtoArg(protos[j]);
      var more := PortLines(src + [proto], frags, sch, r, target);
      NestedStep(src, heads, tails, j, r, target);
      lines := lines + more;
    }
    assert heads[..|protos|] == heads;
  }

  method HostLines(r: Rule, published: set<int>) returns (lines: seq<Line>)
    ensures lines == LinesOf(In, r, published)
  {
    if r.IsOutbound() || IsIPv6Source(r.source) {
      return [];
    }
    var ps, ok := PortsForZone(r, published, WantHost);
    if !ok {
      return [];
    }
    var target := if r.action == Deny then Drop else Accept;
    var srcs := SourceArgs(r.source);
    var frags := PortArgs(ps);
    lines := SourcesLines(srcs, ps, frags, r, target);
  }

  /** The `all` branch the three inbound emitters share: no port clause. */
  method AllPortLines(src: seq<Match>, sch: seq<Match>, r: Rule, target: Verdict) returns (lines: seq<Line>)
    ensures lines ==
      WrapAll(Prepend(src, if r.protocol == Both then [sch] else [[ProtoArg(r.protocol)] + sch]), r, target)
  {
    ghost var tail := if r.protocol == Both then sch else [ProtoArg(r.protocol)] + sch;
    if r.protocol == Both {
      lines := WrapEmit(src + sch, r, target);
    } else {
      lines := WrapEmit(src + [ProtoArg(r.protocol)] + sch, r, target);
      assert src + [ProtoArg(r.protocol)] + sch == src + tail;
    }
    PrependSnoc(src, [], tail);
    WrapAllSnoc([], src + tail, r, target);
    assert [] + [tail] == [tail] && [] + [src + tail] == [src + tail];
  }

  /** Every line of an inbound rule under one source. */
  method InboundPortLines(src: seq<Match>, ps: PortSpec, frags: seq<seq<Match>>, r: Rule, target: Verdict)
    returns (lines: seq<Line>)
    ensures lines == WrapAll(Prepend(src, InTails(r, ps, frags)), r, target)
  {
    var sch := ScheduleArg(r.schedule);
    if ps.all {
      lines := AllPortLines(src, sch, r, target);
    } else {
      lines := ProtoPortLines(src, frags, sch, r, target);
    }
  }

  /** The loop over an inbound rule's sources. */
  method SourcesLines(srcs: seq<seq<Match>>, ps: PortSpec, frags: seq<seq<Match>>, r: Rule, target: Verdict)
    returns (lines: seq<Line>)
    ensures lines == WrapAll(Cross(srcs, InTails(r, ps, frags)), r, target)
  {
    ghost var tails := InTails(r, ps, frags);
    lines := [];
    for i := 0 to |srcs|
      invariant lines == WrapAll(Cross(srcs[..i], tails), r, target)
    {
      var more := InboundPortLines(srcs[i], ps, frags, r, target);
      CrossStep(srcs, tails, i, r, target);
      lines := lines + more;
    }
    assert srcs[..|srcs|] == srcs;
  }

  method DockerLines(r: Rule, published: set<int>) returns (lines: seq<Line>)
    ensures lines == LinesOf(DockerIn, r, published)
  {
    if r.IsOutbound() || IsIPv6Source(r.source) {
      return [];
    }
    var ps, ok := PortsForZone(r, published, WantDocker);
    if !ok {
      return [];
    }
    var target := if r.action == Deny then Drop else Return;
    var srcs := SourceArgs(r.source);
    var frags := OrigPortArgs(ps);
    lines := SourcesLines(srcs, ps, frags, r, target);
  }

  method HostLines6(r: Rule, published: set<int>) returns (lines: seq<Line>)
    ensures lines == LinesOf(In6, r, published)
  {
    if r.IsOutbound() {
      return [];
    }
    var ps, ok := PortsForZone(r, published, WantHost);
    if !ok {
      return [];
    }
    var target := if r.action == Deny then Drop else Return;
    var src := Source6Arg(r.source);
    if src.None? {
      return [];
    }
    var frags := PortArgs(ps);
    lines := InboundPortLines(src.value, ps, frags, r, target);
    CrossSingle(src.value, InTails(r, ps, PortFrags(ps)));
  }

  method EmitOutboundPortLines(r: Rule, baseMatch: seq<Match>, target: Verdict) returns (lines: seq<Line>)
    ensures lines == WrapAll(Prepend(baseMatch, OutTails(r)), r, target)
  {
    match r.ports.kind {
      case AllPorts =>
        lines := AllPortLines(baseMatch, [], r, target);
        assert [ProtoArg(r.protocol)] + [] == [ProtoArg(r.protocol)];
      case RangePorts =>
        lines := ProtoPortLines(baseMatch, [[DportRange(r.ports.from, r.ports.to)]], [], r, target);
        CrossUnit([[DportRange(r.ports.from, r.ports.to)]]);
      case _ =>
        var frags := MultiportArgs(r.ports.list);
        lines := ProtoPortLines(baseMatch, frags, [], r, target);
        CrossUnit(frags);
    }
  }

  lemma OnePeer(dst: seq<Match>, sch: seq<Match>, tails: seq<seq<Match>>)
    ensures Cross(Cross([dst], [sch]), tails) == Prepend(dst + sch, tails)
  {
    CrossOne([dst], sch, 0);
    assert [dst][..1] == [dst] && [dst][..0] == [];
    assert Cross([], [sch]) + [dst + sch] == [dst + sch];
    CrossSingle(dst + sch, tails);
  }

  /** One more round of the loop over an outbound rule's countries. */
  lemma PeerStep(frags: seq<seq<Match>>, sch: seq<Match>, tails: seq<seq<Match>>, i: nat, r: Rule, target: Verdict)
    requires i < |frags|
    ensures WrapAll(Cross(Cross(frags[..i + 1], [sch]), tails), r, target)
         == WrapAll(Cross(Cross(frags[..i], [sch]), tails), r, target)
          + WrapAll(Prepend(frags[i] + sch, tails), r, target)
  {
    CrossOne(frags, sch, i);
    CrossSnoc(Cross(frags[..i], [sch]), frags[i] + sch, tails);
    WrapAllAppend(Cross(Cross(frags[..i], [sch]), tails), Prepend(frags[i] + sch, tails), r, target);
  }

  lemma NoPeer(frags: seq<seq<Match>>, sch: seq<Match>, tails: seq<seq<Match>>, r: Rule, target: Verdict)
    requires frags == []
    ensures WrapAll(Cross(Cross(frags, [sch]), tails), r, target) == []
  {
  }

  /** The lines towards one peer. */
  method PeerLines(r: Rule, ghost frags: seq<seq<Match>>, dst: seq<Match>, sch: seq<Match>, target: Verdict)
    returns (lines: seq<Line>)
    requires frags == [dst]
    ensures lines == WrapAll(Cross(Cross(frags, [sch]), OutTails(r)), r, target)
  {
    OnePeer(dst, sch, OutTails(r));
    lines := EmitOutboundPortLines(r, dst + sch, target);
  }

  /** The loop over an outbound rule's countries. */
  method CountryLines(r: Rule, ghost frags: seq<seq<Match>>, codes: seq<string>, sch: seq<Match>, target: Verdict)
    returns (lines: seq<Line>)
    requires frags == SetFrags(codes, true)
    ensures lines == WrapAll(Cross(Cross(frags, [sch]), OutTails(r)), r, target)
  {
    ghost var tails := OutTails(r);
    NoPeer(frags[..0], sch, tails, r, target);
    lines := [];
    for i := 0 to |codes|
      invariant lines == WrapAll(Cross(Cross(frags[..i], [sch]), tails), r, target)
    {
      var baseMatch := [DstSet(SetName(codes[i]))] + sch;
      assert frags[i] + sch == baseMatch;
      var more := EmitOutboundPortLines(r, baseMatch, target);
      PeerStep(frags, sch, tails, i, r, target);
      lines := lines + more;
    }
    assert frags[..|codes|] == frags;
  }

  method OutboundLines(r: Rule) returns (lines: seq<Line>)
    ensures lines == WrapAll(
      Cross(Cross(DestFrags(r.source, false), [ScheduleArg(r.schedule)]), OutTails(r)), r,
      if r.action == Deny then Drop else Accept)
  {
    var target := if r.action == Deny then Drop else Accept;
    var sch := ScheduleArg(r.schedule);
    ghost var frags := DestFrags(r.source, false);
    match r.source.kind {
      case AnySource =>
        lines := PeerLines(r, frags, [], sch, target);
      case IpSource | RangeSource =>
        lines := PeerLines(r, frags, [DstNet(r.source.value)], sch, target);
      case CountrySource =>
        var codes := SplitCountries(r.source.value);
        lines := CountryLines(r, frags, codes, sch, target);
      case OtherSource =>
        NoPeer(frags, sch, OutTails(r), r, target);
        return [];
    }
  }

  method OutboundLines6(r: Rule) returns (lines: seq<Line>)
    ensures lines == WrapAll(
      Cross(Cross(DestFrags(r.source, true), [ScheduleArg(r.schedule)]), OutTails(r)), r,
      if r.action == Deny then Drop else Accept)
  {
    var target := if r.action == Deny then Drop else Accept;
    var sch := ScheduleArg(r.schedule);
    ghost var frags := DestFrags(r.source, true);
    match r.source.kind {
      case AnySource =>
        lines := PeerLines(r, frags, [], sch, target);
      case IpSource | RangeSource =>
        if ':' !in r.source.value {
          NoPeer(frags, sch, OutTails(r), r, target);
          return [];
        }
        lines := PeerLines(r, frags, [DstNet(r.source.value)], sch, target);
      case _ =>
        NoPeer(frags, sch, OutTails(r), r, target);
        return [];
    }
  }
}
