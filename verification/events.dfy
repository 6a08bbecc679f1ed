/** The threat classifier: a two-pointer sliding window over each source's events,
    with incremental port histograms, proved equal to looking back over every
    earlier event; and the bounded buffer in front of it. */
module Events {
  import opened Seqs

  datatype Threat = PortScan | BruteForce

  /** Times in microseconds, as journald stamps them. */
  datatype Event = Event(time: int, source: string, port: int, threats: seq<Threat>)

  const WINDOW := 60_000_000
  const SCAN_PORTS := 10
  const BRUTE_HITS := 20
  const BRUTE_TARGETS: set<int> := {22, 445, 3389, 8888}

  // ----- the simple definition -----

  /** Event j is in the window of event i: same source, not later in the series,
      at most a minute older. */
  predicate InWindow(es: seq<Event>, i: int, j: int) {
    0 <= j <= i < |es| && es[j].source == es[i].source && es[i].time - es[j].time <= WINDOW
  }

  function PortsSeen(es: seq<Event>, i: int): set<int> {
    set j | 0 <= j < |es| && InWindow(es, i, j) && es[j].port > 0 :: es[j].port
  }

  predicate Hit(es: seq<Event>, i: int, j: int) {
    InWindow(es, i, j) && es[j].port == es[i].port
  }

  /** Hits among the first n events. */
  function HitsBefore(es: seq<Event>, i: int, n: nat): nat {
    if n == 0 then 0 else HitsBefore(es, i, n - 1) + if Hit(es, i, n - 1) then 1 else 0
  }

  predicate IsScan(es: seq<Event>, i: int) {
    |PortsSeen(es, i)| >= SCAN_PORTS
  }

  predicate IsBrute(es: seq<Event>, i: int)
    requires 0 <= i < |es|
  {
    es[i].port > 0 && es[i].port in BRUTE_TARGETS && HitsBefore(es, i, |es|) >= BRUTE_HITS
  }

  function Add(ts: seq<Threat>, t: Threat): seq<Threat> {
    if t in ts then ts else ts + [t]
  }

  function ThreatsOf(es: seq<Event>, i: int): seq<Threat>
    requires 0 <= i < |es|
  {
    var scan := if IsScan(es, i) then Add(es[i].threats, PortScan) else es[i].threats;
    if IsBrute(es, i) then Add(scan, BruteForce) else scan
  }

  /** The series with every event stamped by the simple definition. */
  function Classified(es: seq<Event>): seq<Event> {
    seq(|es|, i requires 0 <= i < |es| => es[i].(threats := ThreatsOf(es, i)))
  }

  predicate Ascending(es: seq<Event>) {
    forall i, j | 0 <= i <= j < |es| :: es[i].time <= es[j].time
  }

  /** Events of one source in the minute up to event i. */
  function Recent(es: seq<Event>, i: int): set<int>
    requires 0 <= i < |es|
  {
    set j | 0 <= j <= i && es[j].source == es[i].source && es[i].time - es[j].time <= 60_000_000 :: j
  }

  lemma {:induction false} HitsCounted(es: seq<Event>, i: int, n: nat, hits: set<int>)
    requires 0 <= i < |es| && n <= |es|
    requires hits == set j | j in Recent(es, i) && j < n && es[j].port == es[i].port :: j
    ensures HitsBefore(es, i, n) == |hits|
  {
    if n > 0 {
      var fewer := set j | j in Recent(es, i) && j < n - 1 && es[j].port == es[i].port :: j;
      HitsCounted(es, i, n - 1, fewer);
      assert hits == fewer + if Hit(es, i, n - 1) then {n - 1} else {};
    } else {
      assert hits == {};
    }
  }

  /** The tags, with their numbers: an event is a port scan when its source touched ten
      different ports in the last minute, itself included, and a brute force when
      it is the twentieth or a later hit of its source within a minute on port 22,
      445, 3389 or 8888. Tags an event came with stay. */
  lemma TagsExact(es: seq<Event>, i: int)
    requires 0 <= i < |es|
    ensures var was, now, recent := es[i].threats, Classified(es)[i].threats, Recent(es, i);
            && (PortScan in now <==>
                  PortScan in was || |set j | j in recent && es[j].port > 0 :: es[j].port| >= 10)
            && (BruteForce in now <==>
                  || BruteForce in was
                  || (es[i].port in {22, 445, 3389, 8888}
                      && |set j | j in recent && es[j].port == es[i].port :: j| >= 20))
            && was <= now
  {
    var recent := Recent(es, i);
    var hits := set j | j in recent && es[j].port == es[i].port :: j;
    assert PortsSeen(es, i) == set j | j in recent && es[j].port > 0 :: es[j].port;
    assert hits == set j | j in recent && j < |es| && es[j].port == es[i].port :: j;
    HitsCounted(es, i, |es|, hits);
  }

  // ----- index lists and histograms -----

  /** The places of one source among the first n events, in order. */
  function IndicesOf(es: seq<Event>, source: string, n: nat): seq<int>
    requires n <= |es|
  {
    if n == 0 then []
    else IndicesOf(es, source, n - 1) + if es[n - 1].source == source then [n - 1] else []
  }

  lemma {:induction false} IndicesFacts(es: seq<Event>, source: string, n: nat)
    requires n <= |es|
    ensures var idxs := IndicesOf(es, source, n);
            && (forall k | 0 <= k < |idxs| :: 0 <= idxs[k] < n && es[idxs[k]].source == source)
            && (forall k, m | 0 <= k < m < |idxs| :: idxs[k] < idxs[m])
            && (forall j | 0 <= j < n && es[j].source == source :: j in idxs)
  {
    if n > 0 {
      IndicesFacts(es, source, n - 1);
    }
  }

  predicate Places(es: seq<Event>, idxs: seq<int>) {
    forall m | 0 <= m < |idxs| :: 0 <= idxs[m] < |es|
  }

  /** The positive ports of the listed events. */
  function Ports(es: seq<Event>, idxs: seq<int>): seq<int>
    requires Places(es, idxs)
  {
    if idxs == [] then []
    else
      (if es[idxs[0]].port > 0 then [es[idxs[0]].port] else []) + Ports(es, idxs[1..])
  }

  lemma {:induction false} PortsSnoc(es: seq<Event>, idxs: seq<int>, k: int)
    requires Places(es, idxs) && 0 <= k < |es|
    ensures Ports(es, idxs + [k]) == Ports(es, idxs) + if es[k].port > 0 then [es[k].port] else []
  {
    if idxs == [] {
      assert idxs + [k] == [k];
      assert [k][1..] == [];
    } else {
      assert (idxs + [k])[1..] == idxs[1..] + [k];
      PortsSnoc(es, idxs[1..], k);
    }
  }

  lemma {:induction false} PortsMember(es: seq<Event>, idxs: seq<int>, p: int)
    requires Places(es, idxs)
    ensures p in Ports(es, idxs) <==> p > 0 && exists m | 0 <= m < |idxs| :: es[idxs[m]].port == p
  {
    if idxs != [] {
      PortsMember(es, idxs[1..], p);
      if m :| 0 <= m < |idxs| && es[idxs[m]].port == p {
        assert m > 0 ==> idxs[1..][m - 1] == idxs[m];
      }
    }
  }

  /** A map of counts that is a multiset: a key for every element, its count. */
  ghost predicate Counts(hist: map<int, int>, ports: multiset<int>) {
    forall p :: (p in hist <==> p in ports) && (p in hist ==> hist[p] == ports[p])
  }

  function Elements(ports: multiset<int>): set<int> {
    set p | p in ports
  }

  lemma KeysOf(hist: map<int, int>, ports: multiset<int>)
    requires Counts(hist, ports)
    ensures hist.Keys == Elements(ports)
  {
    assert forall p :: p in Elements(ports) <==> p in hist.Keys;
  }

  // ----- the sliding window -----

  method Decrement(hist: map<int, int>, p: int, ghost ports: multiset<int>) returns (less: map<int, int>)
    requires Counts(hist, ports) && p in ports
    ensures Counts(less, ports - multiset{p})
  {
    less := hist[p := hist[p] - 1];
    if less[p] == 0 {
      less := less - {p};
    }
  }

  method Increment(hist: map<int, int>, p: int, ghost ports: multiset<int>) returns (more: map<int, int>)
    requires Counts(hist, ports)
    ensures Counts(more, ports + multiset{p})
  {
    more := hist[p := (if p in hist then hist[p] else 0) + 1];
  }

  method AddThreat(events: array<Event>, i: int, t: Threat)
    requires 0 <= i < events.Length
    modifies events
    ensures events[..] == old(events[..])[i := old(events[i]).(threats := Add(old(events[i].threats), t))]
  {
    for k := 0 to |events[i].threats|
      invariant events[..] == old(events[..])
      invariant t !in events[i].threats[..k]
    {
      if events[i].threats[k] == t {
        return;
      }
    }
    assert events[i].threats[..|events[i].threats|] == events[i].threats;
    events[i] := events[i].(threats := events[i].threats + [t]);
  }

  /** The state of the window while the event at place `right` is classified:
      everything before `left` is too old, nothing from `left` on is. */
  ghost predicate Slid(es: seq<Event>, source: string, idxs: seq<int>, left: int, right: int) {
    && idxs == IndicesOf(es, source, |es|)
    && 0 <= left <= right < |idxs|
    && Places(es, idxs)
    && (forall m | 0 <= m < left :: es[idxs[right]].time - es[idxs[m]].time > WINDOW)
    && (forall m | left <= m <= right :: es[idxs[right]].time - es[idxs[m]].time <= WINDOW)
  }

  lemma SliceMember(idxs: seq<int>, left: int, right: int, j: int)
    requires 0 <= left <= right < |idxs|
    ensures j in idxs[left..right + 1] <==> exists m :: left <= m <= right && idxs[m] == j
  {
    if m :| left <= m <= right && idxs[m] == j {
      assert idxs[left..right + 1][m - left] == j;
    }
  }

  lemma WindowIsSlice(es: seq<Event>, source: string, idxs: seq<int>, left: int, right: int, j: int)
    requires Slid(es, source, idxs, left, right)
    ensures InWindow(es, idxs[right], j) <==> j in idxs[left..right + 1]
  {
    IndicesFacts(es, source, |es|);
    SliceMember(idxs, left, right, j);
    if InWindow(es, idxs[right], j) {
      var m :| 0 <= m < |idxs| && idxs[m] == j;
      assert m <= right && left <= m;
    }
    if j in idxs[left..right + 1] {
      var m :| left <= m <= right && idxs[m] == j;
      assert m < right ==> idxs[m] < idxs[right];
    }
  }

  /** Hits counted along an index list. */
  function HitsIn(es: seq<Event>, i: int, idxs: seq<int>): nat {
    if idxs == [] then 0 else HitsIn(es, i, idxs[..|idxs| - 1]) + if Hit(es, i, idxs[|idxs| - 1]) then 1 else 0
  }

  lemma {:induction false} HitsInConcat(es: seq<Event>, i: int, a: seq<int>, b: seq<int>)
    ensures HitsIn(es, i, a + b) == HitsIn(es, i, a) + HitsIn(es, i, b)
  {
    if b == [] {
      assert a + b == a;
    } else {
      assert (a + b)[..|a + b| - 1] == a + b[..|b| - 1];
      HitsInConcat(es, i, a, b[..|b| - 1]);
    }
  }

  lemma {:induction false} HitsOnlyOwn(es: seq<Event>, i: int, n: nat)
    requires 0 <= i < |es| && n <= |es|
    ensures HitsBefore(es, i, n) == HitsIn(es, i, IndicesOf(es, es[i].source, n))
  {
    if n > 0 {
      HitsOnlyOwn(es, i, n - 1);
      var idxs := IndicesOf(es, es[i].source, n - 1);
      if es[n - 1].source == es[i].source {
        assert (idxs + [n - 1])[..|idxs|] == idxs;
      } else {
        assert idxs + [] == idxs;
      }
    }
  }

  lemma {:induction false} NoHits(es: seq<Event>, i: int, idxs: seq<int>)
    requires forall j | j in idxs :: !Hit(es, i, j)
    ensures HitsIn(es, i, idxs) == 0
  {
    if idxs != [] {
      NoHits(es, i, idxs[..|idxs| - 1]);
    }
  }

  lemma {:induction false} HitsAreCounts(es: seq<Event>, i: int, idxs: seq<int>)
    requires Places(es, idxs) && forall m | 0 <= m < |idxs| :: InWindow(es, i, idxs[m])
    requires 0 <= i < |es| && es[i].port > 0
    ensures HitsIn(es, i, idxs) == multiset(Ports(es, idxs))[es[i].port]
  {
    if idxs != [] {
      var n := |idxs| - 1;
      HitsAreCounts(es, i, idxs[..n]);
      SplitLast(idxs);
      PortsSnoc(es, idxs[..n], idxs[n]);
      AddedOne(Ports(es, idxs[..n]), if es[idxs[n]].port > 0 then [es[idxs[n]].port] else [], es[i].port);
    }
  }

  lemma AddedOne(ports: seq<int>, more: seq<int>, p: int)
    requires |more| <= 1
    ensures multiset(ports + more)[p] == multiset(ports)[p] + if more == [p] then 1 else 0
  {
  }

  /** What lies outside the slice was not a hit. */
  lemma OutsideSlice(es: seq<Event>, source: string, idxs: seq<int>, left: int, right: int)
    requires Slid(es, source, idxs, left, right)
    ensures forall j | j in idxs[..left] :: !Hit(es, idxs[right], j)
    ensures forall j | j in idxs[right + 1..] :: !Hit(es, idxs[right], j)
    ensures forall m | left <= m <= right :: InWindow(es, idxs[right], idxs[m])
  {
    IndicesFacts(es, source, |es|);
    forall j | j in idxs[..left] ensures !Hit(es, idxs[right], j) {
      var m :| 0 <= m < left && idxs[m] == j;
    }
    forall j | j in idxs[right + 1..] ensures !Hit(es, idxs[right], j) {
      var m :| right + 1 <= m < |idxs| && idxs[m] == j;
    }
    forall m | left <= m <= right ensures InWindow(es, idxs[right], idxs[m]) {
      assert m < right ==> idxs[m] < idxs[right];
    }
  }

  lemma HitsThreeParts(es: seq<Event>, i: int, idxs: seq<int>, left: int, end: int)
    requires 0 <= left <= end <= |idxs|
    requires forall j | j in idxs[..left] :: !Hit(es, i, j)
    requires forall j | j in idxs[end..] :: !Hit(es, i, j)
    ensures HitsIn(es, i, idxs) == HitsIn(es, i, idxs[left..end])
  {
    var before, slice, after := idxs[..left], idxs[left..end], idxs[end..];
    assert idxs == before + slice + after;
    HitsInConcat(es, i, before + slice, after);
    HitsInConcat(es, i, before, slice);
    NoHits(es, i, before);
    NoHits(es, i, after);
  }

  /** The multiset of positive ports of one stretch of the index list. */
  ghost function Hist(es: seq<Event>, idxs: seq<int>, left: int, end: int): multiset<int>
    requires Places(es, idxs) && 0 <= left <= end <= |idxs|
  {
    multiset(Ports(es, idxs[left..end]))
  }

  lemma HistEmpty(es: seq<Event>, idxs: seq<int>)
    requires Places(es, idxs)
    ensures Hist(es, idxs, 0, 0) == multiset{}
  {
  }

  lemma HistPop(es: seq<Event>, idxs: seq<int>, left: int, end: int)
    requires Places(es, idxs) && 0 <= left < end <= |idxs|
    ensures var p := es[idxs[left]].port;
            && (p > 0 ==> p in Hist(es, idxs, left, end))
            && (p > 0 ==> Hist(es, idxs, left + 1, end) == Hist(es, idxs, left, end) - multiset{p})
            && (p <= 0 ==> Hist(es, idxs, left + 1, end) == Hist(es, idxs, left, end))
  {
    var slice := idxs[left..end];
    assert slice[1..] == idxs[left + 1..end];
    var p := es[idxs[left]].port;
    if p > 0 {
      assert Ports(es, slice) == [p] + Ports(es, slice[1..]);
    }
  }

  lemma HistPush(es: seq<Event>, idxs: seq<int>, left: int, end: int)
    requires Places(es, idxs) && 0 <= left <= end < |idxs|
    ensures var p := es[idxs[end]].port;
            Hist(es, idxs, left, end + 1) == Hist(es, idxs, left, end) + if p > 0 then multiset{p} else multiset{}
  {
    assert idxs[left..end + 1] == idxs[left..end] + [idxs[end]];
    PortsSnoc(es, idxs[left..end], idxs[end]);
  }

  lemma SeenIsHist(es: seq<Event>, source: string, idxs: seq<int>, left: int, right: int)
    requires Slid(es, source, idxs, left, right)
    ensures PortsSeen(es, idxs[right]) == Elements(Hist(es, idxs, left, right + 1))
  {
    var i, slice := idxs[right], idxs[left..right + 1];
    forall p ensures p in PortsSeen(es, i) <==> p in Ports(es, slice) {
      PortsMember(es, slice, p);
      if p in PortsSeen(es, i) {
        var j :| 0 <= j < |es| && InWindow(es, i, j) && es[j].port > 0 && es[j].port == p;
        WindowIsSlice(es, source, idxs, left, right, j);
        var m :| 0 <= m < |slice| && slice[m] == j;
      }
      if m :| 0 <= m < |slice| && es[slice[m]].port == p && p > 0 {
        WindowIsSlice(es, source, idxs, left, right, slice[m]);
      }
    }
  }

  lemma HitsOfSlice(es: seq<Event>, source: string, idxs: seq<int>, left: int, right: int)
    requires Slid(es, source, idxs, left, right)
    ensures HitsBefore(es, idxs[right], |es|) == HitsIn(es, idxs[right], idxs[left..right + 1])
  {
    OutsideSlice(es, source, idxs, left, right);
    IndicesFacts(es, source, |es|);
    HitsOnlyOwn(es, idxs[right], |es|);
    HitsThreeParts(es, idxs[right], idxs, left, right + 1);
  }

  lemma HitsAreHist(es: seq<Event>, source: string, idxs: seq<int>, left: int, right: int)
    requires Slid(es, source, idxs, left, right) && es[idxs[right]].port > 0
    ensures HitsBefore(es, idxs[right], |es|) == Hist(es, idxs, left, right + 1)[es[idxs[right]].port]
  {
    OutsideSlice(es, source, idxs, left, right);
    HitsOfSlice(es, source, idxs, left, right);
    HitsAreCounts(es, idxs[right], idxs[left..right + 1]);
  }

  // ----- the classifier -----

  /** The array still holds the series, threat tags aside. */
  ghost predicate Holds(events: array<Event>, es: seq<Event>)
    reads events
  {
    events.Length == |es| && forall i | 0 <= i < |es| :: events[i].(threats := es[i].threats) == es[i]
  }

  /** The window's histograms, both of them, describe one stretch of the list. */
  ghost predicate Describe(hist: map<int, int>, hits: map<int, int>, es: seq<Event>, idxs: seq<int>,
                           left: int, end: int)
    requires Places(es, idxs) && 0 <= left <= end <= |idxs|
  {
    Counts(hist, Hist(es, idxs, left, end)) && Counts(hits, Hist(es, idxs, left, end))
  }

  /** The leftmost event leaves the histograms. */
  method Evict(events: array<Event>, ghost es: seq<Event>, idxs: seq<int>, left: int, ghost right: int,
               hist0: map<int, int>, hits0: map<int, int>)
    returns (hist: map<int, int>, hits: map<int, int>)
    requires Holds(events, es) && Places(es, idxs) && 0 <= left < right <= |idxs|
    requires Describe(hist0, hits0, es, idxs, left, right)
    ensures Describe(hist, hits, es, idxs, left + 1, right)
  {
    hist, hits := hist0, hits0;
    var p := events[idxs[left]].port;
    assert p == es[idxs[left]].port by {
      assert events[idxs[left]].(threats := es[idxs[left]].threats) == es[idxs[left]];
    }
    HistPop(es, idxs, left, right);
    if p > 0 {
      hist := Decrement(hist, p, Hist(es, idxs, left, right));
      hits := Decrement(hits, p, Hist(es, idxs, left, right));
    }
  }

  /** The event at `right` enters the histograms. */
  method Admit(events: array<Event>, ghost es: seq<Event>, idxs: seq<int>, ghost left: int, right: int,
               hist0: map<int, int>, hits0: map<int, int>)
    returns (hist: map<int, int>, hits: map<int, int>)
    requires Holds(events, es) && Places(es, idxs) && 0 <= left <= right < |idxs|
    requires Describe(hist0, hits0, es, idxs, left, right)
    ensures Describe(hist, hits, es, idxs, left, right + 1)
  {
    hist, hits := hist0, hits0;
    var p := events[idxs[right]].port;
    assert p == es[idxs[right]].port by {
      assert events[idxs[right]].(threats := es[idxs[right]].threats) == es[idxs[right]];
    }
    HistPush(es, idxs, left, right);
    if p > 0 {
      hist := Increment(hist, p, Hist(es, idxs, left, right));
      hits := Increment(hits, p, Hist(es, idxs, left, right));
    }
  }

  /** The stretch [from, to) of the list is too old for the event at `right`. */
  ghost predicate Passed(es: seq<Event>, idxs: seq<int>, from: int, to: int, right: int)
    requires Places(es, idxs) && 0 <= from <= to <= right < |idxs|
  {
    forall m | from <= m < to :: es[idxs[right]].time - es[idxs[m]].time > WINDOW
  }

  lemma PassedMore(es: seq<Event>, idxs: seq<int>, from: int, to: int, right: int)
    requires Places(es, idxs) && 0 <= from <= to < right < |idxs| && Passed(es, idxs, from, to, right)
    requires es[idxs[right]].time - es[idxs[to]].time > WINDOW
    ensures Passed(es, idxs, from, to + 1, right)
  {
  }

  /** Whether the event at `left` has fallen out of the window of the one at `right`. */
  method FellOut(events: array<Event>, ghost es: seq<Event>, idxs: seq<int>, left: int, right: int) returns (out: bool)
    requires Holds(events, es) && Places(es, idxs) && 0 <= left < right < |idxs|
    ensures out == (es[idxs[right]].time - es[idxs[left]].time > WINDOW)
  {
    assert events[idxs[left]].(threats := es[idxs[left]].threats) == es[idxs[left]];
    assert events[idxs[right]].(threats := es[idxs[right]].threats) == es[idxs[right]];
    out := !(events[idxs[right]].time - events[idxs[left]].time <= WINDOW);
  }

  /** Shrinks the window from the left until it fits the event at `right`. */
  method Shrink(events: array<Event>, ghost es: seq<Event>, idxs: seq<int>, left0: int, right: int,
                hist0: map<int, int>, hits0: map<int, int>)
    returns (left: int, hist: map<int, int>, hits: map<int, int>)
    requires Holds(events, es) && Places(es, idxs) && 0 <= left0 <= right < |idxs|
    requires Describe(hist0, hits0, es, idxs, left0, right)
    ensures left0 <= left <= right && Describe(hist, hits, es, idxs, left, right)
    ensures Passed(es, idxs, left0, left, right)
    ensures left < right ==> es[idxs[right]].time - es[idxs[left]].time <= WINDOW
  {
    left, hist, hits := left0, hist0, hits0;
    while left < right
      invariant left0 <= left <= right
      invariant Describe(hist, hits, es, idxs, left, right)
      invariant Passed(es, idxs, left0, left, right)
    {
      var out := FellOut(events, es, idxs, left, right);
      if !out {
        break;
      }
      PassedMore(es, idxs, left0, left, right);
      hist, hits := Evict(events, es, idxs, left, right, hist, hits);
      left := left + 1;
    }
  }

  /** Stamps one event from the histograms of its window. */
  method StampEvent(events: array<Event>, ghost es: seq<Event>, ghost source: string, idxs: seq<int>,
                    ghost left: int, right: int, hist: map<int, int>, hits: map<int, int>)
    requires Holds(events, es) && Slid(es, source, idxs, left, right)
    requires events[idxs[right]] == es[idxs[right]]
    requires Describe(hist, hits, es, idxs, left, right + 1)
    modifies events
    ensures events[..] == old(events[..])[idxs[right] := Classified(es)[idxs[right]]]
  {
    var ri := idxs[right];
    var p := events[ri].port;
    SeenIsHist(es, source, idxs, left, right);
    KeysOf(hist, Hist(es, idxs, left, right + 1));
    assert |hist| == |hist.Keys|;
    if p > 0 {
      HitsAreHist(es, source, idxs, left, right);
    }
    if |hist| >= SCAN_PORTS {
      AddThreat(events, ri, PortScan);
    }
    ghost var scanned := if IsScan(es, ri) then Add(es[ri].threats, PortScan) else es[ri].threats;
    assert events[..] == old(events[..])[ri := es[ri].(threats := scanned)];
    if p > 0 && p in BRUTE_TARGETS && (if p in hits then hits[p] else 0) >= BRUTE_HITS {
      AddThreat(events, ri, BruteForce);
    }
  }

  /** Everything before `left` is too old for the event at `right`. */
  ghost predicate TooOld(es: seq<Event>, idxs: seq<int>, left: int, right: int)
    requires Places(es, idxs) && 0 <= left <= right <= |idxs|
  {
    right < |idxs| ==> forall m | 0 <= m < left :: es[idxs[right]].time - es[idxs[m]].time > WINDOW
  }

  lemma SlidFrom(es: seq<Event>, source: string, idxs: seq<int>, left0: int, left: int, right: int)
    requires Ascending(es) && idxs == IndicesOf(es, source, |es|) && Places(es, idxs)
    requires 0 <= left0 <= left <= right < |idxs| && TooOld(es, idxs, left0, right)
    requires Passed(es, idxs, left0, left, right)
    requires left < right ==> es[idxs[right]].time - es[idxs[left]].time <= WINDOW
    ensures Slid(es, source, idxs, left, right) && TooOld(es, idxs, left, right + 1)
  {
    IndicesFacts(es, source, |es|);
    forall m | left <= m <= right ensures es[idxs[right]].time - es[idxs[m]].time <= WINDOW {
      assert es[idxs[left]].time <= es[idxs[m]].time;
    }
    if right + 1 < |idxs| {
      assert es[idxs[right]].time <= es[idxs[right + 1]].time;
    }
  }

  /** Progress on one source: the first `right` of its events are stamped. */
  ghost predicate Stamped(events: seq<Event>, was: seq<Event>, es: seq<Event>, source: string, idxs: seq<int>,
                          right: int)
    requires Places(es, idxs) && 0 <= right <= |idxs| && |events| == |was| == |es|
  {
    && (forall i | 0 <= i < |es| && es[i].source != source :: events[i] == was[i])
    && (forall m | 0 <= m < right :: events[idxs[m]] == Classified(es)[idxs[m]])
    && (forall m | right <= m < |idxs| :: events[idxs[m]] == es[idxs[m]])
  }

  lemma StampedStep(before: seq<Event>, was: seq<Event>, es: seq<Event>, source: string, idxs: seq<int>, right: int)
    requires idxs == IndicesOf(es, source, |es|) && Places(es, idxs) && 0 <= right < |idxs|
    requires |before| == |was| == |es| && Stamped(before, was, es, source, idxs, right)
    ensures Stamped(before[idxs[right] := Classified(es)[idxs[right]]], was, es, source, idxs, right + 1)
  {
    IndicesFacts(es, source, |es|);
    var i, stamp := idxs[right], Classified(es)[idxs[right]];
    assert es[i].source == source;
    forall m | 0 <= m < |idxs| && m != right ensures idxs[m] != i {
      assert m < right ==> idxs[m] < idxs[right];
      assert right < m ==> idxs[right] < idxs[m];
    }
    StampedAt(before, was, es, source, idxs, right, i, stamp);
  }

  lemma StampedAt(before: seq<Event>, was: seq<Event>, es: seq<Event>, source: string, idxs: seq<int>, right: int,
                  i: int, stamp: Event)
    requires Places(es, idxs) && 0 <= right < |idxs| && i == idxs[right] && es[i].source == source
    requires |before| == |was| == |es| && Stamped(before, was, es, source, idxs, right)
    requires stamp == Classified(es)[i] && forall m | 0 <= m < |idxs| && m != right :: idxs[m] != i
    ensures Stamped(before[i := stamp], was, es, source, idxs, right + 1)
  {
  }

  /** One event: shrink the window to it, count it in, stamp it. */
  method ClassifyAt(events: array<Event>, idxs: seq<int>, ghost es: seq<Event>, ghost source: string,
                    left0: int, right: int, hist0: map<int, int>, hits0: map<int, int>)
    returns (left: int, hist: map<int, int>, hits: map<int, int>)
    requires Holds(events, es) && Ascending(es) && idxs == IndicesOf(es, source, |es|) && Places(es, idxs)
    requires 0 <= left0 <= right < |idxs| && TooOld(es, idxs, left0, right)
    requires Describe(hist0, hits0, es, idxs, left0, right)
    requires events[idxs[right]] == es[idxs[right]]
    modifies events
    ensures 0 <= left <= right + 1 && TooOld(es, idxs, left, right + 1)
    ensures Describe(hist, hits, es, idxs, left, right + 1)
    ensures events[..] == old(events[..])[idxs[right] := Classified(es)[idxs[right]]]
  {
    left, hist, hits := Shrink(events, es, idxs, left0, right, hist0, hits0);
    SlidFrom(es, source, idxs, left0, left, right);
    hist, hits := Admit(events, es, idxs, left, right, hist, hits);
    StampEvent(events, es, source, idxs, left, right, hist, hits);
  }

  /** The loop over one source's events after `right` of them. */
  ghost predicate Going(events: array<Event>, was: seq<Event>, es: seq<Event>, source: string, idxs: seq<int>,
                        left: int, right: int, hist: map<int, int>, hits: map<int, int>)
    reads events
  {
    && Places(es, idxs) && 0 <= left <= right <= |idxs| && |was| == |es|
    && Holds(events, es) && Stamped(events[..], was, es, source, idxs, right)
    && TooOld(es, idxs, left, right) && Describe(hist, hits, es, idxs, left, right)
  }

  lemma GoingFirst(events: array<Event>, es: seq<Event>, source: string, idxs: seq<int>)
    requires Holds(events, es) && idxs == IndicesOf(es, source, |es|)
    requires forall i | 0 <= i < |es| && es[i].source == source :: events[i] == es[i]
    ensures Going(events, events[..], es, source, idxs, 0, 0, map[], map[])
  {
    IndicesFacts(es, source, |es|);
    HistEmpty(es, idxs);
  }

  method GoOn(events: array<Event>, idxs: seq<int>, ghost es: seq<Event>, ghost source: string, ghost was: seq<Event>,
              left0: int, right: int, hist0: map<int, int>, hits0: map<int, int>)
    returns (left: int, hist: map<int, int>, hits: map<int, int>)
    requires Ascending(es) && idxs == IndicesOf(es, source, |es|) && right < |idxs|
    requires Going(events, was, es, source, idxs, left0, right, hist0, hits0)
    modifies events
    ensures Going(events, was, es, source, idxs, left, right + 1, hist, hits)
  {
    ghost var before := events[..];
    assert before[idxs[right]] == es[idxs[right]];
    StampedStep(before, was, es, source, idxs, right);
    left, hist, hits := ClassifyAt(events, idxs, es, source, left0, right, hist0, hits0);
    StampHolds(events, before, es, idxs[right]);
  }

  /** One source's events, stamped in place. */
  method ClassifySource(events: array<Event>, idxs: seq<int>, ghost es: seq<Event>, ghost source: string)
    requires Holds(events, es) && Ascending(es) && idxs == IndicesOf(es, source, |es|)
    requires forall i | 0 <= i < |es| && es[i].source == source :: events[i] == es[i]
    modifies events
    ensures Holds(events, es)
    ensures forall i | 0 <= i < |es| ::
      events[i] == if es[i].source == source then Classified(es)[i] else old(events[i])
  {
    var left := 0;
    var portsInWindow: map<int, int> := map[];
    var portHits: map<int, int> := map[];
    ghost var was := events[..];
    GoingFirst(events, es, source, idxs);
    for right := 0 to |idxs|
      invariant Going(events, was, es, source, idxs, left, right, portsInWindow, portHits)
    {
      left, portsInWindow, portHits := GoOn(events, idxs, es, source, was, left, right, portsInWindow, portHits);
    }
    GoingLast(events, was, es, source, idxs, left, portsInWindow, portHits);
  }

  lemma GoingLast(events: array<Event>, was: seq<Event>, es: seq<Event>, source: string, idxs: seq<int>,
                  left: int, hist: map<int, int>, hits: map<int, int>)
    requires idxs == IndicesOf(es, source, |es|) && Going(events, was, es, source, idxs, left, |idxs|, hist, hits)
    ensures Holds(events, es)
    ensures forall i | 0 <= i < |es| :: events[i] == if es[i].source == source then Classified(es)[i] else was[i]
  {
    StampedEnd(events, was, es, source, idxs);
  }

  lemma StampedEnd(events: array<Event>, was: seq<Event>, es: seq<Event>, source: string, idxs: seq<int>)
    requires idxs == IndicesOf(es, source, |es|) && Places(es, idxs)
    requires events.Length == |was| == |es| && Stamped(events[..], was, es, source, idxs, |idxs|)
    ensures forall i | 0 <= i < |es| :: events[i] == if es[i].source == source then Classified(es)[i] else was[i]
  {
    IndicesFacts(es, source, |es|);
    forall i | 0 <= i < |es|
      ensures events[i] == if es[i].source == source then Classified(es)[i] else was[i]
    {
      assert events[..][i] == events[i];
      if es[i].source == source {
        var m :| 0 <= m < |idxs| && idxs[m] == i;
      }
    }
  }

  lemma StampHolds(events: array<Event>, before: seq<Event>, es: seq<Event>, i: int)
    requires events.Length == |es| == |before| && 0 <= i < |es|
    requires forall k | 0 <= k < |es| :: before[k].(threats := es[k].threats) == es[k]
    requires events[..] == before[i := Classified(es)[i]]
    ensures Holds(events, es)
  {
    forall k | 0 <= k < |es| ensures events[k].(threats := es[k].threats) == es[k] {
      assert events[k] == events[..][k];
    }
  }

  /** Which index lists the grouping map holds after n events. */
  ghost predicate Grouped(bySource: map<string, seq<int>>, es: seq<Event>, n: nat)
    requires n <= |es|
  {
    forall s :: Listed(bySource, s) == IndicesOf(es, s, n)
  }

  function Listed(bySource: map<string, seq<int>>, s: string): seq<int> {
    if s in bySource then bySource[s] else []
  }

  lemma ListedStep(es: seq<Event>, x: string, i: nat, was: seq<int>, now: seq<int>)
    requires i < |es| && was == IndicesOf(es, x, i)
    requires now == if es[i].source == x then was + [i] else was
    ensures now == IndicesOf(es, x, i + 1)
  {
    assert was + [] == was;
  }

  lemma GroupedStep(bySource: map<string, seq<int>>, es: seq<Event>, i: nat, s: string, more: map<string, seq<int>>)
    requires i < |es| && Grouped(bySource, es, i) && s == es[i].source
    requires more == bySource[s := Listed(bySource, s) + [i]]
    ensures Grouped(more, es, i + 1)
  {
    forall x ensures Listed(more, x) == IndicesOf(es, x, i + 1) {
      ListedStep(es, x, i, Listed(bySource, x), Listed(more, x));
    }
  }

  method GroupBySource(events: array<Event>) returns (bySource: map<string, seq<int>>)
    ensures Grouped(bySource, events[..], events.Length)
  {
    bySource := map[];
    ghost var es := events[..];
    for i := 0 to events.Length
      invariant Grouped(bySource, es, i)
    {
      var s := events[i].source;
      ghost var before := bySource;
      bySource := bySource[s := Listed(bySource, s) + [i]];
      GroupedStep(before, es, i, s, bySource);
    }
    assert es == events[..];
  }

  /** Stamps the whole series in place, the sources in whatever order the map
      gives them: every event ends with the threats of the simple definition. */
  method Classify(events: array<Event>)
    requires Ascending(events[..])
    modifies events
    ensures events[..] == Classified(old(events[..]))
  {
    ghost var es := events[..];
    var bySource := GroupBySource(events);
    var todo := bySource.Keys;
    forall i | 0 <= i < |es| ensures es[i].source in todo {
      IndicesFacts(es, es[i].source, |es|);
    }
    while todo != {}
      invariant todo <= bySource.Keys
      invariant Holds(events, es)
      invariant forall i | 0 <= i < |es| :: es[i].source in todo ==> events[i] == es[i]
      invariant forall i | 0 <= i < |es| :: es[i].source !in todo ==> events[i] == Classified(es)[i]
      decreases todo
    {
      var s :| s in todo;
      todo := todo - {s};
      ClassifySource(events, bySource[s], es, s);
    }
  }

  lemma SameTags(a: seq<Event>, b: seq<Event>, i: int)
    requires |a| == |b| && 0 <= i < |a|
    requires forall k | 0 <= k < |a| :: a[k].(threats := []) == b[k].(threats := [])
    ensures PortsSeen(a, i) == PortsSeen(b, i)
  {
    forall k | 0 <= k < |a| ensures a[k].time == b[k].time && a[k].source == b[k].source && a[k].port == b[k].port {
      assert a[k].(threats := []) == b[k].(threats := []);
    }
    forall p ensures p in PortsSeen(a, i) <==> p in PortsSeen(b, i) {
      if p in PortsSeen(a, i) {
        var j :| 0 <= j < |a| && InWindow(a, i, j) && a[j].port > 0 && a[j].port == p;
        assert InWindow(b, i, j);
      }
      if p in PortsSeen(b, i) {
        var j :| 0 <= j < |b| && InWindow(b, i, j) && b[j].port > 0 && b[j].port == p;
        assert InWindow(a, i, j);
      }
    }
  }

  lemma {:induction false} SameHits(a: seq<Event>, b: seq<Event>, i: int, n: nat)
    requires |a| == |b| && 0 <= i < |a| && n <= |a|
    requires forall k | 0 <= k < |a| :: a[k].(threats := []) == b[k].(threats := [])
    ensures HitsBefore(a, i, n) == HitsBefore(b, i, n)
  {
    if n > 0 {
      SameHits(a, b, i, n - 1);
      assert a[n - 1].(threats := []) == b[n - 1].(threats := []);
      assert a[i].(threats := []) == b[i].(threats := []);
    }
  }

  /** Classifying a classified series adds nothing. */
  lemma ClassifyTwice(es: seq<Event>)
    ensures Classified(Classified(es)) == Classified(es)
  {
    var cs := Classified(es);
    forall i | 0 <= i < |es| ensures Classified(cs)[i] == cs[i] {
      SameTags(es, cs, i);
      SameHits(es, cs, i, |es|);
      assert cs[i].port == es[i].port;
      assert IsScan(cs, i) == IsScan(es, i) && IsBrute(cs, i) == IsBrute(es, i);
    }
  }

  // ----- the bounded buffer of Read -----

  const MAX_RAW := 50_000

  /** One parsed event into the buffer: at the cap, the older half goes first. */
  function Push<T>(out: seq<T>, e: T): seq<T> {
    (if |out| >= MAX_RAW then out[MAX_RAW / 2..] else out) + [e]
  }

  function Accumulate<T>(parsed: seq<T>): seq<T> {
    if parsed == [] then [] else Push(Accumulate(parsed[..|parsed| - 1]), parsed[|parsed| - 1])
  }

  /** The last k elements. */
  function Last<T>(s: seq<T>, k: nat): seq<T> {
    if |s| <= k then s else s[|s| - k..]
  }

  function Reversed<T>(s: seq<T>): seq<T> {
    seq(|s|, i requires 0 <= i < |s| => s[|s| - 1 - i])
  }

  /** The buffer is never larger than the cap, is a suffix of what was parsed, and
      holds all of it or at least one more than half the cap. */
  lemma {:induction false} BufferIsSuffix<T>(parsed: seq<T>)
    ensures var out := Accumulate(parsed);
            && |out| <= 50_000 && |out| <= |parsed|
            && out == parsed[|parsed| - |out|..]
            && (|out| < |parsed| ==> |out| >= 25_001)
            && (|parsed| <= 50_000 ==> out == parsed)
  {
    if parsed != [] {
      var n := |parsed| - 1;
      BufferIsSuffix(parsed[..n]);
      PushSuffix(parsed[..n], parsed[n], Accumulate(parsed[..n]));
      SplitLast(parsed);
    }
  }

  /** One push keeps the buffer a suffix. */
  lemma PushSuffix<T>(front: seq<T>, e: T, out: seq<T>)
    requires |out| <= |front| && |out| <= 50_000 && out == front[|front| - |out|..]
    requires |out| < |front| ==> |out| >= 25_001 && |front| > 50_000
    ensures var next, all := Push(out, e), front + [e];
            && |next| <= 50_000 && |next| <= |all| && next == all[|all| - |next|..]
            && (|next| < |all| ==> |next| >= 25_001 && |all| > 50_000)
  {
  }

  lemma BufferAscends(parsed: seq<Event>, buffer: seq<Event>)
    requires Ascending(parsed) && buffer == Accumulate(parsed)
    ensures Ascending(buffer)
  {
    BufferIsSuffix(parsed);
  }

  /** One read: buffer the parsed events, classify, turn newest first, cut. */
  method Read(parsed: seq<Event>, limit: int) returns (out: array<Event>, count: nat)
    requires Ascending(parsed)
    ensures fresh(out) && count <= out.Length
    ensures out[..] == Reversed(Classified(Accumulate(parsed)))
    ensures count == if limit > 0 && out.Length > limit then limit else out.Length
    ensures limit > 0 ==> out[..count] == Answer(Classified(Accumulate(parsed)), limit)
  {
    var buffer: seq<Event> := [];
    for i := 0 to |parsed|
      invariant buffer == Accumulate(parsed[..i])
    {
      assert parsed[..i + 1][..i] == parsed[..i];
      if |buffer| >= MAX_RAW {
        buffer := buffer[MAX_RAW / 2..];
      }
      buffer := buffer + [parsed[i]];
    }
    assert parsed[..|parsed|] == parsed;
    BufferAscends(parsed, buffer);
    out := new Event[|buffer|](i requires 0 <= i < |buffer| => buffer[i]);
    assert out[..] == buffer;
    Classify(out);
    ReverseInPlace(out);
    count := if limit > 0 && out.Length > limit then limit else out.Length;
  }

  method ReverseInPlace<T>(out: array<T>)
    modifies out
    ensures out[..] == Reversed(old(out[..]))
  {
    var i, j := 0, out.Length - 1;
    while i < j
      invariant 0 <= i && j == out.Length - 1 - i && i <= j + 2
      invariant forall k | 0 <= k < i || j < k < out.Length :: out[k] == old(out[out.Length - 1 - k])
      invariant forall k | i <= k <= j :: out[k] == old(out[k])
    {
      out[i], out[j] := out[j], out[i];
      i, j := i + 1, j - 1;
    }
  }

  /** The events a read returns: the newest `limit`, newest first. */
  function Answer<T>(buffer: seq<T>, limit: int): seq<T>
    requires limit > 0
  {
    var r := Reversed(buffer);
    if |r| > limit then r[..limit] else r
  }

  lemma AnswerIsLast<T>(buffer: seq<T>, limit: int)
    requires limit > 0
    ensures Answer(buffer, limit) == Reversed(Last(buffer, limit))
  {
  }

  lemma LastOfSuffix<T>(parsed: seq<T>, out: seq<T>, limit: nat)
    requires |out| <= |parsed| && out == parsed[|parsed| - |out|..]
    requires |out| == |parsed| || limit <= |out|
    ensures Last(out, limit) == Last(parsed, limit)
  {
    if |out| > limit {
      assert out[|out| - limit..] == parsed[|parsed| - limit..];
    }
  }

  /** The bound is invisible, a read answering as from an unbounded buffer for
      every journal, exactly for limits up to one more than half the cap. */
  lemma BoundInvisibleExact(limit: int)
    requires limit > 0
    ensures (forall parsed: seq<int> :: Answer(Accumulate(parsed), limit) == Answer(parsed, limit))
      <==> limit <= 25_001
  {
    if limit <= MAX_RAW / 2 + 1 {
      forall parsed: seq<int> ensures Answer(Accumulate(parsed), limit) == Answer(parsed, limit) {
        BoundInvisible(parsed, limit);
      }
    } else {
      var parsed := seq(MAX_RAW + 1, i => i);
      BufferIsSuffix(parsed[..MAX_RAW]);
      assert |Accumulate(parsed)| == MAX_RAW / 2 + 1;
      assert |Answer(Accumulate(parsed), limit)| == MAX_RAW / 2 + 1;
      assert |Answer(parsed, limit)| > MAX_RAW / 2 + 1;
    }
  }

  // ----- the tags near the cut -----

  lemma {:induction false} NoHitsOutside(es: seq<Event>, i: int, n: nat)
    requires forall j | 0 <= j < n :: !InWindow(es, i, j)
    ensures HitsBefore(es, i, n) == 0
  {
    if n > 0 {
      NoHitsOutside(es, i, n - 1);
    }
  }

  lemma {:induction false} HitsAfterCut(parsed: seq<Event>, out: seq<Event>, d: nat, at: nat, i: nat, n: nat)
    requires d + |out| == |parsed| && out == parsed[d..] && i < |out| && at == d + i && n <= |out|
    requires forall j | 0 <= j < d :: !InWindow(parsed, at, j)
    ensures HitsBefore(out, i, n) == HitsBefore(parsed, at, d + n)
  {
    if n == 0 {
      NoHitsOutside(parsed, at, d);
    } else {
      HitsAfterCut(parsed, out, d, at, i, n - 1);
      assert out[n - 1] == parsed[d + n - 1] && out[i] == parsed[at];
    }
  }

  lemma PortsAfterCut(parsed: seq<Event>, out: seq<Event>, d: nat, at: nat, i: nat)
    requires d + |out| == |parsed| && out == parsed[d..] && i < |out| && at == d + i
    requires forall j | 0 <= j < d :: !InWindow(parsed, at, j)
    ensures PortsSeen(out, i) == PortsSeen(parsed, at)
  {
    forall p ensures p in PortsSeen(out, i) <==> p in PortsSeen(parsed, at) {
      if p in PortsSeen(out, i) {
        var j :| 0 <= j < |out| && InWindow(out, i, j) && out[j].port > 0 && out[j].port == p;
        assert out[j] == parsed[d + j] && InWindow(parsed, at, d + j);
      }
      if p in PortsSeen(parsed, at) {
        var j :| 0 <= j < |parsed| && InWindow(parsed, at, j) && parsed[j].port > 0 && parsed[j].port == p;
        assert d <= j && out[j - d] == parsed[j] && InWindow(out, i, j - d);
      }
    }
  }

  /** An event whose minute does not reach back over the cut has the tags it would
      have had without one. */
  lemma TagsAfterCut(parsed: seq<Event>, out: seq<Event>, d: nat, i: nat)
    requires Ascending(parsed) && d + |out| == |parsed| && out == parsed[d..] && i < |out|
    requires d > 0 ==> out[i].time - parsed[d - 1].time > WINDOW
    ensures Classified(out)[i] == Classified(parsed)[d + i]
  {
    assert out[i] == parsed[d + i];
    PortsAfterCut(parsed, out, d, d + i, i);
    HitsAfterCut(parsed, out, d, d + i, i, |out|);
  }

  function Untagged(e: Event): Event {
    e.(threats := [])
  }

  lemma AnswerAt<T>(buffer: seq<T>, limit: int, i: nat)
    requires limit > 0 && i < |buffer| && i < limit
    ensures i < |Answer(buffer, limit)| && Answer(buffer, limit)[i] == buffer[|buffer| - 1 - i]
  {
  }

  /** What a read within the limit returns, against an unbounded buffer: as many
      events, the same ones, and with the same tags on all that are more than a
      minute younger than the newest event given up. `cut` events were. */
  lemma ReadAgrees(parsed: seq<Event>, out: seq<Event>, cut: nat, limit: int, i: nat)
    requires Ascending(parsed) && 0 < limit <= 25_001
    requires out == Accumulate(parsed) && cut + |out| == |parsed|
    requires i < limit && i < |parsed|
    ensures var bounded, full := Answer(Classified(out), limit), Answer(Classified(parsed), limit);
            && i < |bounded| == |full| && Untagged(bounded[i]) == Untagged(full[i])
            && ((cut == 0 || full[i].time - parsed[cut - 1].time > 60_000_000) ==> bounded[i] == full[i])
  {
    CutFacts(parsed, out, cut);
    AnswersAlign(Classified(parsed), Classified(out), limit, i);
    var at := |out| - 1 - i;
    assert |parsed| - 1 - i == cut + at;
    TagsAgree(parsed, out, cut, at);
  }

  lemma TagsAgree(parsed: seq<Event>, out: seq<Event>, cut: nat, at: nat)
    requires Ascending(parsed) && cut + |out| == |parsed| && out == parsed[cut..] && at < |out|
    ensures Untagged(Classified(out)[at]) == Untagged(Classified(parsed)[cut + at])
    ensures Classified(parsed)[cut + at].time == parsed[cut + at].time
    ensures (cut == 0 || parsed[cut + at].time - parsed[cut - 1].time > WINDOW) ==>
      Classified(out)[at] == Classified(parsed)[cut + at]
  {
    assert out[at] == parsed[cut + at];
    TagsOnly(out, at);
    TagsOnly(parsed, cut + at);
    if cut == 0 || out[at].time - parsed[cut - 1].time > WINDOW {
      TagsAfterCut(parsed, out, cut, at);
    }
  }

  lemma CutFacts(parsed: seq<Event>, out: seq<Event>, cut: nat)
    requires out == Accumulate(parsed) && cut + |out| == |parsed|
    ensures out == parsed[cut..] && (cut > 0 ==> |out| >= MAX_RAW / 2 + 1)
  {
    BufferIsSuffix(parsed);
  }

  lemma TagsOnly(es: seq<Event>, i: nat)
    requires i < |es|
    ensures Untagged(Classified(es)[i]) == Untagged(es[i]) && Classified(es)[i].time == es[i].time
  {
  }

  /** Where the i-th answers from a series and from its last part come from. */
  lemma AnswersAlign<T>(a: seq<T>, b: seq<T>, limit: int, i: nat)
    requires 0 < limit && |b| <= |a| && (|b| == |a| || limit <= |b|) && i < limit && i < |a|
    ensures i < |b| && i < |Answer(b, limit)| == |Answer(a, limit)|
    ensures Answer(b, limit)[i] == b[|b| - 1 - i] && Answer(a, limit)[i] == a[|a| - 1 - i]
  {
    AnswerAt(a, limit, i);
    AnswerAt(b, limit, i);
    AnswerSize(a, limit);
    AnswerSize(b, limit);
  }

  lemma AnswerSize<T>(buffer: seq<T>, limit: int)
    requires limit > 0
    ensures |Answer(buffer, limit)| == if |buffer| > limit then limit else |buffer|
  {
  }

  lemma BoundInvisible<T>(parsed: seq<T>, limit: int)
    requires 0 < limit <= 25_001
    ensures Answer(Accumulate(parsed), limit) == Answer(parsed, limit)
    ensures Answer(parsed, limit) == Reversed(Last(parsed, limit))
  {
    BufferIsSuffix(parsed);
    LastOfSuffix(parsed, Accumulate(parsed), limit);
    AnswerIsLast(Accumulate(parsed), limit);
    AnswerIsLast(parsed, limit);
  }
}
