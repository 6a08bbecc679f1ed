/** The token buckets of the HTTP rate limiter, over the reals, with a monotone
    clock: one bucket's ceiling in every interval, and the keyed limiter on top
    under any interleaving of its three lock steps. */
module Limiter {

  /** One bucket at the moment of its last call. */
  datatype Bucket = Bucket(tokens: real, capacity: real, rate: real, last: real) {
    predicate Sound() {
      0.0 <= tokens <= capacity && 0.0 <= rate
    }
  }

  function Fresh(rate: real, capacity: real, now: real): Bucket {
    Bucket(capacity, capacity, rate, now)
  }

  /** What flows into a bucket over a stretch of time. */
  function Flow(rate: real, seconds: real): real {
    rate * seconds
  }

  lemma FlowGrows(rate: real, a: real, b: real)
    requires 0.0 <= rate && a <= b
    ensures Flow(rate, a) <= Flow(rate, b)
    ensures Flow(rate, b) == Flow(rate, a) + Flow(rate, b - a)
    ensures 0.0 <= a ==> 0.0 <= Flow(rate, a)
  {
    assert rate * b == rate * a + rate * (b - a);
    assert rate * (b - a) >= 0.0;
  }

  function Refilled(b: Bucket, now: real): real {
    var t := b.tokens + Flow(b.rate, now - b.last);
    if t > b.capacity then b.capacity else t
  }

  predicate Grants(b: Bucket, now: real) {
    Refilled(b, now) >= 1.0
  }

  /** The bucket after a call at `now`, granted or not. */
  function Called(b: Bucket, now: real): Bucket {
    b.(tokens := if Grants(b, now) then Refilled(b, now) - 1.0 else Refilled(b, now), last := now)
  }

  lemma CalledSound(b: Bucket, now: real)
    requires b.Sound() && b.last <= now
    ensures Called(b, now).Sound()
  {
    FlowGrows(b.rate, 0.0, now - b.last);
  }

  predicate Ascending(from: real, times: seq<real>)
    decreases |times|
  {
    times == [] || (from <= times[0] && Ascending(times[0], times[1..]))
  }

  /** How many of the calls between low and high are granted. */
  function GrantedIn(b: Bucket, times: seq<real>, low: real, high: real): nat
    decreases |times|
  {
    if times == [] then 0
    else (if Grants(b, times[0]) && low <= times[0] <= high then 1 else 0)
         + GrantedIn(Called(b, times[0]), times[1..], low, high)
  }

  /** Tokens pay for grants: from here to `high`, at most what is in the bucket
      plus what flows in. */
  lemma {:induction false} TokensPay(b: Bucket, times: seq<real>, low: real, high: real)
    requires b.Sound() && Ascending(b.last, times) && b.last <= high
    ensures GrantedIn(b, times, low, high) as real <= b.tokens + Flow(b.rate, high - b.last)
    decreases |times|
  {
    FlowGrows(b.rate, 0.0, high - b.last);
    if times != [] {
      var t := times[0];
      var c := Called(b, t);
      CalledSound(b, t);
      if t <= high {
        TokensPay(c, times[1..], low, high);
        FlowGrows(b.rate, high - t, high - b.last);
      } else {
        NoneAfter(c, times[1..], low, high);
      }
    }
  }

  lemma {:induction false} NoneAfter(b: Bucket, times: seq<real>, low: real, high: real)
    requires Ascending(b.last, times) && high < b.last
    ensures GrantedIn(b, times, low, high) == 0
    decreases |times|
  {
    if times != [] {
      NoneAfter(Called(b, times[0]), times[1..], low, high);
    }
  }

  /** In every interval a bucket grants at most its capacity plus what flows in
      during the interval, however long it has been filling before. */
  lemma {:induction false} BucketCeiling(b: Bucket, times: seq<real>, low: real, high: real)
    requires b.Sound() && Ascending(b.last, times) && low <= high
    ensures GrantedIn(b, times, low, high) as real <= b.capacity + Flow(b.rate, high - low)
    decreases |times|
  {
    FlowGrows(b.rate, 0.0, high - low);
    if times != [] {
      var t := times[0];
      var c := Called(b, t);
      CalledSound(b, t);
      if t < low {
        BucketCeiling(c, times[1..], low, high);
      } else if t > high {
        NoneAfter(c, times[1..], low, high);
      } else {
        TokensPay(c, times[1..], low, high);
        FlowGrows(b.rate, high - t, high - low);
      }
    }
  }

  // ----- nobody is refused without need -----

  /** A call is granted exactly when the tokens held and those accrued since make one,
      and the bucket can hold one. */
  lemma GrantedExact(b: Bucket, now: real)
    requires b.Sound() && b.last <= now
    ensures Grants(b, now) <==> b.capacity >= 1.0 && b.tokens + b.rate * (now - b.last) >= 1.0
  {
    FlowGrows(b.rate, 0.0, now - b.last);
  }

  /** At `now` the bucket has this many tokens to give. */
  predicate Holds(b: Bucket, now: real, tokens: real) {
    tokens <= b.capacity && tokens <= b.tokens + Flow(b.rate, now - b.last)
  }

  lemma OneSpent(b: Bucket, now: real, tokens: real, next: real)
    requires b.Sound() && b.last <= now <= next && 1.0 <= tokens && Holds(b, now, tokens)
    ensures Grants(b, now) && Called(b, now).Sound() && Holds(Called(b, now), next, tokens - 1.0)
  {
    FlowGrows(b.rate, 0.0, now - b.last);
    FlowGrows(b.rate, 0.0, next - now);
  }

  /** As many tokens as calls to come: all are granted. */
  lemma {:induction false} EnoughForAll(b: Bucket, times: seq<real>, low: real, high: real)
    requires b.Sound() && Ascending(b.last, times)
    requires times != [] ==> Holds(b, times[0], |times| as real)
    requires forall t | t in times :: low <= t <= high
    ensures GrantedIn(b, times, low, high) == |times|
    decreases |times|
  {
    if times != [] {
      var t, rest := times[0], times[1..];
      assert t in times && forall x | x in rest :: x in times;
      OneSpent(b, t, |times| as real, if rest == [] then t else rest[0]);
      EnoughForAll(Called(b, t), rest, low, high);
    }
  }

  lemma FullAgain(b: Bucket, now: real)
    requires b.Sound() && b.rate > 0.0 && now - b.last >= b.capacity / b.rate
    ensures b.tokens + b.rate * (now - b.last) >= b.capacity
  {
    FlowGrows(b.rate, b.capacity / b.rate, now - b.last);
    assert b.rate * (b.capacity / b.rate) == b.capacity;
  }

  /** A bucket left alone for capacity / rate seconds is full again, however empty it
      was: the next calls, up to its capacity, are all granted, at once or not. */
  lemma BurstAfterSilence(b: Bucket, times: seq<real>, low: real, high: real)
    requires b.Sound() && b.rate > 0.0 && Ascending(b.last, times) && |times| as real <= b.capacity
    requires times != [] ==> times[0] - b.last >= b.capacity / b.rate
    requires forall t | t in times :: low <= t <= high
    ensures GrantedIn(b, times, low, high) == |times|
  {
    if times != [] {
      FullAgain(b, times[0]);
      assert Holds(b, times[0], b.capacity);
    }
    EnoughForAll(b, times, low, high);
  }

  lemma OneAccrues(b: Bucket, now: real)
    requires b.Sound() && b.rate > 0.0 && b.capacity >= 1.0 && b.last <= now
    requires b.tokens >= 1.0 || now - b.last >= 1.0 / b.rate
    ensures Holds(b, now, 1.0)
  {
    FlowGrows(b.rate, 0.0, now - b.last);
    if b.tokens < 1.0 {
      FlowGrows(b.rate, 1.0 / b.rate, now - b.last);
      assert b.rate * (1.0 / b.rate) == 1.0;
    }
  }

  lemma SpentBucket(b: Bucket, now: real)
    requires b.Sound() && b.last <= now && Holds(b, now, 1.0)
    ensures var c := Called(b, now);
            Grants(b, now) && c.Sound() && c.rate == b.rate && c.capacity == b.capacity && c.last == now
  {
    OneSpent(b, now, 1.0, now);
  }

  /** Calls at least 1 / rate apart, to a bucket that holds a token or has had the time
      to get one, are never refused. `gap` is 1 / rate. */
  lemma {:induction false} SpacedBy(b: Bucket, times: seq<real>, low: real, high: real, gap: real)
    requires b.Sound() && b.rate > 0.0 && b.capacity >= 1.0 && Ascending(b.last, times) && gap == 1.0 / b.rate
    requires times != [] ==> b.tokens >= 1.0 || times[0] - b.last >= gap
    requires forall i | 0 <= i < |times| - 1 :: times[i + 1] - times[i] >= gap
    requires forall t | t in times :: low <= t <= high
    ensures GrantedIn(b, times, low, high) == |times|
    decreases |times|
  {
    if times != [] {
      var t, rest := times[0], times[1..];
      assert t in times && forall x | x in rest :: x in times;
      forall i | 0 <= i < |rest| - 1 ensures rest[i + 1] - rest[i] >= gap {
        assert times[(i + 1) + 1] - times[i + 1] >= gap;
      }
      if rest != [] {
        assert times[0 + 1] - times[0] >= gap;
      }
      OneAccrues(b, t);
      SpentBucket(b, t);
      SpacedBy(Called(b, t), rest, low, high, gap);
    }
  }

  lemma SpacedNeverRefused(b: Bucket, times: seq<real>, low: real, high: real)
    requires b.Sound() && b.rate > 0.0 && b.capacity >= 1.0 && Ascending(b.last, times)
    requires times != [] ==> b.tokens >= 1.0 || times[0] - b.last >= 1.0 / b.rate
    requires forall i | 0 <= i < |times| - 1 :: times[i + 1] - times[i] >= 1.0 / b.rate
    requires forall t | t in times :: low <= t <= high
    ensures GrantedIn(b, times, low, high) == |times|
  {
    SpacedBy(b, times, low, high, 1.0 / b.rate);
  }

  // ----- the keyed limiter, lock step by lock step -----

  const MAX_TRACKED := 4096

  datatype Client = Client(id: nat, seen: real)

  /** Where a request stands between its lock steps. */
  datatype Stage = Found(id: nat) | Passed

  /** Buckets are only ever added; an evicted one may still be held by a request. */
  datatype State = State(
    clients: map<string, Client>,
    buckets: seq<Bucket>,
    aggregate: Bucket,
    pending: map<int, Stage>,
    rate: real,
    capacity: real,
    now: real)

  /** One critical section of one request. Look finds or makes the client's bucket
      (evicting `victim` when the map is full), Own asks that bucket, Agg asks
      the aggregate. */
  datatype Step =
    | Look(req: int, key: string, victim: string, at: real)
    | Own(req: int, at: real)
    | Agg(req: int, at: real)

  predicate Oldest(clients: map<string, Client>, victim: string) {
    victim in clients && forall k | k in clients :: clients[victim].seen <= clients[k].seen
  }

  predicate Full(s: State, key: string) {
    key !in s.clients && |s.clients| >= MAX_TRACKED
  }

  predicate Possible(s: State, e: Step) {
    && s.now <= e.at
    && match e
       case Look(_, key, victim, _) => Full(s, key) ==> Oldest(s.clients, victim)
       case Own(req, _) => req in s.pending && s.pending[req].Found?
       case Agg(req, _) => req in s.pending && s.pending[req].Passed?
  }

  /** What every reachable state satisfies. */
  ghost predicate Sound(s: State) {
    && |s.clients| <= MAX_TRACKED
    && s.aggregate.Sound() && s.aggregate.last <= s.now
    && 0.0 <= s.rate && 0.0 <= s.capacity
    && (forall i | 0 <= i < |s.buckets| :: SoundClient(s, s.buckets[i]))
    && (forall k :: k in s.clients ==> s.clients[k].id < |s.buckets| && s.clients[k].seen <= s.now)
    && (forall k, l :: k in s.clients && l in s.clients && k != l ==> s.clients[k].id != s.clients[l].id)
    && (forall r :: r in s.pending && s.pending[r].Found? ==> s.pending[r].id < |s.buckets|)
  }

  predicate SoundClient(s: State, b: Bucket) {
    b.Sound() && b.last <= s.now && b.capacity == s.capacity && b.rate == s.rate
  }

  function Kept(s: State, key: string, victim: string): map<string, Client> {
    if Full(s, key) then s.clients - {victim} else s.clients
  }

  ghost function Next(s: State, e: Step): State
    requires Sound(s) && Possible(s, e)
  {
    match e
    case Look(req, key, victim, at) =>
      var id := if key in s.clients then s.clients[key].id else |s.buckets|;
      s.(clients := Kept(s, key, victim)[key := Client(id, at)],
         buckets := if key in s.clients then s.buckets else s.buckets + [Fresh(s.rate, s.capacity, at)],
         pending := s.pending[req := Found(id)],
         now := at)
    case Own(req, at) =>
      var id := s.pending[req].id;
      s.(buckets := s.buckets[id := Called(s.buckets[id], at)],
         pending := if Grants(s.buckets[id], at) then s.pending[req := Passed] else s.pending - {req},
         now := at)
    case Agg(req, at) =>
      s.(aggregate := Called(s.aggregate, at), pending := s.pending - {req}, now := at)
  }

  lemma LookSize(s: State, key: string, victim: string, c: Client)
    requires Sound(s) && (Full(s, key) ==> Oldest(s.clients, victim))
    ensures |Kept(s, key, victim)[key := c]| <= MAX_TRACKED
  {
    var kept := Kept(s, key, victim);
    assert kept[key := c].Keys == kept.Keys + {key};
    assert |kept[key := c]| == |kept[key := c].Keys| && |kept| == |kept.Keys| && |s.clients| == |s.clients.Keys|;
    if Full(s, key) {
      assert kept.Keys == s.clients.Keys - {victim};
    } else if key in s.clients {
      assert kept.Keys + {key} == kept.Keys;
    }
  }

  lemma LookSound(s: State, req: int, key: string, victim: string, at: real)
    requires Sound(s) && Possible(s, Look(req, key, victim, at))
    ensures Sound(Next(s, Look(req, key, victim, at)))
  {
    var n := Next(s, Look(req, key, victim, at));
    LookSize(s, key, victim, Client(if key in s.clients then s.clients[key].id else |s.buckets|, at));
    forall i | 0 <= i < |n.buckets| ensures SoundClient(n, n.buckets[i]) {
      if i < |s.buckets| {
        assert n.buckets[i] == s.buckets[i] && SoundClient(s, s.buckets[i]);
      }
    }
    LookApart(s, req, key, victim, at);
  }

  /** A new client's bucket is nobody else's. */
  lemma LookApart(s: State, req: int, key: string, victim: string, at: real)
    requires Sound(s) && Possible(s, Look(req, key, victim, at))
    ensures var c := Next(s, Look(req, key, victim, at)).clients;
            forall k, l :: k in c && l in c && k != l ==> c[k].id != c[l].id
  {
    var c := Next(s, Look(req, key, victim, at)).clients;
    forall k, l | k in c && l in c && k != l ensures c[k].id != c[l].id {
      if key !in s.clients {
        assert k != key ==> k in s.clients && c[k] == s.clients[k];
        assert l != key ==> l in s.clients && c[l] == s.clients[l];
      }
    }
  }

  lemma OwnSound(s: State, req: int, at: real)
    requires Sound(s) && Possible(s, Own(req, at))
    ensures Sound(Next(s, Own(req, at)))
  {
    var n, id := Next(s, Own(req, at)), s.pending[req].id;
    assert SoundClient(s, s.buckets[id]);
    CalledSound(s.buckets[id], at);
    forall i | 0 <= i < |n.buckets| ensures SoundClient(n, n.buckets[i]) {
      if i != id {
        assert n.buckets[i] == s.buckets[i] && SoundClient(s, s.buckets[i]);
      }
    }
  }

  /** The map never exceeds its cap, tokens stay between zero and capacity, in
      every bucket and in the aggregate, whatever step comes next. */
  lemma NextSound(s: State, e: Step)
    requires Sound(s) && Possible(s, e)
    ensures Sound(Next(s, e))
  {
    match e
    case Look(req, key, victim, at) => LookSound(s, req, key, victim, at);
    case Own(req, at) => OwnSound(s, req, at);
    case Agg(req, at) => CalledSound(s.aggregate, at);
  }

  ghost predicate Follows(s: State, run: seq<Step>)
    requires Sound(s)
    decreases |run|
  {
    run == [] || (Possible(s, run[0]) && (NextSound(s, run[0]); Follows(Next(s, run[0]), run[1..])))
  }

  ghost function End(s: State, run: seq<Step>): (r: State)
    requires Sound(s) && Follows(s, run)
    ensures Sound(r)
    decreases |run|
  {
    if run == [] then s else NextSound(s, run[0]); End(Next(s, run[0]), run[1..])
  }

  // ----- the aggregate ceiling -----

  /** Requests let through between low and high: those the aggregate granted. */
  ghost function LetThrough(s: State, run: seq<Step>, low: real, high: real): nat
    requires Sound(s) && Follows(s, run)
    decreases |run|
  {
    if run == [] then 0
    else
      NextSound(s, run[0]);
      (if run[0].Agg? && Grants(s.aggregate, run[0].at) && low <= run[0].at <= high then 1 else 0)
      + LetThrough(Next(s, run[0]), run[1..], low, high)
  }

  function AggTimes(run: seq<Step>): seq<real> {
    if run == [] then [] else (if run[0].Agg? then [run[0].at] else []) + AggTimes(run[1..])
  }

  lemma {:induction false} AggregateCalls(s: State, run: seq<Step>, from: real, low: real, high: real)
    requires Sound(s) && Follows(s, run) && s.aggregate.last <= from <= s.now
    ensures Ascending(from, AggTimes(run))
    ensures LetThrough(s, run, low, high) == GrantedIn(s.aggregate, AggTimes(run), low, high)
    decreases |run|
  {
    if run != [] {
      var next := Next(s, run[0]);
      NextSound(s, run[0]);
      if run[0].Agg? {
        AggregateCalls(next, run[1..], run[0].at, low, high);
        assert AggTimes(run)[1..] == AggTimes(run[1..]);
      } else {
        AggregateCalls(next, run[1..], from, low, high);
        assert AggTimes(run) == AggTimes(run[1..]);
      }
    }
  }

  /** Whatever keys requests claim, whoever is evicted and however the lock steps
      of concurrent requests interleave, no interval lets more than the
      aggregate's capacity plus its inflow through. */
  lemma AggregateCeiling(s: State, run: seq<Step>, low: real, high: real)
    requires Sound(s) && Follows(s, run) && low <= high
    ensures LetThrough(s, run, low, high) as real
         <= s.aggregate.capacity + Flow(s.aggregate.rate, high - low)
  {
    AggregateCalls(s, run, s.aggregate.last, low, high);
    BucketCeiling(s.aggregate, AggTimes(run), low, high);
  }

  /** The requests their own bucket has granted and the aggregate not yet judged. */
  function Waiting(s: State): set<int> {
    set r | r in s.pending && s.pending[r].Passed?
  }

  function AggCalls(run: seq<Step>): nat {
    if run == [] then 0 else (if run[0].Agg? then 1 else 0) + AggCalls(run[1..])
  }

  ghost function OwnGrants(s: State, run: seq<Step>): nat
    requires Sound(s) && Follows(s, run)
    decreases |run|
  {
    if run == [] then 0
    else
      NextSound(s, run[0]);
      (if run[0].Own? && Grants(s.buckets[s.pending[run[0].req].id], run[0].at) then 1 else 0)
      + OwnGrants(Next(s, run[0]), run[1..])
  }

  lemma LookWaits(s: State, req: int, key: string, victim: string, at: real)
    requires Sound(s) && Possible(s, Look(req, key, victim, at))
    ensures Waiting(Next(s, Look(req, key, victim, at))) == Waiting(s) - {req}
  {
  }

  lemma OwnWaits(s: State, req: int, at: real)
    requires Sound(s) && Possible(s, Own(req, at))
    ensures Waiting(Next(s, Own(req, at))) ==
      if Grants(s.buckets[s.pending[req].id], at) then Waiting(s) + {req} else Waiting(s)
  {
  }

  lemma AggWaits(s: State, req: int, at: real)
    requires Sound(s) && Possible(s, Agg(req, at))
    ensures req in Waiting(s) && Waiting(Next(s, Agg(req, at))) == Waiting(s) - {req}
  {
  }

  lemma WaitingStep(s: State, e: Step)
    requires Sound(s) && Possible(s, e)
    ensures var granted := e.Own? && Grants(s.buckets[s.pending[e.req].id], e.at);
            |Waiting(Next(s, e))| + (if e.Agg? then 1 else 0) <= |Waiting(s)| + if granted then 1 else 0
  {
    match e
    case Look(req, key, victim, at) => LookWaits(s, req, key, victim, at);
    case Own(req, at) => OwnWaits(s, req, at);
    case Agg(req, at) => AggWaits(s, req, at);
  }

  /** A request refused by its own bucket leaves the aggregate's tokens alone:
      over any run the aggregate is asked no more often than own buckets granted,
      but for requests already past their bucket when the run begins. */
  lemma {:induction false} RefusedSpendsNothing(s: State, run: seq<Step>)
    requires Sound(s) && Follows(s, run)
    ensures AggCalls(run) + |Waiting(End(s, run))| <= OwnGrants(s, run) + |Waiting(s)|
    decreases |run|
  {
    if run != [] {
      NextSound(s, run[0]);
      WaitingStep(s, run[0]);
      RefusedSpendsNothing(Next(s, run[0]), run[1..]);
    }
  }

  // ----- fairness of eviction -----

  /** The tracked keys other than `key` seen at or after its last request. */
  function NotOlder(s: State, key: string): set<string>
    requires key in s.clients
  {
    set k | k in s.clients && k != key && s.clients[k].seen >= s.clients[key].seen
  }

  /** A key is evicted only when at least the map's whole cap of other keys, the
      newcomer counted, were seen at or after its last request. */
  lemma EvictionNeedsManyOthers(s: State, req: int, key: string, victim: string, at: real)
    requires Sound(s) && Possible(s, Look(req, key, victim, at))
    requires victim in s.clients && victim !in Next(s, Look(req, key, victim, at)).clients
    ensures |NotOlder(s, victim) + {key}| >= 4096
  {
    assert NotOlder(s, victim) + {key} == s.clients.Keys - {victim} + {key};
    assert |s.clients| == |s.clients.Keys|;
  }

  function LookedUp(run: seq<Step>): set<string> {
    set e | e in run && e.Look? :: e.key
  }

  lemma SubsetSize(a: set<string>, b: set<string>)
    requires a <= b
    ensures |a| <= |b|
  {
    assert b == a + (b - a);
  }

  /** The key is tracked with one and the same bucket all along the run. */
  ghost predicate KeepsBucket(s: State, run: seq<Step>, key: string, id: nat)
    requires Sound(s) && Follows(s, run)
    decreases |run|
  {
    && key in s.clients && s.clients[key].id == id
    && (run != [] ==> (NextSound(s, run[0]); KeepsBucket(Next(s, run[0]), run[1..], key, id)))
  }

  lemma StaysTracked(s: State, e: Step, others: set<string>, key: string)
    requires Sound(s) && Possible(s, e) && key in s.clients
    requires NotOlder(s, key) <= others && LookedUp([e]) - {key} <= others && |others| < 4096
    ensures var n := Next(s, e);
            && key in n.clients && n.clients[key].id == s.clients[key].id
            && NotOlder(n, key) <= others
  {
    var n := Next(s, e);
    if e.Look? {
      assert e in [e];
      assert e.key in LookedUp([e]);
      if Full(s, e.key) && e.victim == key {
        EvictionNeedsManyOthers(s, e.req, e.key, key, e.at);
        SubsetSize(NotOlder(s, key) + {e.key}, others);
      }
    }
  }

  /** While fewer than the cap of other keys are seen at or after a key's last
      request, the key keeps its bucket, */
  lemma {:induction false} FewOthersKeepBucket(s: State, run: seq<Step>, others: set<string>, key: string)
    requires Sound(s) && Follows(s, run) && key in s.clients
    requires NotOlder(s, key) <= others && LookedUp(run) - {key} <= others && |others| < 4096
    ensures KeepsBucket(s, run, key, s.clients[key].id)
    decreases |run|
  {
    if run != [] {
      NextSound(s, run[0]);
      assert forall e | e in [run[0]] :: e in run;
      assert LookedUp([run[0]]) <= LookedUp(run);
      assert forall e | e in run[1..] :: e in run;
      assert LookedUp(run[1..]) <= LookedUp(run);
      StaysTracked(s, run[0], others, key);
      FewOthersKeepBucket(Next(s, run[0]), run[1..], others, key);
    }
  }

  /** Requests one bucket granted between low and high. */
  ghost function OwnGranted(s: State, run: seq<Step>, id: nat, low: real, high: real): nat
    requires Sound(s) && Follows(s, run)
    decreases |run|
  {
    if run == [] then 0
    else
      NextSound(s, run[0]);
      (if && run[0].Own? && s.pending[run[0].req].id == id
          && Grants(s.buckets[id], run[0].at) && low <= run[0].at <= high then 1 else 0)
      + OwnGranted(Next(s, run[0]), run[1..], id, low, high)
  }

  ghost function OwnTimes(s: State, run: seq<Step>, id: nat): seq<real>
    requires Sound(s) && Follows(s, run)
    decreases |run|
  {
    if run == [] then []
    else
      NextSound(s, run[0]);
      (if run[0].Own? && s.pending[run[0].req].id == id then [run[0].at] else [])
      + OwnTimes(Next(s, run[0]), run[1..], id)
  }

  lemma {:induction false} OwnCalls(s: State, run: seq<Step>, id: nat, from: real, low: real, high: real)
    requires Sound(s) && Follows(s, run) && id < |s.buckets| && s.buckets[id].last <= from <= s.now
    ensures Ascending(from, OwnTimes(s, run, id))
    ensures OwnGranted(s, run, id, low, high) == GrantedIn(s.buckets[id], OwnTimes(s, run, id), low, high)
    decreases |run|
  {
    if run != [] {
      var next := Next(s, run[0]);
      NextSound(s, run[0]);
      var mine := run[0].Own? && s.pending[run[0].req].id == id;
      if mine {
        OwnCalls(next, run[1..], id, run[0].at, low, high);
        assert OwnTimes(s, run, id)[1..] == OwnTimes(next, run[1..], id);
      } else {
        assert next.buckets[id] == s.buckets[id];
        OwnCalls(next, run[1..], id, from, low, high);
        assert OwnTimes(s, run, id) == OwnTimes(next, run[1..], id);
      }
    }
  }

  /** The requests whose last look-up was under the key. */
  function MineAfter(e: Step, key: string, mine: set<int>): set<int> {
    if e.Look? then if e.key == key then mine + {e.req} else mine - {e.req} else mine
  }

  /** Whichever of these requests have yet to ask their bucket will ask this one. */
  ghost predicate AsksThis(s: State, mine: set<int>, id: nat) {
    forall r :: r in mine && r in s.pending && s.pending[r].Found? ==> s.pending[r].id == id
  }

  /** Requests of one key granted by their own bucket between low and high: those in
      `mine` to begin with, and those looked up under the key during the run. */
  ghost function KeyGranted(s: State, run: seq<Step>, key: string, mine: set<int>, low: real, high: real): nat
    requires Sound(s) && Follows(s, run)
    decreases |run|
  {
    if run == [] then 0
    else
      NextSound(s, run[0]);
      (if && run[0].Own? && run[0].req in mine
          && Grants(s.buckets[s.pending[run[0].req].id], run[0].at) && low <= run[0].at <= high then 1 else 0)
      + KeyGranted(Next(s, run[0]), run[1..], key, MineAfter(run[0], key, mine), low, high)
  }

  lemma StillAsksThis(s: State, e: Step, key: string, mine: set<int>, id: nat)
    requires Sound(s) && Possible(s, e) && key in s.clients && s.clients[key].id == id && AsksThis(s, mine, id)
    ensures AsksThis(Next(s, e), MineAfter(e, key, mine), id)
  {
  }

  /** While the key keeps its bucket, every request of the key asks that bucket. */
  lemma {:induction false} KeyAsksItsBucket(
      s: State, run: seq<Step>, key: string, mine: set<int>, id: nat, low: real, high: real)
    requires Sound(s) && Follows(s, run) && KeepsBucket(s, run, key, id) && AsksThis(s, mine, id)
    ensures KeyGranted(s, run, key, mine, low, high) <= OwnGranted(s, run, id, low, high)
    decreases |run|
  {
    if run != [] {
      NextSound(s, run[0]);
      StillAsksThis(s, run[0], key, mine, id);
      KeyAsksItsBucket(Next(s, run[0]), run[1..], key, MineAfter(run[0], key, mine), id, low, high);
    }
  }

  /** ... and so all requests of the key together, however many connections they
      come over, are granted at most that bucket's capacity plus inflow in any
      interval. */
  lemma FairShare(s: State, run: seq<Step>, others: set<string>, key: string, mine: set<int>, low: real, high: real)
    requires Sound(s) && Follows(s, run) && key in s.clients && low <= high
    requires NotOlder(s, key) <= others && LookedUp(run) - {key} <= others && |others| < 4096
    requires AsksThis(s, mine, s.clients[key].id)
    ensures KeepsBucket(s, run, key, s.clients[key].id)
    ensures KeyGranted(s, run, key, mine, low, high) as real <= s.capacity + Flow(s.rate, high - low)
  {
    var id := s.clients[key].id;
    FewOthersKeepBucket(s, run, others, key);
    OwnCalls(s, run, id, s.buckets[id].last, low, high);
    BucketCeiling(s.buckets[id], OwnTimes(s, run, id), low, high);
    KeyAsksItsBucket(s, run, key, mine, id, low, high);
  }

  /** A client whose requests reach its bucket at least 1 / rate apart is never refused
      by it, whoever else asks what in between. */
  lemma SpacedClientGranted(s: State, run: seq<Step>, id: nat, low: real, high: real)
    requires Sound(s) && Follows(s, run) && id < |s.buckets| && s.rate > 0.0 && s.capacity >= 1.0
    requires var times := OwnTimes(s, run, id);
             && (times != [] ==> s.buckets[id].tokens >= 1.0 || times[0] - s.buckets[id].last >= 1.0 / s.rate)
             && (forall i | 0 <= i < |times| - 1 :: times[i + 1] - times[i] >= 1.0 / s.rate)
             && (forall t | t in times :: low <= t <= high)
    ensures OwnGranted(s, run, id, low, high) == |OwnTimes(s, run, id)|
  {
    assert SoundClient(s, s.buckets[id]);
    OwnCalls(s, run, id, s.buckets[id].last, low, high);
    SpacedNeverRefused(s.buckets[id], OwnTimes(s, run, id), low, high);
  }

  /** Nor does the aggregate refuse anybody while all that clients' own buckets let on
      comes at least 1 / rate of it apart. */
  lemma SpacedCrowdLetThrough(s: State, run: seq<Step>, low: real, high: real)
    requires Sound(s) && Follows(s, run) && s.aggregate.rate > 0.0 && s.aggregate.capacity >= 1.0
    requires var times := AggTimes(run);
             && (times != [] ==> s.aggregate.tokens >= 1.0
                                 || times[0] - s.aggregate.last >= 1.0 / s.aggregate.rate)
             && (forall i | 0 <= i < |times| - 1 :: times[i + 1] - times[i] >= 1.0 / s.aggregate.rate)
             && (forall t | t in times :: low <= t <= high)
    ensures LetThrough(s, run, low, high) == |AggTimes(run)|
  {
    AggregateCalls(s, run, s.aggregate.last, low, high);
    SpacedNeverRefused(s.aggregate, AggTimes(run), low, high);
  }

  // ----- one undisturbed request -----

  /** A bucket that has been left alone long enough to fill up. */
  predicate Rested(b: Bucket, now: real) {
    && 0.0 <= b.tokens <= b.capacity && b.capacity >= 1.0 && b.rate > 0.0
    && now - b.last >= b.capacity / b.rate
  }

  lemma RestedGrants(b: Bucket, now: real)
    requires Rested(b, now)
    ensures Grants(b, now)
  {
    assert b.capacity / b.rate >= 0.0;
    FullAgain(b, now);
    GrantedExact(b, now);
  }

  lemma NewcomerGranted(rate: real, capacity: real, t1: real, t2: real)
    requires rate >= 0.0 && capacity >= 1.0 && t1 <= t2
    ensures Grants(Fresh(rate, capacity, t1), t2)
  {
    FlowGrows(rate, 0.0, t2 - t1);
    GrantedExact(Fresh(rate, capacity, t1), t2);
  }

  /** What the map says of a client. */
  datatype Seat = Seat(bucket: Bucket, seen: real)

  type Seats = map<string, Seat>

  /** A whole request with nobody in between: the seat is found or made, exactly the
      victim leaves for it, the own bucket is asked, then perhaps the aggregate. */
  function SeatsAfter(v: Seats, key: string, victim: string, rate: real, capacity: real, t1: real, t2: real): Seats {
    var own := if key in v then v[key].bucket else Fresh(rate, capacity, t1);
    var kept := if key !in v && |v| >= MAX_TRACKED then v - {victim} else v;
    kept[key := Seat(Called(own, t2), t1)]
  }

  function OwnBucket(v: Seats, key: string, rate: real, capacity: real, t1: real): Bucket {
    if key in v then v[key].bucket else Fresh(rate, capacity, t1)
  }

  /** The caller is new, or its bucket has had time to fill up, and so has the
      aggregate. */
  predicate Clear(v: Seats, aggregate: Bucket, key: string, rate: real, capacity: real, t1: real, t2: real, t3: real) {
    && (if key in v then Rested(v[key].bucket, t2) else rate >= 0.0 && capacity >= 1.0 && t1 <= t2)
    && Rested(aggregate, t3)
  }

  lemma ClearGrants(
      v: Seats, aggregate: Bucket, key: string, rate: real, capacity: real, t1: real, t2: real, t3: real)
    requires Clear(v, aggregate, key, rate, capacity, t1, t2, t3)
    ensures Grants(OwnBucket(v, key, rate, capacity, t1), t2) && Grants(aggregate, t3)
  {
    RestedGrants(aggregate, t3);
    if key in v {
      RestedGrants(v[key].bucket, t2);
    } else {
      NewcomerGranted(rate, capacity, t1, t2);
    }
  }

  /** After the first lock step. */
  function SeatTaken(v: Seats, key: string, victim: string, rate: real, capacity: real, now: real): Seats {
    (if key !in v && |v| >= MAX_TRACKED then v - {victim} else v)
      [key := Seat(OwnBucket(v, key, rate, capacity, now), now)]
  }

  lemma TakenKnown(v: Seats, key: string, victim: string, rate: real, capacity: real, now: real)
    requires key in v
    ensures SeatTaken(v, key, victim, rate, capacity, now) == v[key := Seat(v[key].bucket, now)]
  {
  }

  lemma TakenNew(v: Seats, key: string, victim: string, rate: real, capacity: real, now: real)
    requires key !in v
    ensures SeatTaken(v, key, victim, rate, capacity, now)
         == (if |v| >= MAX_TRACKED then v - {victim} else v)[key := Seat(Fresh(rate, capacity, now), now)]
  {
  }

  predicate OldestSeat(v: Seats, victim: string) {
    victim in v && forall k | k in v :: v[victim].seen <= v[k].seen
  }

  ghost function SeatsOf(s: State): Seats
    requires Sound(s)
  {
    map k | k in s.clients :: Seat(s.buckets[s.clients[k].id], s.clients[k].seen)
  }

  lemma SeatsCount(s: State)
    requires Sound(s)
    ensures SeatsOf(s).Keys == s.clients.Keys && |SeatsOf(s)| == |s.clients|
  {
    assert |SeatsOf(s).Keys| == |SeatsOf(s)| && |s.clients.Keys| == |s.clients|;
  }

  lemma SeatsAfterKnown(s: State, req: int, key: string, victim: string, at: real)
    requires Sound(s) && Possible(s, Look(req, key, victim, at)) && key in s.clients
    ensures var n := Next(s, Look(req, key, victim, at));
            Sound(n) && SeatsOf(n) == SeatsOf(s)[key := Seat(SeatsOf(s)[key].bucket, at)]
  {
    LookSound(s, req, key, victim, at);
  }

  /** Seats of the clients left, with one more in front of a new bucket. */
  lemma SeatsGrow(s: State, n: State, kept: map<string, Client>, key: string, b: Bucket, at: real)
    requires Sound(s) && Sound(n) && key !in kept
    requires n.clients == kept[key := Client(|s.buckets|, at)] && n.buckets == s.buckets + [b]
    requires forall k :: k in kept ==> k in s.clients && kept[k] == s.clients[k]
    ensures SeatsOf(n).Keys == kept.Keys + {key} && SeatsOf(n)[key] == Seat(b, at)
    ensures forall k :: k in kept ==> SeatsOf(n)[k] == SeatsOf(s)[k]
  {
    NewSeat(s, n, kept, key, b, at);
    forall k | k in kept ensures SeatsOf(n)[k] == SeatsOf(s)[k] {
      SeatStays(s, n, k);
    }
  }

  lemma NewSeat(s: State, n: State, kept: map<string, Client>, key: string, b: Bucket, at: real)
    requires Sound(n) && n.clients == kept[key := Client(|s.buckets|, at)] && n.buckets == s.buckets + [b]
    ensures SeatsOf(n).Keys == kept.Keys + {key} && SeatsOf(n)[key] == Seat(b, at)
  {
    SeatsCount(n);
  }

  lemma SeatStays(s: State, n: State, k: string)
    requires Sound(s) && Sound(n) && k in s.clients && k in n.clients && n.clients[k] == s.clients[k]
    requires s.buckets <= n.buckets
    ensures SeatsOf(n)[k] == SeatsOf(s)[k]
  {
  }

  lemma SeatsAfterNew(s: State, req: int, key: string, victim: string, at: real)
    requires Sound(s) && Possible(s, Look(req, key, victim, at)) && key !in s.clients
    ensures var n := Next(s, Look(req, key, victim, at));
            Sound(n) && SeatsOf(n) == (if |s.clients| >= MAX_TRACKED then SeatsOf(s) - {victim} else SeatsOf(s))
                                        [key := Seat(Fresh(s.rate, s.capacity, at), at)]
  {
    LookSound(s, req, key, victim, at);
    var n, b := Next(s, Look(req, key, victim, at)), Fresh(s.rate, s.capacity, at);
    SeatsGrow(s, n, Kept(s, key, victim), key, b, at);
    var kept := if |s.clients| >= MAX_TRACKED then SeatsOf(s) - {victim} else SeatsOf(s);
    SeatsKept(s, key, victim, kept);
    OneMoreSeat(SeatsOf(n), kept, key, Seat(b, at));
  }

  lemma SeatsKept(s: State, key: string, victim: string, kept: Seats)
    requires Sound(s) && key !in s.clients
    requires kept == if |s.clients| >= MAX_TRACKED then SeatsOf(s) - {victim} else SeatsOf(s)
    ensures kept.Keys == Kept(s, key, victim).Keys && key !in kept
    ensures forall k :: k in kept ==> k in s.clients && kept[k] == SeatsOf(s)[k]
  {
  }

  lemma OneMoreSeat(m: Seats, kept: Seats, key: string, seat: Seat)
    requires m.Keys == kept.Keys + {key} && key in m && m[key] == seat
    requires forall k :: k in kept && k != key ==> m[k] == kept[k]
    ensures m == kept[key := seat]
  {
  }

  lemma Overwrite(v: Seats, key: string, a: Seat, b: Seat)
    ensures v[key := a][key := b] == v[key := b]
  {
  }

  lemma SeatsAfterLook(s: State, req: int, key: string, victim: string, at: real)
    requires Sound(s) && Possible(s, Look(req, key, victim, at))
    ensures var n, v := Next(s, Look(req, key, victim, at)), SeatsOf(s);
            && Sound(n)
            && SeatsOf(n) == (if key !in v && |v| >= MAX_TRACKED then v - {victim} else v)
                 [key := Seat(OwnBucket(v, key, s.rate, s.capacity, at), at)]
  {
    SeatsCount(s);
    if key in s.clients {
      SeatsAfterKnown(s, req, key, victim, at);
    } else {
      SeatsAfterNew(s, req, key, victim, at);
    }
  }

  lemma SeatsAfterOwn(s: State, req: int, key: string, at: real)
    requires Sound(s) && Possible(s, Own(req, at)) && key in s.clients && s.clients[key].id == s.pending[req].id
    ensures var n := Next(s, Own(req, at));
            Sound(n) && SeatsOf(n) == SeatsOf(s)[key := Seat(Called(SeatsOf(s)[key].bucket, at), s.clients[key].seen)]
  {
    OwnSound(s, req, at);
  }

  lemma SeatsAfterAgg(s: State, req: int, at: real)
    requires Sound(s) && Possible(s, Agg(req, at))
    ensures var n := Next(s, Agg(req, at));
            Sound(n) && SeatsOf(n) == SeatsOf(s) && n.aggregate == Called(s.aggregate, at)
  {
    CalledSound(s.aggregate, at);
  }

  /** The machine after the first two lock steps of a request, nobody in between. */
  ghost predicate AfterTwo(s: State, req: int, key: string, victim: string, t1: real, t2: real, n: State)
    requires Sound(s) && Possible(s, Look(req, key, victim, t1))
  {
    var m := Next(s, Look(req, key, victim, t1));
    Sound(m) && Possible(m, Own(req, t2)) && n == Next(m, Own(req, t2))
  }

  lemma TwoSteps(s: State, req: int, key: string, victim: string, t1: real, t2: real, m: State)
    requires Sound(s) && Possible(s, Look(req, key, victim, t1)) && t1 <= t2
    requires m == Next(s, Look(req, key, victim, t1)) && Sound(m)
    ensures Possible(m, Own(req, t2)) && key in m.clients && m.clients[key].id == m.pending[req].id
    ensures m.clients[key].seen == t1
    ensures m.buckets[m.pending[req].id] == OwnBucket(SeatsOf(s), key, s.rate, s.capacity, t1)
    ensures m.aggregate == s.aggregate
  {
    SeatsCount(s);
    SeatsAfterLook(s, req, key, victim, t1);
    assert SeatsOf(m)[key].bucket == m.buckets[m.clients[key].id];
  }

  /** The lock steps of one request, nobody in between, make of the machine what
      the call makes of the object: the first two here, */
  lemma CallIsTwoSteps(s: State, req: int, key: string, victim: string, t1: real, t2: real, n: State)
    requires Sound(s) && Possible(s, Look(req, key, victim, t1)) && t1 <= t2
    requires AfterTwo(s, req, key, victim, t1, t2, n)
    ensures Sound(n) && SeatsOf(n) == SeatsAfter(SeatsOf(s), key, victim, s.rate, s.capacity, t1, t2)
    ensures n.aggregate == s.aggregate && n.now == t2
    ensures req in n.pending && n.pending[req].Passed? <==>
      Grants(OwnBucket(SeatsOf(s), key, s.rate, s.capacity, t1), t2)
  {
    var m := Next(s, Look(req, key, victim, t1));
    SeatsAfterLook(s, req, key, victim, t1);
    TwoSteps(s, req, key, victim, t1, t2, m);
    SeatsAfterOwn(m, req, key, t2);
    var v := SeatsOf(s);
    var b := OwnBucket(v, key, s.rate, s.capacity, t1);
    Overwrite(if key !in v && |v| >= MAX_TRACKED then v - {victim} else v, key, Seat(b, t1), Seat(Called(b, t2), t1));
  }

  /** ... and the third, which is due exactly when the own bucket granted. */
  lemma CallIsThreeSteps(s: State, req: int, key: string, victim: string, t1: real, t2: real, t3: real, n: State)
    requires Sound(s) && Possible(s, Look(req, key, victim, t1)) && t1 <= t2 <= t3
    requires AfterTwo(s, req, key, victim, t1, t2, n)
    ensures Sound(n) && SeatsOf(n) == SeatsAfter(SeatsOf(s), key, victim, s.rate, s.capacity, t1, t2)
    ensures n.aggregate == s.aggregate
    ensures Possible(n, Agg(req, t3)) <==> Grants(OwnBucket(SeatsOf(s), key, s.rate, s.capacity, t1), t2)
    ensures Possible(n, Agg(req, t3)) ==>
      && Sound(Next(n, Agg(req, t3))) && SeatsOf(Next(n, Agg(req, t3))) == SeatsOf(n)
      && Next(n, Agg(req, t3)).aggregate == Called(s.aggregate, t3)
  {
    CallIsTwoSteps(s, req, key, victim, t1, t2, n);
    if Possible(n, Agg(req, t3)) {
      SeatsAfterAgg(n, req, t3);
    }
  }

  // ----- the objects -----

  class RateBucket {
    var tokens: real
    var last: real
    const capacity: real
    const rate: real

    constructor (rate: real, capacity: real, now: real)
      ensures Value() == Fresh(rate, capacity, now)
    {
      this.tokens := capacity;
      this.capacity := capacity;
      this.rate := rate;
      this.last := now;
    }

    function Value(): Bucket
      reads this
    {
      Bucket(tokens, capacity, rate, last)
    }

    method Allow(now: real) returns (ok: bool)
      modifies this
      ensures Value() == Called(old(Value()), now)
      ensures ok == Grants(old(Value()), now)
    {
      ghost var b := Value();
      var elapsed := now - last;
      tokens := tokens + rate * elapsed;
      assert tokens == b.tokens + Flow(b.rate, now - b.last);
      if tokens > capacity {
        tokens := capacity;
      }
      last := now;
      assert tokens == Refilled(b, now);
      if tokens < 1.0 {
        return false;
      }
      tokens := tokens - 1.0;
      return true;
    }
  }

  class ClientBucket {
    const bucket: RateBucket
    var seen: real

    constructor (bucket: RateBucket, seen: real)
      ensures this.bucket == bucket && this.seen == seen
    {
      this.bucket := bucket;
      this.seen := seen;
    }
  }

  lemma OneMoreKey<T>(m: map<string, T>, key: string, v: T)
    requires key !in m
    ensures |m[key := v]| == |m| + 1
  {
    assert m[key := v].Keys == m.Keys + {key};
    assert |m[key := v].Keys| == |m[key := v]| && |m.Keys| == |m|;
  }

  ghost function SeatMap(m: map<string, ClientBucket>): Seats
    reads m.Values, set k | k in m :: m[k].bucket
  {
    map k | k in m :: Seat(m[k].bucket.Value(), m[k].seen)
  }

  lemma SeatPut(m: map<string, ClientBucket>, key: string, cb: ClientBucket)
    ensures SeatMap(m[key := cb]) == SeatMap(m)[key := Seat(cb.bucket.Value(), cb.seen)]
  {
  }

  class KeyedLimiter {
    var clients: map<string, ClientBucket>
    const aggregate: RateBucket
    const rate: real
    const capacity: real

    constructor (rate: real, capacity: real, aggRate: real, aggCap: real, now: real)
      ensures Valid() && clients == map[] && fresh(aggregate)
      ensures this.rate == rate && this.capacity == capacity && aggregate.Value() == Fresh(aggRate, aggCap, now)
    {
      this.clients := map[];
      this.rate := rate;
      this.capacity := capacity;
      this.aggregate := new RateBucket(aggRate, aggCap, now);
    }

    /** No two keys share an entry or a bucket, none uses the aggregate. */
    ghost predicate Valid()
      reads this, clients.Values
    {
      && |clients| <= MAX_TRACKED
      && (forall k :: k in clients ==> clients[k].bucket != aggregate)
      && (forall k, l :: k in clients && l in clients && k != l ==>
            clients[k] != clients[l] && clients[k].bucket != clients[l].bucket)
    }

    /** What the map says of every client. */
    ghost function View(): Seats
      reads this, clients.Values, set k | k in clients :: clients[k].bucket
    {
      SeatMap(clients)
    }

    /** The key that goes when the map is full: seen before every other. */
    method EvictOldest() returns (victim: string)
      requires Valid() && clients != map[]
      modifies this`clients
      ensures victim in old(clients) && clients == old(clients) - {victim}
      ensures forall k :: k in old(clients) ==> old(clients)[victim].seen <= old(clients)[k].seen
      ensures Valid()
    {
      var todo := clients.Keys;
      victim :| victim in todo;
      todo := todo - {victim};
      while todo != {}
        invariant todo <= clients.Keys && victim in clients && victim !in todo
        invariant forall k :: k in clients && k !in todo ==> clients[victim].seen <= clients[k].seen
        decreases todo
      {
        var k :| k in todo;
        todo := todo - {k};
        if clients[k].seen < clients[victim].seen {
          victim := k;
        }
      }
      assert |clients - {victim}| <= |clients| by {
        assert (clients - {victim}).Keys == clients.Keys - {victim};
        assert |(clients - {victim}).Keys| == |clients - {victim}| && |clients.Keys| == |clients|;
      }
      clients := clients - {victim};
    }

    /** Room for one more key. */
    method MakeRoom() returns (ghost victim: string)
      requires Valid()
      modifies this`clients
      ensures Valid() && |clients| < MAX_TRACKED
      ensures clients == if |old(clients)| >= MAX_TRACKED then old(clients) - {victim} else old(clients)
      ensures |old(clients)| >= MAX_TRACKED ==>
        victim in old(clients) && forall k :: k in old(clients) ==> old(clients)[victim].seen <= old(clients)[k].seen
      ensures View() == if |old(clients)| >= MAX_TRACKED then old(View()) - {victim} else old(View())
    {
      victim := "";
      if |clients| >= MAX_TRACKED {
        victim := EvictOldest();
        assert clients.Keys == old(clients).Keys - {victim};
        assert |clients.Keys| == |clients| && |old(clients).Keys| == |old(clients)|;
      }
    }

    method AddClient(key: string, now: real) returns (cb: ClientBucket)
      requires Valid() && key !in clients && |clients| < MAX_TRACKED
      modifies this`clients
      ensures Valid() && clients == old(clients)[key := cb]
      ensures fresh(cb) && fresh(cb.bucket) && cb.seen == now && cb.bucket.Value() == Fresh(rate, capacity, now)
      ensures View() == old(View())[key := Seat(Fresh(rate, capacity, now), now)]
    {
      var bucket := new RateBucket(rate, capacity, now);
      cb := new ClientBucket(bucket, now);
      Seated(key, cb);
    }

    /** An entry of its own, with a bucket of its own, put into the map. */
    method Seated(key: string, cb: ClientBucket)
      requires Valid() && key !in clients && |clients| < MAX_TRACKED
      requires cb !in clients.Values && cb.bucket != aggregate
      requires forall k :: k in clients ==> clients[k].bucket != cb.bucket
      modifies this`clients
      ensures Valid() && clients == old(clients)[key := cb]
      ensures View() == old(View())[key := Seat(cb.bucket.Value(), cb.seen)]
    {
      OneMoreKey(clients, key, cb);
      SeatPut(clients, key, cb);
      assert forall k :: k in clients ==> clients[k] in clients.Values;
      clients := clients[key := cb];
    }

    /** The entry of a known client, stamped as seen. */
    method Revisit(key: string, now: real) returns (cb: ClientBucket)
      requires Valid() && key in clients
      modifies clients[key]
      ensures Valid() && clients == old(clients) && cb == clients[key] && cb.seen == now
      ensures cb.bucket.Value() == old(View())[key].bucket && aggregate.Value() == old(aggregate.Value())
      ensures View() == old(View())[key := Seat(old(View())[key].bucket, now)]
    {
      cb := clients[key];
      cb.seen := now;
    }

    /** The first lock step: the client's entry, made if need be, stamped as seen. */
    method Lookup(key: string, now: real) returns (cb: ClientBucket, ghost victim: string)
      requires Valid()
      modifies this`clients, if key in clients then {clients[key]} else {}
      ensures Valid() && key in clients && clients[key] == cb && cb.seen == now
      ensures key in old(clients) ==> clients == old(clients)
      ensures key !in old(clients) ==> fresh(cb) && fresh(cb.bucket)
      ensures cb.bucket.Value() == OwnBucket(old(View()), key, rate, capacity, now)
      ensures key !in old(View()) && |old(View())| >= MAX_TRACKED ==> OldestSeat(old(View()), victim)
      ensures View() == SeatTaken(old(View()), key, victim, rate, capacity, now)
      ensures aggregate.Value() == old(aggregate.Value())
    {
      victim := "";
      ghost var before := View();
      assert before.Keys == clients.Keys && |before.Keys| == |before| && |clients.Keys| == |clients|;
      if key in clients {
        cb := Revisit(key, now);
        TakenKnown(before, key, victim, rate, capacity, now);
      } else {
        victim := MakeRoom();
        cb := AddClient(key, now);
        TakenNew(before, key, victim, rate, capacity, now);
      }
    }

    /** The second lock step. */
    method AskOwn(key: string, cb: ClientBucket, now: real) returns (granted: bool)
      requires Valid() && key in clients && clients[key] == cb
      modifies cb.bucket
      ensures Valid() && clients == old(clients) && aggregate.Value() == old(aggregate.Value())
      ensures granted == Grants(old(cb.bucket.Value()), now)
      ensures View() == old(View())[key := Seat(Called(old(cb.bucket.Value()), now), cb.seen)]
    {
      granted := cb.bucket.Allow(now);
    }

    /** The third. */
    method AskAggregate(now: real) returns (granted: bool)
      requires Valid()
      modifies aggregate
      ensures Valid() && clients == old(clients) && View() == old(View())
      ensures granted == Grants(old(aggregate.Value()), now)
      ensures aggregate.Value() == Called(old(aggregate.Value()), now)
    {
      granted := aggregate.Allow(now);
    }

    /** One request: its own bucket first, the aggregate only if that grants. The
        whole map changes as the lock steps say: nobody but the victim leaves. */
    method Allow(key: string, t1: real, t2: real, t3: real) returns (ok: bool, ghost victim: string)
      requires Valid()
      modifies this`clients, aggregate, if key in clients then {clients[key], clients[key].bucket} else {}
      ensures Valid()
      ensures key !in old(View()) && |old(View())| >= MAX_TRACKED ==> OldestSeat(old(View()), victim)
      ensures View() == SeatsAfter(old(View()), key, victim, rate, capacity, t1, t2)
      ensures var granted := Grants(OwnBucket(old(View()), key, rate, capacity, t1), t2);
              && ok == (granted && Grants(old(aggregate.Value()), t3))
              && aggregate.Value() == if granted then Called(old(aggregate.Value()), t3) else old(aggregate.Value())
      ensures Clear(old(View()), old(aggregate.Value()), key, rate, capacity, t1, t2, t3) ==> ok
    {
      ghost var clear := Clear(View(), aggregate.Value(), key, rate, capacity, t1, t2, t3);
      if clear {
        ClearGrants(View(), aggregate.Value(), key, rate, capacity, t1, t2, t3);
      }
      ghost var before := View();
      ghost var own := OwnBucket(before, key, rate, capacity, t1);
      var cb;
      cb, victim := Lookup(key, t1);
      var granted := AskOwn(key, cb, t2);
      SeatAsked(before, View(), key, victim, rate, capacity, t1, t2, own);
      if !granted {
        ok := false;
        return;
      }
      ok := AskAggregate(t3);
    }
  }

  lemma SeatAsked(before: Seats, after: Seats, key: string, victim: string, rate: real, capacity: real,
                  t1: real, t2: real,
                  own: Bucket)
    requires own == OwnBucket(before, key, rate, capacity, t1)
    requires after == SeatTaken(before, key, victim, rate, capacity, t1)[key := Seat(Called(own, t2), t1)]
    ensures after == SeatsAfter(before, key, victim, rate, capacity, t1, t2)
  {
  }
}
