/** The audit timeline: per finding, its status changes, at most the last twenty. */
module Audit {
  import opened Seqs

  const MAX_HISTORY := 20

  datatype Entry = Entry(ts: string, status: string)
  datatype Finding = Finding(id: string, status: string)

  type Timelines = map<string, seq<Entry>>

  // ----- the meaning: the whole status sequence -----

  /** A sequence with consecutive repeats of a status removed, the first kept. */
  function Changes(series: seq<Entry>): seq<Entry> {
    if series == [] then []
    else
      var n := |series| - 1;
      var front := Changes(series[..n]);
      if front != [] && front[|front| - 1].status == series[n].status then front else front + [series[n]]
  }

  function LastTwenty(s: seq<Entry>): seq<Entry> {
    if |s| <= MAX_HISTORY then s else s[|s| - MAX_HISTORY..]
  }

  /** One call of Update: the findings of one audit, all stamped alike. */
  datatype Call = Call(findings: seq<Finding>, ts: string)

  function SeriesOf(findings: seq<Finding>, ts: string, id: string): seq<Entry> {
    if findings == [] then []
    else
      var f := findings[|findings| - 1];
      SeriesOf(findings[..|findings| - 1], ts, id) + if f.id == id then [Entry(ts, f.status)] else []
  }

  /** Every status reported for one finding, over all calls. */
  function Series(calls: seq<Call>, id: string): seq<Entry> {
    if calls == [] then []
    else
      var c := calls[|calls| - 1];
      Series(calls[..|calls| - 1], id) + SeriesOf(c.findings, c.ts, id)
  }

  // ----- the update, finding by finding -----

  function Timeline(h: Timelines, id: string): seq<Entry> {
    if id in h then h[id] else []
  }

  predicate Repeats(entries: seq<Entry>, status: string) {
    entries != [] && entries[|entries| - 1].status == status
  }

  function Record(h: Timelines, f: Finding, ts: string): Timelines {
    var entries := Timeline(h, f.id);
    if Repeats(entries, f.status) then h else h[f.id := LastTwenty(entries + [Entry(ts, f.status)])]
  }

  function RecordAll(h: Timelines, findings: seq<Finding>, ts: string): Timelines {
    if findings == [] then h
    else Record(RecordAll(h, findings[..|findings| - 1], ts), findings[|findings| - 1], ts)
  }

  /** Some finding of the batch got a new entry. */
  predicate AnyNew(h: Timelines, findings: seq<Finding>, ts: string) {
    findings != [] &&
    (var n := |findings| - 1;
     AnyNew(h, findings[..n], ts)
      || !Repeats(Timeline(RecordAll(h, findings[..n], ts), findings[n].id), findings[n].status))
  }

  class History {
    var h: Timelines

    constructor ()
      ensures h == map[]
    {
      h := map[];
    }

    method Update(findings: seq<Finding>, ts: string) returns (dirty: bool)
      modifies this
      ensures h == RecordAll(old(h), findings, ts)
      ensures dirty == AnyNew(old(h), findings, ts)
    {
      dirty := false;
      for i := 0 to |findings|
        invariant h == RecordAll(old(h), findings[..i], ts)
        invariant dirty == AnyNew(old(h), findings[..i], ts)
      {
        assert findings[..i + 1][..i] == findings[..i];
        var f := findings[i];
        var entries := if f.id in h then h[f.id] else [];
        if |entries| > 0 && entries[|entries| - 1].status == f.status {
          continue;
        }
        entries := entries + [Entry(ts, f.status)];
        if |entries| > MAX_HISTORY {
          entries := entries[|entries| - MAX_HISTORY..];
        }
        h := h[f.id := entries];
        dirty := true;
      }
      assert findings[..|findings|] == findings;
    }
  }

  // ----- timelines mean what they should -----

  /** Trimming before or after the next change makes no difference. */
  lemma TrimStep(changes: seq<Entry>, e: Entry)
    ensures Repeats(LastTwenty(changes), e.status) == Repeats(changes, e.status)
    ensures LastTwenty(LastTwenty(changes) + [e]) == LastTwenty(changes + [e])
  {
  }

  lemma RecordTells(h: Timelines, past: seq<Entry>, f: Finding, ts: string, id: string)
    requires Timeline(h, id) == LastTwenty(Changes(past))
    ensures Timeline(Record(h, f, ts), id)
         == LastTwenty(Changes(past + if f.id == id then [Entry(ts, f.status)] else []))
  {
    if f.id == id {
      var e := Entry(ts, f.status);
      assert (past + [e])[..|past|] == past;
      TrimStep(Changes(past), e);
    } else {
      assert past + [] == past;
    }
  }

  lemma {:induction false} BatchTells(h: Timelines, past: seq<Entry>, findings: seq<Finding>, ts: string, id: string)
    requires Timeline(h, id) == LastTwenty(Changes(past))
    ensures Timeline(RecordAll(h, findings, ts), id) == LastTwenty(Changes(past + SeriesOf(findings, ts, id)))
  {
    if findings == [] {
      assert past + SeriesOf(findings, ts, id) == past;
    } else {
      var n := |findings| - 1;
      var s := past + SeriesOf(findings[..n], ts, id);
      BatchTells(h, past, findings[..n], ts, id);
      RecordTells(RecordAll(h, findings[..n], ts), s, findings[n], ts, id);
      assert past + SeriesOf(findings, ts, id)
          == s + if findings[n].id == id then [Entry(ts, findings[n].status)] else [];
    }
  }

  function AfterCalls(calls: seq<Call>): Timelines {
    if calls == [] then map[]
    else
      var c := calls[|calls| - 1];
      RecordAll(AfterCalls(calls[..|calls| - 1]), c.findings, c.ts)
  }

  /** After any run of updates from an empty history, each finding's timeline is
      its last at most twenty status changes, no matter how often it was
      reported unchanged in between. */
  lemma {:induction false} TimelinesAreChanges(calls: seq<Call>, id: string)
    ensures Timeline(AfterCalls(calls), id) == LastTwenty(Changes(Series(calls, id)))
    ensures |Timeline(AfterCalls(calls), id)| <= 20
    ensures |Changes(Series(calls, id))| <= 20 ==> Timeline(AfterCalls(calls), id) == Changes(Series(calls, id))
  {
    if calls != [] {
      var n := |calls| - 1;
      TimelinesAreChanges(calls[..n], id);
      BatchTells(AfterCalls(calls[..n]), Series(calls[..n], id), calls[n].findings, calls[n].ts, id);
    }
  }

  /** Changes has no two neighbours of one status, ends with the latest status,
      and keeps the status of every entry at the place where it was set. */
  lemma {:induction false} ChangesAlternate(series: seq<Entry>)
    ensures var c := Changes(series);
            && (forall i | 0 <= i < |c| - 1 :: c[i].status != c[i + 1].status)
            && (c == [] <==> series == [])
            && (series != [] ==> c[|c| - 1].status == series[|series| - 1].status)
            && (forall e | e in c :: e in series)
  {
    if series != [] {
      ChangesAlternate(series[..|series| - 1]);
    }
  }

  /** Place i of the series has another status than the place before, or none before. */
  predicate IsChange(series: seq<Entry>, i: int) {
    0 <= i < |series| && (i == 0 || series[i].status != series[i - 1].status)
  }

  /** The changes among the first n places. */
  function ChangesBefore(series: seq<Entry>, n: int): set<int> {
    set i | 0 <= i < n && IsChange(series, i) :: i
  }

  lemma ChangesBeforeStep(series: seq<Entry>, n: nat)
    ensures |ChangesBefore(series, n + 1)| == |ChangesBefore(series, n)| + if IsChange(series, n) then 1 else 0
  {
    assert ChangesBefore(series, n + 1) == ChangesBefore(series, n) + if IsChange(series, n) then {n} else {};
  }

  lemma ChangesOfFront(series: seq<Entry>, front: seq<Entry>, i: nat)
    requires front <= series && i <= |front|
    ensures i < |front| ==> (IsChange(series, i) <==> IsChange(front, i))
    ensures ChangesBefore(series, i) == ChangesBefore(front, i)
  {
    forall j | 0 <= j < |front| ensures IsChange(series, j) <==> IsChange(front, j) {
    }
  }

  lemma LatestStatus(series: seq<Entry>)
    requires series != []
    ensures var c := Changes(series);
            c != [] && c[|c| - 1].status == series[|series| - 1].status
  {
    ChangesAlternate(series);
  }

  lemma LastChange(series: seq<Entry>, n: nat, front: seq<Entry>)
    requires n + 1 == |series| && front == series[..n]
    ensures IsChange(series, n) ==> Changes(series) == Changes(front) + [series[n]]
    ensures !IsChange(series, n) ==> Changes(series) == Changes(front)
  {
    if n > 0 {
      LatestStatus(front);
      assert front[n - 1] == series[n - 1];
    }
  }

  /** Changes holds exactly the entries at which the status changed, each in its turn:
      no change is left out and nothing else is in it. */
  lemma {:induction false} ChangesExact(series: seq<Entry>)
    ensures |Changes(series)| == |ChangesBefore(series, |series|)|
    ensures forall i | IsChange(series, i) :: TellsChange(series, i)
  {
    if series != [] {
      var n := |series| - 1;
      var front := series[..n];
      ChangesExact(front);
      LastChange(series, n, front);
      ChangesBeforeStep(series, n);
      ChangesOfFront(series, front, n);
      forall i | IsChange(series, i) ensures TellsChange(series, i) {
        if i < n {
          ChangesOfFront(series, front, i);
          assert TellsChange(front, i);
        }
      }
    } else {
      assert ChangesBefore(series, 0) == {};
    }
  }

  /** Place i stands in Changes, behind the changes before it. */
  predicate TellsChange(series: seq<Entry>, i: int)
    requires IsChange(series, i)
  {
    var k := |ChangesBefore(series, i)|;
    k < |Changes(series)| && Changes(series)[k] == series[i]
  }

  // ----- the dirty flag -----

  /** No finding stands in the batch with two different statuses. */
  predicate OneStatus(findings: seq<Finding>) {
    forall i, j | 0 <= i < j < |findings| && findings[i].id == findings[j].id
      :: findings[i].status == findings[j].status
  }

  /** Some timeline differs after the batch. */
  ghost predicate SomeChange(h: Timelines, findings: seq<Finding>, ts: string) {
    exists id :: Timeline(RecordAll(h, findings, ts), id) != Timeline(h, id)
  }

  lemma {:induction false} UntouchedElsewhere(h: Timelines, findings: seq<Finding>, ts: string, id: string)
    requires forall f | f in findings :: f.id != id
    ensures Timeline(RecordAll(h, findings, ts), id) == Timeline(h, id)
  {
    if findings != [] {
      UntouchedElsewhere(h, findings[..|findings| - 1], ts, id);
      assert findings[|findings| - 1] in findings;
    }
  }

  lemma RecordEnds(h: Timelines, f: Finding, ts: string)
    ensures Repeats(Timeline(Record(h, f, ts), f.id), f.status)
    ensures forall id | id != f.id :: Timeline(Record(h, f, ts), id) == Timeline(h, id)
  {
  }

  /** In a batch of one status each, a timeline ends with the status reported. */
  lemma {:induction false} LastReported(h: Timelines, findings: seq<Finding>, ts: string, f: Finding)
    requires OneStatus(findings) && f in findings
    ensures Repeats(Timeline(RecordAll(h, findings, ts), f.id), f.status)
  {
    var n := |findings| - 1;
    var mid := RecordAll(h, findings[..n], ts);
    RecordEnds(mid, findings[n], ts);
    if findings[n].id != f.id {
      assert f in findings[..n];
      LastReported(h, findings[..n], ts, f);
    } else {
      var i :| 0 <= i < |findings| && findings[i] == f;
      assert i < n ==> findings[i].status == findings[n].status;
    }
  }

  lemma StatusAgrees(findings: seq<Finding>, n: nat, g: Finding)
    requires n < |findings| && OneStatus(findings) && g in findings[..n]
    ensures g.id == findings[n].id ==> g.status == findings[n].status
  {
    var i :| 0 <= i < n && findings[i] == g;
  }

  /** A new entry for a finding the batch had not touched is a difference. */
  lemma FreshEntryShows(h: Timelines, findings: seq<Finding>, ts: string, n: nat)
    requires n < |findings| && n == |findings| - 1
    requires forall g | g in findings[..n] :: g.id != findings[n].id
    requires !Repeats(Timeline(RecordAll(h, findings[..n], ts), findings[n].id), findings[n].status)
    ensures SomeChange(h, findings, ts)
  {
    var f, mid := findings[n], RecordAll(h, findings[..n], ts);
    UntouchedElsewhere(h, findings[..n], ts, f.id);
    RecordEnds(mid, f, ts);
    assert Timeline(RecordAll(h, findings, ts), f.id) != Timeline(h, f.id);
  }

  /** With one status a finding, Update reports a change exactly when some timeline
      is different afterwards. */
  lemma {:induction false} DirtyIffChanged(h: Timelines, findings: seq<Finding>, ts: string)
    requires OneStatus(findings)
    ensures AnyNew(h, findings, ts) <==> SomeChange(h, findings, ts)
  {
    if findings != [] {
      var n := |findings| - 1;
      var f, mid := findings[n], RecordAll(h, findings[..n], ts);
      DirtyIffChanged(h, findings[..n], ts);
      if Repeats(Timeline(mid, f.id), f.status) {
        assert RecordAll(h, findings, ts) == mid;
      } else {
        forall g | g in findings[..n] ensures g.id != f.id {
          LastReported(h, findings[..n], ts, g);
          StatusAgrees(findings, n, g);
        }
        FreshEntryShows(h, findings, ts, n);
      }
    }
  }

  // ----- ... and only then -----

  /** A batch that adds nothing leaves the timelines as they are, each ending with
      every status the batch reports for it. */
  lemma {:induction false} NothingNew(h: Timelines, findings: seq<Finding>, ts: string)
    requires !AnyNew(h, findings, ts)
    ensures RecordAll(h, findings, ts) == h
    ensures forall f | f in findings :: Repeats(Timeline(h, f.id), f.status)
  {
    if findings != [] {
      var n := |findings| - 1;
      NothingNew(h, findings[..n], ts);
      assert forall f | f in findings :: f in findings[..n] || f == findings[n];
    }
  }

  /** A batch that contradicts itself always adds something. */
  lemma QuietMeansOneStatus(h: Timelines, findings: seq<Finding>, ts: string)
    requires !AnyNew(h, findings, ts)
    ensures OneStatus(findings)
  {
    NothingNew(h, findings, ts);
    forall i, j | 0 <= i < j < |findings| && findings[i].id == findings[j].id
      ensures findings[i].status == findings[j].status
    {
      assert findings[i] in findings && findings[j] in findings;
    }
  }

  /** The same series n times over. */
  function Times(s: seq<Entry>, n: nat): seq<Entry> {
    if n == 0 then [] else Times(s, n - 1) + s
  }

  lemma {:induction false} TimesFront(s: seq<Entry>, n: nat)
    ensures Times(s, n + 1) == s + Times(s, n)
  {
    if n == 0 {
      assert [] + s == s + [];
    } else {
      TimesFront(s, n - 1);
      Assoc3(s, Times(s, n - 1), s);
    }
  }

  predicate AllAt(s: seq<Entry>, ts: string) {
    forall e | e in s :: e.ts == ts
  }

  lemma {:induction false} TimesAt(s: seq<Entry>, n: nat, ts: string)
    requires AllAt(s, ts)
    ensures AllAt(Times(s, n), ts)
  {
    if n > 0 {
      TimesAt(s, n - 1, ts);
    }
  }

  predicate IsSuffix(a: seq<Entry>, b: seq<Entry>) {
    |a| <= |b| && a == b[|b| - |a|..]
  }

  lemma ChangesAppend(s: seq<Entry>, e: Entry)
    ensures Changes(s + [e]) == Changes(s) + if Repeats(Changes(s), e.status) then [] else [e]
  {
    DropLast(s, e);
    assert Changes(s) + [] == Changes(s);
  }

  /** Within one time stamp, reporting something before a series only puts changes
      in front of those of the series. */
  lemma {:induction false} ChangesBehind(front: seq<Entry>, s: seq<Entry>, ts: string)
    requires AllAt(front, ts) && AllAt(s, ts)
    ensures IsSuffix(Changes(s), Changes(front + s))
    ensures s != [] ==> Changes(s) != []
  {
    if s != [] {
      var n := |s| - 1;
      var e := s[n];
      SplitLast(s);
      assert e in s && forall x | x in s[..n] :: x in s;
      assert front + s == front + s[..n] + [e];
      ChangesBehind(front, s[..n], ts);
      ChangesAppend(s[..n], e);
      ChangesAppend(front + s[..n], e);
      if Changes(front + s[..n]) != [] {
        LastAt(front + s[..n], ts);
      }
      SuffixGrows(Changes(s[..n]), Changes(front + s[..n]), e);
    }
  }

  lemma SuffixGrows(a: seq<Entry>, b: seq<Entry>, e: Entry)
    requires IsSuffix(a, b) && (b != [] ==> b[|b| - 1].ts == e.ts)
    ensures var c := a + if Repeats(a, e.status) then [] else [e];
            c != [] && IsSuffix(c, b + if Repeats(b, e.status) then [] else [e])
  {
    if a == [] && Repeats(b, e.status) {
      assert b[|b| - 1] == e && b[|b| - 1..] == [e];
    }
    assert a + [] == a && b + [] == b && [] + [e] == [e];
  }

  /** The last change within one time stamp is known by its status. */
  lemma LastAt(s: seq<Entry>, ts: string)
    requires AllAt(s, ts) && Changes(s) != []
    ensures Changes(s)[|Changes(s)| - 1].ts == ts
  {
    ChangesAlternate(s);
    assert Changes(s)[|Changes(s)| - 1] in Changes(s);
  }

  lemma {:induction false} ChangesPrefix(past: seq<Entry>, s: seq<Entry>)
    ensures Changes(past) <= Changes(past + s)
  {
    if s == [] {
      assert past + s == past;
    } else {
      var n := |s| - 1;
      SplitLast(s);
      assert past + s == past + s[..n] + [s[n]];
      ChangesPrefix(past, s[..n]);
      ChangesAppend(past + s[..n], s[n]);
    }
  }

  /** A series that adds no change repeats the last status all through. */
  lemma Steady(past: seq<Entry>, s: seq<Entry>, k: nat)
    requires |Changes(past + s)| == |Changes(past)| && k < |s|
    ensures Repeats(Changes(past), s[k].status)
  {
    var upTo := past + s[..k + 1];
    SplitAtNext(past, s, k);
    ChangesPrefix(past, s[..k + 1]);
    ChangesPrefix(upTo, s[k + 1..]);
    SamePrefix(Changes(past), Changes(upTo), Changes(past + s));
    ChangesAlternate(upTo);
  }

  lemma SplitAtNext(past: seq<Entry>, s: seq<Entry>, k: nat)
    requires k < |s|
    ensures var upTo := past + s[..k + 1];
            past + s == upTo + s[k + 1..] && upTo != [] && upTo[|upTo| - 1] == s[k]
  {
  }

  lemma SamePrefix(a: seq<Entry>, b: seq<Entry>, c: seq<Entry>)
    requires a <= b <= c && |a| == |c|
    ensures a == b
  {
  }

  lemma TwoStatusesAdd(past: seq<Entry>, s: seq<Entry>, i: nat, j: nat)
    requires i < |s| && j < |s| && s[i].status != s[j].status
    ensures |Changes(past + s)| > |Changes(past)|
  {
    ChangesPrefix(past, s);
    if |Changes(past + s)| == |Changes(past)| {
      Steady(past, s, i);
      Steady(past, s, j);
    }
  }

  lemma {:induction false} RoundsAdd(s: seq<Entry>, n: nat, i: nat, j: nat)
    requires i < |s| && j < |s| && s[i].status != s[j].status
    ensures |Changes(Times(s, n))| >= n
  {
    if n > 0 {
      RoundsAdd(s, n - 1, i, j);
      TwoStatusesAdd(Times(s, n - 1), s, i, j);
    }
  }

  predicate AllSay(s: seq<Entry>, status: string) {
    forall e | e in s :: e.status == status
  }

  lemma {:induction false} TimesSay(s: seq<Entry>, n: nat, status: string)
    requires AllSay(s, status)
    ensures AllSay(Times(s, n), status)
    ensures s != [] && n > 0 ==> Times(s, n) != []
  {
    if n > 0 {
      TimesSay(s, n - 1, status);
    }
  }

  lemma {:induction false} OneChange(s: seq<Entry>, status: string)
    requires AllSay(s, status)
    ensures |Changes(s)| <= 1
  {
    if s != [] {
      var n := |s| - 1;
      assert s[n] in s && forall e | e in s[..n] :: e in s;
      OneChange(s[..n], status);
      if Changes(s[..n]) != [] {
        ChangesAlternate(s[..n]);
        assert s[n - 1] in s;
      }
    }
  }

  lemma SuffixFills(a: seq<Entry>, b: seq<Entry>)
    requires IsSuffix(a, b) && (|a| >= MAX_HISTORY || |b| <= |a|)
    ensures LastTwenty(a) == LastTwenty(b)
  {
  }

  lemma SteadyRounds(s: seq<Entry>, n: nat, status: string)
    requires AllSay(s, status) && n > 0 && IsSuffix(Changes(Times(s, n)), Changes(Times(s, n + 1)))
    ensures |Changes(Times(s, n + 1))| <= |Changes(Times(s, n))|
  {
    if s == [] {
      EmptyTimes(n);
      EmptyTimes(n + 1);
    } else {
      TimesSay(s, n, status);
      TimesSay(s, n + 1, status);
      OneChange(Times(s, n + 1), status);
      ChangesAlternate(Times(s, n));
    }
  }

  /** Twenty rounds at one time fill a timeline: the next leaves it as it is. */
  lemma RoundsSettle(s: seq<Entry>, ts: string, n: nat)
    requires AllAt(s, ts) && n >= MAX_HISTORY
    ensures LastTwenty(Changes(Times(s, n + 1))) == LastTwenty(Changes(Times(s, n)))
  {
    TimesFront(s, n);
    TimesAt(s, n, ts);
    ChangesBehind(s, Times(s, n), ts);
    if i, j :| 0 <= i < |s| && 0 <= j < |s| && s[i].status != s[j].status {
      RoundsAdd(s, n, i, j);
    } else {
      var status := if s == [] then "" else s[0].status;
      assert AllSay(s, status);
      SteadyRounds(s, n, status);
    }
    SuffixFills(Changes(Times(s, n)), Changes(Times(s, n + 1)));
  }

  lemma {:induction false} EmptyTimes(n: nat)
    ensures Times([], n) == []
  {
    if n > 0 {
      EmptyTimes(n - 1);
    }
  }

  /** The same call n times over. */
  function Again(findings: seq<Finding>, ts: string, n: nat): seq<Call> {
    if n == 0 then [] else Again(findings, ts, n - 1) + [Call(findings, ts)]
  }

  lemma {:induction false} SeriesAgain(findings: seq<Finding>, ts: string, id: string, n: nat)
    ensures Series(Again(findings, ts, n), id) == Times(SeriesOf(findings, ts, id), n)
  {
    if n > 0 {
      SeriesAgain(findings, ts, id, n - 1);
      DropLast(Again(findings, ts, n - 1), Call(findings, ts));
    }
  }

  lemma OnceMore(findings: seq<Finding>, ts: string, n: nat)
    ensures AfterCalls(Again(findings, ts, n + 1)) == RecordAll(AfterCalls(Again(findings, ts, n)), findings, ts)
  {
    DropLast(Again(findings, ts, n), Call(findings, ts));
  }

  lemma {:induction false} SeriesAt(findings: seq<Finding>, ts: string, id: string)
    ensures AllAt(SeriesOf(findings, ts, id), ts)
  {
    if findings != [] {
      SeriesAt(findings[..|findings| - 1], ts, id);
    }
  }

  /** A batch that gives a finding two statuses, however long it is and whatever
      else it holds: after it was reported twenty times at one time stamp, the next
      call tells its caller of a change and leaves every timeline as it was. */
  lemma DirtyWithoutChange(findings: seq<Finding>, ts: string)
    requires !OneStatus(findings)
    ensures var h := AfterCalls(Again(findings, ts, 20));
            AnyNew(h, findings, ts) && !SomeChange(h, findings, ts)
  {
    var h := AfterCalls(Again(findings, ts, 20));
    if !AnyNew(h, findings, ts) {
      QuietMeansOneStatus(h, findings, ts);
    }
    OnceMore(findings, ts, 20);
    forall id ensures Timeline(RecordAll(h, findings, ts), id) == Timeline(h, id) {
      TimelinesAreChanges(Again(findings, ts, 20), id);
      TimelinesAreChanges(Again(findings, ts, 21), id);
      SeriesAgain(findings, ts, id, 20);
      SeriesAgain(findings, ts, id, 21);
      SeriesAt(findings, ts, id);
      RoundsSettle(SeriesOf(findings, ts, id), ts, 20);
    }
  }

  /** Update reports true exactly when some timeline changed, from every history
      and at every time, precisely for the batches that give no finding two
      statuses. */
  lemma DirtyExact(findings: seq<Finding>)
    ensures (forall h, ts :: AnyNew(h, findings, ts) <==> SomeChange(h, findings, ts)) <==> OneStatus(findings)
  {
    if OneStatus(findings) {
      forall h, ts ensures AnyNew(h, findings, ts) <==> SomeChange(h, findings, ts) {
        DirtyIffChanged(h, findings, ts);
      }
    } else {
      DirtyWithoutChange(findings, "");
    }
  }
}
