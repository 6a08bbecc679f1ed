/** The stable sort by Order, and what "the first matching rule" means on the
    list as the user wrote it. */
module Ordering {
  import opened Text
  import opened Rules

  predicate SortedByOrder(rl: seq<Rule>) {
    forall i, j | 0 <= i < j < |rl| :: rl[i].order <= rl[j].order
  }

  function Insert(r: Rule, rl: seq<Rule>): seq<Rule> {
    if rl == [] || r.order <= rl[0].order then [r] + rl else [rl[0]] + Insert(r, rl[1..])
  }

  /** `sort.SliceStable` by Order. */
  function StableSort(rl: seq<Rule>): seq<Rule> {
    if rl == [] then [] else Insert(rl[0], StableSort(rl[1..]))
  }

  /** The first rule of the list that satisfies m. */
  function First(rl: seq<Rule>, m: Rule -> bool): Option<Rule> {
    if rl == [] then None
    else if m(rl[0]) then Some(rl[0])
    else First(rl[1..], m)
  }

  /** Rule i wins: it matches, and every other match has a larger Order, or the
      same Order and a later place in the list. */
  predicate Wins(rl: seq<Rule>, m: Rule -> bool, i: int) {
    && 0 <= i < |rl| && m(rl[i])
    && forall j | 0 <= j < |rl| && m(rl[j]) ::
         rl[i].order < rl[j].order || (rl[i].order == rl[j].order && i <= j)
  }

  lemma {:induction false} InsertElements(r: Rule, rl: seq<Rule>)
    ensures multiset(Insert(r, rl)) == multiset{r} + multiset(rl)
  {
    if rl != [] && r.order > rl[0].order {
      InsertElements(r, rl[1..]);
      assert rl == [rl[0]] + rl[1..];
    }
  }

  lemma {:induction false} InsertSorted(r: Rule, rl: seq<Rule>)
    requires SortedByOrder(rl)
    ensures SortedByOrder(Insert(r, rl))
  {
    if rl != [] && r.order > rl[0].order {
      var tail := Insert(r, rl[1..]);
      InsertSorted(r, rl[1..]);
      InsertElements(r, rl[1..]);
      forall x | x in tail ensures rl[0].order <= x.order {
        assert x in multiset(tail);
        assert x == r || x in multiset(rl[1..]);
      }
    }
  }

  lemma {:induction false} SortElements(rl: seq<Rule>)
    ensures multiset(StableSort(rl)) == multiset(rl)
    ensures SortedByOrder(StableSort(rl))
  {
    if rl != [] {
      SortElements(rl[1..]);
      InsertElements(rl[0], StableSort(rl[1..]));
      InsertSorted(rl[0], StableSort(rl[1..]));
      assert rl == [rl[0]] + rl[1..];
    }
  }

  lemma {:induction false} FirstFacts(rl: seq<Rule>, m: Rule -> bool)
    ensures First(rl, m).None? <==> forall r | r in rl :: !m(r)
    ensures First(rl, m).Some? ==> First(rl, m).value in rl && m(First(rl, m).value)
  {
    if rl != [] {
      FirstFacts(rl[1..], m);
      assert forall r | r in rl :: r == rl[0] || r in rl[1..];
    }
  }

  lemma {:induction false} FirstOfInsert(r: Rule, rl: seq<Rule>, m: Rule -> bool)
    requires SortedByOrder(rl)
    ensures First(Insert(r, rl), m) ==
      if m(r) && (First(rl, m).None? || r.order <= First(rl, m).value.order) then Some(r) else First(rl, m)
  {
    FirstFacts(rl, m);
    if rl == [] || r.order <= rl[0].order {
      assert ([r] + rl)[1..] == rl;
    } else {
      FirstOfInsert(r, rl[1..], m);
      assert ([rl[0]] + Insert(r, rl[1..]))[1..] == Insert(r, rl[1..]);
    }
  }

  /** The first match of the sorted list is the winner of the list as written:
      least Order, ties to the earlier rule. */
  lemma {:induction false} FirstOfSorted(rl: seq<Rule>, m: Rule -> bool)
    ensures First(StableSort(rl), m).None? <==> forall r | r in rl :: !m(r)
    ensures First(StableSort(rl), m).Some? ==>
      exists i :: Wins(rl, m, i) && First(StableSort(rl), m).value == rl[i]
    ensures forall i | Wins(rl, m, i) :: First(StableSort(rl), m) == Some(rl[i])
  {
    if rl != [] {
      var rest := rl[1..];
      FirstOfSorted(rest, m);
      SortElements(rest);
      FirstOfInsert(rl[0], StableSort(rest), m);
      assert forall r | r in rl :: r == rl[0] || r in rest;
      var f := First(StableSort(rest), m);
      if m(rl[0]) && (f.None? || rl[0].order <= f.value.order) {
        assert Wins(rl, m, 0);
      } else if f.Some? {
        var i :| Wins(rest, m, i) && f.value == rest[i];
        assert Wins(rl, m, i + 1);
      }
      WinnerUnique(rl, m);
    }
  }

  lemma WinnerUnique(rl: seq<Rule>, m: Rule -> bool)
    ensures forall i, j | Wins(rl, m, i) && Wins(rl, m, j) :: i == j
  {
  }

  /** Stability: rules of one Order keep their places relative to each other. */
  function OfOrder(rl: seq<Rule>, n: int): seq<Rule> {
    if rl == [] then []
    else (if rl[0].order == n then [rl[0]] else []) + OfOrder(rl[1..], n)
  }

  lemma {:induction false} InsertStable(r: Rule, rl: seq<Rule>, n: int)
    ensures OfOrder(Insert(r, rl), n) == OfOrder([r] + rl, n)
  {
    assert ([r] + rl)[1..] == rl;
    if rl == [] || r.order <= rl[0].order {
    } else {
      InsertStable(r, rl[1..], n);
      assert ([rl[0]] + Insert(r, rl[1..]))[1..] == Insert(r, rl[1..]);
      assert ([r] + rl[1..])[1..] == rl[1..];
    }
  }

  lemma {:induction false} SortIsStable(rl: seq<Rule>, n: int)
    ensures OfOrder(StableSort(rl), n) == OfOrder(rl, n)
  {
    if rl != [] {
      SortIsStable(rl[1..], n);
      InsertStable(rl[0], StableSort(rl[1..]), n);
      assert ([rl[0]] + StableSort(rl[1..]))[1..] == StableSort(rl[1..]);
    }
  }
}
