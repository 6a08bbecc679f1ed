/** Facts about sequences that many inductions need, kept apart so that no
    proof establishes them in a crowded context. */
module Seqs {
  lemma SplitLast<T>(s: seq<T>)
    requires s != []
    ensures s[..|s| - 1] + [s[|s| - 1]] == s
  {
  }

  lemma DropLast<T>(s: seq<T>, x: T)
    ensures (s + [x])[..|s|] == s && (s + [x])[|s|] == x
  {
  }

  lemma ReplaceNext<T>(front: seq<T>, tail: seq<T>, x: T)
    requires tail != []
    ensures (front + tail)[|front| := x] == front + [x] + tail[1..] && (front + tail)[|front|] == tail[0]
  {
  }

  lemma Assoc3<T>(a: seq<T>, b: seq<T>, c: seq<T>)
    ensures a + b + c == a + (b + c)
  {
  }
}
