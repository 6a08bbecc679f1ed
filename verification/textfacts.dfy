/** What the text functions of the rule model and the config file say, told by
    characters: trimming, lists, letter case, bytes. */
module TextFacts {
  import opened Text

  // ----- trimming -----

  predicate Trimmed(s: string) {
    s == "" || (!IsSpace(s[0]) && !IsSpace(s[|s| - 1]))
  }

  predicate Blank(pad: string) {
    forall c | c in pad :: IsSpace(c)
  }

  lemma {:induction false} TrimLeftFacts(s: string)
    ensures var t := TrimLeft(s);
            && (t != "" ==> !IsSpace(t[0])) && (forall x | x in t :: x in s)
            && (s != "" && !IsSpace(s[0]) ==> t == s)
  {
    if s != "" && IsSpace(s[0]) {
      TrimLeftFacts(s[1..]);
    }
  }

  lemma {:induction false} TrimRightFacts(s: string)
    ensures var t := TrimRight(s);
            && |t| <= |s| && t == s[..|t|] && (t != "" ==> !IsSpace(t[|t| - 1]))
            && (s != "" && !IsSpace(s[|s| - 1]) ==> t == s)
  {
    if s != "" && IsSpace(s[|s| - 1]) {
      TrimRightFacts(s[..|s| - 1]);
    }
  }

  /** Trimming leaves exactly the trimmed texts alone, and adds no character. */
  lemma TrimFacts(s: string)
    ensures Trimmed(Trim(s)) && forall x | x in Trim(s) :: x in s
    ensures Trimmed(s) <==> Trim(s) == s
  {
    TrimLeftFacts(s);
    TrimRightFacts(TrimLeft(s));
  }

  lemma {:induction false} TrimLeftPad(pad: string, s: string)
    requires Blank(pad)
    ensures TrimLeft(pad + s) == TrimLeft(s)
  {
    if pad == "" {
      assert pad + s == s;
    } else {
      assert pad[0] in pad && (pad + s)[1..] == pad[1..] + s;
      TrimLeftPad(pad[1..], s);
    }
  }

  lemma {:induction false} TrimRightPad(s: string, pad: string)
    requires Blank(pad)
    ensures TrimRight(s + pad) == TrimRight(s)
  {
    if pad == "" {
      assert s + pad == s;
    } else {
      var n := |pad| - 1;
      assert pad[n] in pad && (s + pad)[..|s| + n] == s + pad[..n];
      TrimRightPad(s, pad[..n]);
    }
  }

  /** Trimming takes the white space around a text and nothing else. */
  lemma TrimPadded(before: string, s: string, after: string)
    requires Blank(before) && Blank(after) && Trimmed(s)
    ensures Trim(before + s + after) == s
  {
    assert before + s + after == before + (s + after);
    TrimLeftPad(before, s + after);
    if s == "" {
      assert s + after == after && after + "" == after;
      TrimLeftPad(after, "");
    } else {
      assert (s + after)[0] == s[0];
      TrimRightPad(s, after);
      TrimRightFacts(s);
    }
  }

  // ----- lists -----

  /** One piece of a list as its owner may have typed it. */
  ghost predicate Types(piece: string, item: string) {
    Trimmed(item) && exists a, b :: Blank(a) && Blank(b) && piece == a + item + b
  }

  function NonEmpty(items: seq<string>): seq<string> {
    if items == [] then []
    else NonEmpty(items[..|items| - 1]) + if items[|items| - 1] == "" then [] else [items[|items| - 1]]
  }

  lemma {:induction false} NonBlankReads(pieces: seq<string>, items: seq<string>)
    requires |pieces| == |items| && forall i | 0 <= i < |items| :: Types(pieces[i], items[i])
    ensures NonBlank(pieces) == NonEmpty(items)
  {
    if items != [] {
      var n := |items| - 1;
      NonBlankReads(pieces[..n], items[..n]);
      var a, b :| Blank(a) && Blank(b) && pieces[n] == a + items[n] + b;
      TrimPadded(a, items[n], b);
    }
  }

  /** A list reads as its items, whatever white space stands around them and however
      many pieces are blank. */
  lemma ListReads(pieces: seq<string>, items: seq<string>)
    requires pieces != [] && forall p | p in pieces :: ',' !in p
    requires |pieces| == |items| && forall i | 0 <= i < |items| :: Types(pieces[i], items[i])
    ensures CommaList(Join(pieces, ',')) == NonEmpty(items)
  {
    SplitOfJoin(pieces, ',');
    NonBlankReads(pieces, items);
  }

  lemma {:induction false} NoneEmpty(items: seq<string>)
    requires "" !in items
    ensures NonEmpty(items) == items
  {
    if items != [] {
      NoneEmpty(items[..|items| - 1]);
      assert items[|items| - 1] in items;
    }
  }

  /** The usual way to type a list: a comma and a space. */
  lemma CommaSpaceReads(first: string, second: string)
    requires first != "" && Trimmed(first) && ',' !in first
    requires second != "" && Trimmed(second) && ',' !in second
    ensures CommaList(first + ", " + second) == [first, second]
  {
    var pieces, items := [first, " " + second], [first, second];
    assert pieces[1..] == [" " + second];
    assert Join(pieces, ',') == first + [','] + (" " + second) == first + ", " + second;
    assert first == "" + first + "" && " " + second == " " + second + "";
    assert Blank("") && Blank(" ");
    assert Types(first, first) && Types(" " + second, second);
    NoneEmpty(items);
    ListReads(pieces, items);
  }

  // ----- letter case -----

  predicate IsLetter(c: char) {
    'a' <= c <= 'z' || 'A' <= c <= 'Z'
  }

  /** The same character, or the same letter in the other case. */
  predicate SameLetter(a: char, b: char) {
    a == b || (IsLetter(a) && IsLetter(b) && (a as int - b as int == 32 || b as int - a as int == 32))
  }

  predicate SameButCase(s: string, t: string) {
    |s| == |t| && forall i | 0 <= i < |s| :: SameLetter(s[i], t[i])
  }

  lemma LowerCharExact(a: char, b: char)
    ensures LowerChar(a) == LowerChar(b) <==> SameLetter(a, b)
    ensures IsSpace(LowerChar(a)) <==> IsSpace(a)
    ensures LowerChar(LowerChar(a)) == LowerChar(a)
  {
  }

  /** Lowering tells two texts apart exactly when more than letter case does. */
  lemma LowerExact(s: string, t: string)
    ensures Lower(s) == Lower(t) <==> SameButCase(s, t)
  {
    forall i | 0 <= i < |s| && i < |t| ensures LowerChar(s[i]) == LowerChar(t[i]) <==> SameLetter(s[i], t[i]) {
      LowerCharExact(s[i], t[i]);
    }
    if Lower(s) == Lower(t) {
      assert |s| == |Lower(s)| == |Lower(t)| == |t|;
      forall i | 0 <= i < |s| ensures SameLetter(s[i], t[i]) {
        assert Lower(s)[i] == Lower(t)[i];
      }
    }
  }

  lemma LowerTwice(s: string)
    ensures Lower(Lower(s)) == Lower(s)
    ensures Trimmed(Lower(s)) <==> Trimmed(s)
  {
    forall i | 0 <= i < |s| ensures LowerChar(LowerChar(s[i])) == LowerChar(s[i])
      ensures IsSpace(LowerChar(s[i])) <==> IsSpace(s[i])
    {
      LowerCharExact(s[i], s[i]);
    }
  }

  lemma {:induction false} TrimLeftLower(s: string)
    ensures TrimLeft(Lower(s)) == Lower(TrimLeft(s))
  {
    if s != "" {
      LowerCharExact(s[0], s[0]);
      assert Lower(s)[1..] == Lower(s[1..]);
      TrimLeftLower(s[1..]);
    }
  }

  lemma {:induction false} TrimRightLower(s: string)
    ensures TrimRight(Lower(s)) == Lower(TrimRight(s))
  {
    if s != "" {
      var n := |s| - 1;
      LowerCharExact(s[n], s[n]);
      assert Lower(s)[..n] == Lower(s[..n]);
      TrimRightLower(s[..n]);
    }
  }

  /** Lowering and trimming commute. */
  lemma TrimLower(s: string)
    ensures Trim(Lower(s)) == Lower(Trim(s))
  {
    TrimLeftLower(s);
    TrimRightLower(TrimLeft(s));
  }

  // ----- bytes -----

  function PlacesFrom(s: string, low: char): set<int> {
    set i | 0 <= i < |s| && s[i] >= low :: i
  }

  lemma PlacesSnoc(s: string, low: char)
    requires s != ""
    ensures |PlacesFrom(s, low)| == |PlacesFrom(s[..|s| - 1], low)| + if s[|s| - 1] >= low then 1 else 0
  {
    var n := |s| - 1;
    assert PlacesFrom(s, low) == PlacesFrom(s[..n], low) + if s[n] >= low then {n} else {};
  }

  /** One byte a character, one more from U+80, from U+800 and from U+10000 on. */
  lemma {:induction false} ByteLengthExact(s: string)
    ensures ByteLength(s) == |s| + |PlacesFrom(s, '\U{80}')| + |PlacesFrom(s, '\U{800}')|
      + |PlacesFrom(s, '\U{10000}')|
  {
    if s != "" {
      ByteLengthExact(s[..|s| - 1]);
      PlacesSnoc(s, '\U{80}');
      PlacesSnoc(s, '\U{800}');
      PlacesSnoc(s, '\U{10000}');
    }
  }
}
