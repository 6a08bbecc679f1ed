/** What the validator takes, field by field, said by the field's own characters
    and numbers. A valid set with one field of one rule replaced, or with a rule
    more, is valid exactly when the new value is in its range; every set can be
    built that way from the empty one. */
module Acceptance {
  import opened Text
  import opened TextFacts
  import opened Rules

  // ----- times of day -----

  function Figure(n: nat): char
    requires n <= 9
  {
    "0123456789"[n]
  }

  function TwoFigures(n: nat): string
    requires n <= 99
  {
    [Figure(n / 10), Figure(n % 10)]
  }

  /** Hour and minute as two figures, a colon and two figures. */
  function ClockText(h: nat, m: nat): string
    requires h <= 99 && m <= 99
  {
    TwoFigures(h) + ":" + TwoFigures(m)
  }

  lemma FigureExact(c: char)
    ensures IsDigit(c) <==> exists n: nat :: n <= 9 && c == Figure(n)
    ensures forall n: nat | n <= 9 :: Figure(n) as int == '0' as int + n
  {
    if IsDigit(c) {
      var n: nat := c as int - '0' as int;
      assert c == Figure(n);
    }
  }

  lemma FiguresRead(n: nat)
    requires n <= 99
    ensures AtoiTwo(TwoFigures(n)[0], TwoFigures(n)[1]) == Some(n)
  {
    FigureExact(Figure(n / 10));
    FigureExact(Figure(n % 10));
  }

  /** The times of day are 00:00 to 23:59. */
  lemma ClockTaken(h: nat, m: nat)
    requires h <= 99 && m <= 99
    ensures IsHHMM(ClockText(h, m)) <==> h <= 23 && m <= 59
  {
    FiguresRead(h);
    FiguresRead(m);
    var s := ClockText(h, m);
    assert s == [TwoFigures(h)[0], TwoFigures(h)[1], ':', TwoFigures(m)[0], TwoFigures(m)[1]];
  }

  /** Two characters the hour or minute field takes: two figures, or one behind a
      plus sign, or a negative zero. */
  ghost predicate FieldText(t: string, most: nat) {
    || t == "-0"
    || (exists n: nat :: n <= most && n <= 9 && t == ['+', Figure(n)])
    || (exists n: nat :: n <= most && n <= 99 && t == TwoFigures(n))
  }

  predicate Reads(a: char, b: char, most: nat) {
    AtoiTwo(a, b).Some? && 0 <= AtoiTwo(a, b).value <= most
  }

  lemma FieldRead(a: char, b: char, most: nat)
    requires FieldText([a, b], most)
    ensures Reads(a, b, most)
  {
    var t := [a, b];
    assert a == t[0] && b == t[1];
    if n: nat :| n <= most && n <= 99 && t == TwoFigures(n) {
      FiguresRead(n);
    } else if n: nat :| n <= most && n <= 9 && t == ['+', Figure(n)] {
      FigureExact(b);
    } else {
      assert t == "-0";
    }
  }

  lemma FieldWritten(a: char, b: char, most: nat)
    requires Reads(a, b, most)
    ensures FieldText([a, b], most)
  {
    var n: nat := AtoiTwo(a, b).value;
    FigureExact(a);
    FigureExact(b);
    if IsDigit(a) {
      assert Figure(n / 10) == a && Figure(n % 10) == b;
      assert [a, b] == TwoFigures(n);
    } else if a == '+' {
      assert [a, b] == ['+', Figure(n)];
    } else {
      assert [a, b] == "-0";
    }
  }

  lemma FieldExact(a: char, b: char, most: nat)
    ensures FieldText([a, b], most) <==> Reads(a, b, most)
  {
    if FieldText([a, b], most) {
      FieldRead(a, b, most);
    } else if Reads(a, b, most) {
      FieldWritten(a, b, most);
    }
  }

  /** Every text a schedule may hold as a time of day. */
  lemma TimeTextsExact(s: string)
    ensures IsHHMM(s) <==> |s| == 5 && s[2] == ':' && FieldText(s[..2], 23) && FieldText(s[3..], 59)
  {
    if |s| == 5 {
      assert s[..2] == [s[0], s[1]] && s[3..] == [s[3], s[4]];
      FieldExact(s[0], s[1], 23);
      FieldExact(s[3], s[4], 59);
    }
  }

  // ----- one rule at a time -----

  function With(rs: RuleSet, i: nat, r: Rule): RuleSet
    requires i < |rs.rules|
  {
    rs.(rules := rs.rules[i := r])
  }

  /** Some other rule of the set has the id. */
  predicate Taken(rs: RuleSet, i: nat, id: string) {
    exists j | 0 <= j < |rs.rules| && j != i :: rs.rules[j].id == id
  }

  lemma SwapDistinct(rs: RuleSet, i: nat, r: Rule)
    requires DistinctIDs(rs.rules) && i < |rs.rules|
    ensures DistinctIDs(With(rs, i, r).rules) <==> r.id == "" || !Taken(rs, i, r.id)
  {
    var now := With(rs, i, r).rules;
    if r.id != "" && Taken(rs, i, r.id) {
      var j :| 0 <= j < |rs.rules| && j != i && rs.rules[j].id == r.id;
      assert now[if i < j then i else j].id == now[if i < j then j else i].id;
    }
  }

  /** A rule replaced in a valid set. */
  lemma Swapped(net: NetParser, rs: RuleSet, i: nat, r: Rule)
    requires Valid(net, rs) && i < |rs.rules|
    ensures Valid(net, With(rs, i, r)) <==> ValidRule(net, r) && (r.id == "" || !Taken(rs, i, r.id))
    ensures r.id == rs.rules[i].id ==> (Valid(net, With(rs, i, r)) <==> ValidRule(net, r))
  {
    var now := With(rs, i, r);
    assert now.rules[i] == r && r in now.rules;
    assert forall x | x in now.rules :: x == r || x in rs.rules;
    assert ValidHeader(net, now);
    SwapDistinct(rs, i, r);
  }

  /** The empty set is valid, and a rule more is taken while there are fewer than 256,
      if it is valid on its own and no other rule has its id. */
  lemma OneMoreTaken(net: NetParser, rs: RuleSet, r: Rule)
    requires Valid(net, rs)
    ensures Valid(net, rs.(rules := [])) && ValidHeader(net, rs.(rules := []))
    ensures Valid(net, rs.(rules := rs.rules + [r])) <==>
      |rs.rules| < 256 && ValidRule(net, r) && (r.id == "" || !Taken(rs, |rs.rules|, r.id))
  {
    var now := rs.rules + [r];
    assert now[|rs.rules|] == r && r in now;
    assert forall x | x in now :: x == r || x in rs.rules;
    assert forall x | x in rs.rules :: x in now;
    if r.id != "" && Taken(rs, |rs.rules|, r.id) {
      var j :| 0 <= j < |rs.rules| && rs.rules[j].id == r.id;
      assert now[j].id == now[|rs.rules|].id;
    }
    if DistinctIDs(now) {
      assert forall i, j | 0 <= i < j < |rs.rules| :: now[i] == rs.rules[i] && now[j] == rs.rules[j];
    }
  }

  /** The fields above the rules. */
  lemma HeaderTaken(net: NetParser, rs: RuleSet, policy: Policy, lan: string, hostIP: string, v6Drop: seq<int>)
    requires Valid(net, rs)
    ensures Valid(net, rs.(policy := policy, lan := lan, hostIP := hostIP, v6Drop := v6Drop)) <==>
      && (policy == DenyPolicy || policy == AllowPolicy)
      && (lan == "" || net.isIPv4CIDR(lan)) && (hostIP == "" || net.isIPv4(hostIP))
      && |v6Drop| <= 128 && forall p | p in v6Drop :: 1 <= p <= 65535
  {
    var now := rs.(policy := policy, lan := lan, hostIP := hostIP, v6Drop := v6Drop);
    assert Valid(net, now) <==> ValidHeader(net, now);
  }

  /** A rule's id is at most sixteen letters, figures, dashes and underscores, and no
      other rule's. */
  lemma IdTaken(net: NetParser, rs: RuleSet, i: nat, id: string)
    requires Valid(net, rs) && i < |rs.rules|
    ensures Valid(net, With(rs, i, rs.rules[i].(id := id))) <==>
      && |id| <= 16 && (forall c | c in id :: IsLetter(c) || IsDigit(c) || c == '-' || c == '_')
      && (id == "" || !Taken(rs, i, id))
  {
    Swapped(net, rs, i, rs.rules[i].(id := id));
    assert ValidRule(net, rs.rules[i]);
  }

  lemma BindingTaken(net: NetParser, rs: RuleSet, i: nat, cid: string)
    requires Valid(net, rs) && i < |rs.rules|
    ensures Valid(net, With(rs, i, rs.rules[i].(containerId := cid))) <==>
      |cid| <= 64 && forall c | c in cid :: IsLetter(c) || IsDigit(c) || c == '-' || c == '_' || c == '.'
  {
    Swapped(net, rs, i, rs.rules[i].(containerId := cid));
    assert ValidRule(net, rs.rules[i]);
  }

  /** A name of any text but the empty one, a note of at most 256 bytes. */
  lemma TextTaken(net: NetParser, rs: RuleSet, i: nat, name: string, notes: string)
    requires Valid(net, rs) && i < |rs.rules|
    ensures Valid(net, With(rs, i, rs.rules[i].(name := name, notes := notes))) <==>
      && name != ""
      && |notes| + |PlacesFrom(notes, '\U{80}')| + |PlacesFrom(notes, '\U{800}')| + |PlacesFrom(notes, '\U{10000}')|
           <= 256
  {
    Swapped(net, rs, i, rs.rules[i].(name := name, notes := notes));
    ByteLengthExact(notes);
    assert ValidRule(net, rs.rules[i]);
  }

  /** Every known word is taken and no other. */
  lemma WordsTaken(net: NetParser, rs: RuleSet, i: nat, action: Action, protocol: Protocol, zone: Zone,
                   direction: Direction)
    requires Valid(net, rs) && i < |rs.rules|
    ensures Valid(net, With(rs, i, rs.rules[i].(action := action, protocol := protocol, zone := zone,
                                                direction := direction)))
       <==> !action.OtherAction? && !protocol.OtherProtocol? && !zone.OtherZone? && !direction.OtherDirection?
  {
    Swapped(net, rs, i, rs.rules[i].(action := action, protocol := protocol, zone := zone, direction := direction));
    assert ValidRule(net, rs.rules[i]);
  }

  /** One to 128 ports from 1 to 65535, a range of such ports in order, or all. */
  lemma PortsTaken(net: NetParser, rs: RuleSet, i: nat, list: seq<int>, from: int, to: int)
    requires Valid(net, rs) && i < |rs.rules|
    ensures Valid(net, With(rs, i, rs.rules[i].(ports := Ports(AllPorts, list, from, to))))
    ensures Valid(net, With(rs, i, rs.rules[i].(ports := Ports(ListPorts, list, from, to)))) <==>
      1 <= |list| <= 128 && forall p | p in list :: 1 <= p <= 65535
    ensures Valid(net, With(rs, i, rs.rules[i].(ports := Ports(RangePorts, list, from, to)))) <==>
      1 <= from <= to <= 65535
    ensures !Valid(net, With(rs, i, rs.rules[i].(ports := Ports(OtherPorts, list, from, to))))
  {
    Swapped(net, rs, i, rs.rules[i].(ports := Ports(AllPorts, list, from, to)));
    Swapped(net, rs, i, rs.rules[i].(ports := Ports(ListPorts, list, from, to)));
    Swapped(net, rs, i, rs.rules[i].(ports := Ports(RangePorts, list, from, to)));
    Swapped(net, rs, i, rs.rules[i].(ports := Ports(OtherPorts, list, from, to)));
    assert ValidRule(net, rs.rules[i]);
  }

  lemma LimitTaken(net: NetParser, rs: RuleSet, i: nat, conn: int, seconds: int)
    requires Valid(net, rs) && i < |rs.rules|
    ensures Valid(net, With(rs, i, rs.rules[i].(rateLimit := None)))
    ensures Valid(net, With(rs, i, rs.rules[i].(rateLimit := Some(RateLimit(conn, seconds))))) <==>
      1 <= conn <= 1000 && 1 <= seconds <= 3600
  {
    Swapped(net, rs, i, rs.rules[i].(rateLimit := None));
    Swapped(net, rs, i, rs.rules[i].(rateLimit := Some(RateLimit(conn, seconds))));
    assert ValidRule(net, rs.rules[i]);
  }

  const DAYS: seq<string> := ["mon", "tue", "wed", "thu", "fri", "sat", "sun"]

  /** A day's name in any letter case. */
  predicate NamesDay(d: string) {
    exists i | 0 <= i < |DAYS| :: SameButCase(d, DAYS[i])
  }

  lemma LowNames(i: nat)
    requires i < |DAYS|
    ensures Lower(DAYS[i]) == DAYS[i]
  {
  }

  lemma DayExact(d: string)
    ensures Lower(d) in {"mon", "tue", "wed", "thu", "fri", "sat", "sun"} <==> NamesDay(d)
  {
    forall i | 0 <= i < |DAYS| ensures Lower(d) == DAYS[i] <==> SameButCase(d, DAYS[i]) {
      LowNames(i);
      LowerExact(d, DAYS[i]);
    }
    if Lower(d) in {"mon", "tue", "wed", "thu", "fri", "sat", "sun"} {
      assert || Lower(d) == DAYS[0] || Lower(d) == DAYS[1] || Lower(d) == DAYS[2] || Lower(d) == DAYS[3]
             || Lower(d) == DAYS[4] || Lower(d) == DAYS[5] || Lower(d) == DAYS[6];
    }
  }

  /** Any two times of day and up to seven names of days: "18:00" to "23:00" on "Mon"
      is taken, "24:00" and "12:60" are not. */
  lemma ScheduleTaken(net: NetParser, rs: RuleSet, i: nat, h: nat, m: nat, h': nat, m': nat, days: seq<string>)
    requires Valid(net, rs) && i < |rs.rules| && h <= 99 && m <= 99 && h' <= 99 && m' <= 99
    ensures Valid(net, With(rs, i, rs.rules[i].(schedule := None)))
    ensures var s := Schedule(ClockText(h, m), ClockText(h', m'), days);
            Valid(net, With(rs, i, rs.rules[i].(schedule := Some(s)))) <==>
              h <= 23 && m <= 59 && h' <= 23 && m' <= 59 && |days| <= 7 && forall d | d in days :: NamesDay(d)
  {
    var s := Schedule(ClockText(h, m), ClockText(h', m'), days);
    Swapped(net, rs, i, rs.rules[i].(schedule := None));
    Swapped(net, rs, i, rs.rules[i].(schedule := Some(s)));
    ClockTaken(h, m);
    ClockTaken(h', m');
    forall d | d in days ensures Lower(d) in {"mon", "tue", "wed", "thu", "fri", "sat", "sun"} <==> NamesDay(d) {
      DayExact(d);
    }
    assert ValidRule(net, rs.rules[i]);
  }

  /** Any source, or an address or a range the parsers take. */
  lemma SourceTaken(net: NetParser, rs: RuleSet, i: nat, value: string)
    requires Valid(net, rs) && i < |rs.rules|
    ensures Valid(net, With(rs, i, rs.rules[i].(source := Source(AnySource, value))))
    ensures Valid(net, With(rs, i, rs.rules[i].(source := Source(IpSource, value)))) <==> net.isIP(value)
    ensures Valid(net, With(rs, i, rs.rules[i].(source := Source(RangeSource, value)))) <==> net.isCIDR(value)
    ensures !Valid(net, With(rs, i, rs.rules[i].(source := Source(OtherSource, value))))
  {
    Swapped(net, rs, i, rs.rules[i].(source := Source(AnySource, value)));
    Swapped(net, rs, i, rs.rules[i].(source := Source(IpSource, value)));
    Swapped(net, rs, i, rs.rules[i].(source := Source(RangeSource, value)));
    Swapped(net, rs, i, rs.rules[i].(source := Source(OtherSource, value)));
    assert ValidRule(net, rs.rules[i]);
  }

  lemma CountryExact(c: string)
    ensures |c| == 2 && IsAlpha(c) <==> |c| == 2 && IsLetter(c[0]) && IsLetter(c[1])
  {
    if |c| == 2 {
      assert c[0] in c && c[1] in c && forall x | x in c :: x == c[0] || x == c[1];
    }
  }

  lemma CountriesExact(net: NetParser, value: string, codes: seq<string>)
    requires CommaList(value) == codes
    ensures ValidSource(net, Source(CountrySource, value)) <==>
      1 <= |codes| <= 32 && forall c | c in codes :: |c| == 2 && IsLetter(c[0]) && IsLetter(c[1])
  {
    forall c | c in codes ensures |c| == 2 && IsAlpha(c) <==> |c| == 2 && IsLetter(c[0]) && IsLetter(c[1]) {
      CountryExact(c);
    }
  }

  /** One to 32 countries of two letters each, with any white space and any number of
      blank items between the commas. */
  lemma CountriesTaken(net: NetParser, rs: RuleSet, i: nat, pieces: seq<string>, codes: seq<string>)
    requires Valid(net, rs) && i < |rs.rules|
    requires pieces != [] && forall p | p in pieces :: ',' !in p
    requires |pieces| == |codes| && forall j | 0 <= j < |codes| :: Types(pieces[j], codes[j])
    ensures Valid(net, With(rs, i, rs.rules[i].(source := Source(CountrySource, Join(pieces, ','))))) <==>
      1 <= |NonEmpty(codes)| <= 32
      && forall c | c in NonEmpty(codes) :: |c| == 2 && IsLetter(c[0]) && IsLetter(c[1])
  {
    Swapped(net, rs, i, rs.rules[i].(source := Source(CountrySource, Join(pieces, ','))));
    ListReads(pieces, codes);
    CountriesExact(net, Join(pieces, ','), NonEmpty(codes));
    assert ValidRule(net, rs.rules[i]);
  }
}
