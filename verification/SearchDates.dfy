/** Stored ISO dates: which are read, and what a range of user dates says of them. */
module SearchDates {
  import opened Options
  import opened Texts
  import opened IsoDates
  import opened SearchNumbers
  import opened StoredType
  import opened SearchSemantics
  import opened SearchSoundness
  import opened SearchRanges

  function DayDigits(d: Day): string
    requires ValidDay(d)
  {
    Four(d.year) + Two(d.month) + Two(d.day)
  }

  lemma TwoDigits(n: nat)
    requires n < 100
    ensures AllDigits(Two(n)) && Two(n)[0] == Digit(n / 10)
  {
  }

  lemma {:induction false} ReadNatIsBounded(s: string)
    requires AllDigits(s)
    ensures ReadNat(s) < Pow10(|s|)
    decreases |s|
  {
    if s != "" {
      ReadNatIsBounded(s[..|s| - 1]);
    }
  }

  lemma EightDigits()
    ensures Pow10(8) == 100_000_000
  {
    assert Pow10(2) == 100 && Pow10(4) == 10_000 && Pow10(6) == 1_000_000;
  }

  /** The date's digits read as a canonical integer unless the year is written with a zero. */
  lemma DigitsAreCanonical(d: Day)
    requires ValidDay(d)
    ensures IsInt64Text(DayDigits(d)) <==> d.year >= 1000
  {
    var s := DayDigits(d);
    TwoDigits(d.year / 100);
    TwoDigits(d.year % 100);
    TwoDigits(d.month);
    TwoDigits(d.day);
    assert s[0] == Digit(d.year / 100 / 10);
    assert AllDigits(s) && |s| == 8;
    ReadNatIsBounded(s);
    EightDigits();
    assert s[0] == '0' <==> d.year < 1000;
    assert Unsigned(s) == s;
  }

  /** The slices the reader takes of a text that starts with a date. */
  lemma Slices(e: string, d: Day)
    requires ValidDay(d) && |e| >= 10 && e[..10] == IsoDay(d)
    ensures Cut(e, 0, 4) == Four(d.year) && Cut(e, 4, 5) == "-" && Cut(e, 5, 7) == Two(d.month)
    ensures Cut(e, 7, 8) == "-" && Cut(e, 8, 10) == Two(d.day) && Cut(e, 0, 10) == IsoDay(d)
  {
    IsoDayParts(d);
    assert e[0..4] == e[..10][0..4] && e[4..5] == e[..10][4..5] && e[5..7] == e[..10][5..7];
    assert e[7..8] == e[..10][7..8] && e[8..10] == e[..10][8..10];
    assert IsoDay(d)[0..4] == Two(d.year / 100) + Two(d.year % 100);
  }

  lemma NoSpaceInTwo(n: nat)
    requires n < 100
    ensures Two(n)[0] != ' ' && Two(n)[1] != ' '
  {
  }

  lemma NoSpaces(t: Stamp)
    requires ValidStamp(t)
    ensures forall i :: 0 <= i < 19 ==> IsoSecond(t)[i] != ' '
  {
    NoSpaceInTwo(t.day.year / 100);
    NoSpaceInTwo(t.day.year % 100);
    NoSpaceInTwo(t.day.month);
    NoSpaceInTwo(t.day.day);
    NoSpaceInTwo(t.hour);
    NoSpaceInTwo(t.minute);
    NoSpaceInTwo(t.second);
    assert forall i :: 0 <= i < 10 ==> IsoDay(t.day)[i] != ' ';
    assert forall i :: 0 <= i < 8 ==> IsoTime(t)[i] != ' ';
  }

  lemma BlankedIsSame(s: string)
    requires forall i :: 0 <= i < |s| ==> s[i] != ' '
    ensures Blanked(s) == s
  {
  }

  function KeyAt(t: Stamp, grain: Grain): Key
    requires ValidStamp(t)
  {
    DateKey(if grain == ByDay then IsoDay(t.day) else IsoSecond(t))
  }

  /** A stored date-time is read, at either grain, exactly when its year has four digits. */
  lemma StoredStampReads(t: Stamp, grain: Grain)
    requires ValidStamp(t)
    ensures StoredDate(Str(IsoSecond(t)), Some(grain)) == if t.day.year >= 1000 then Some(KeyAt(t, grain)) else None
  {
    var e := IsoSecond(t);
    assert e[..10] == IsoDay(t.day);
    Slices(e, t.day);
    DigitsAreCanonical(t.day);
    if grain == BySecond {
      assert Cut(e, 0, 19) == e;
      NoSpaces(t);
      BlankedIsSame(e);
      assert e + TEMPLATE[19..] == e;
    }
  }

  function DateRange(p: Dates, im: bool): Comparison {
    Comparison(Between, Some(KDate), DateKeys(p.keys), Some(p.grain), false, im)
  }

  lemma DateValues(h: Host, a: Value, b: Value, cs: bool, im: bool, p: Dates)
    requires ResolveDates(h, Between, [a, b]) == Some(p)
    ensures ResolvePair(h, a, b, As(KDate), cs, im) == Ok(DateRange(p, im))
  {
    assert ResolveKind(h, Between, [a, b], As(KDate)) == TypedAs(KDate);
  }

  lemma BothDates(h: Host, a: Value, b: Value)
    requires UserDateOf(h, a).Some? && UserDateOf(h, b).Some?
    ensures ResolveDates(h, Between, [a, b]) == Some(PairDates(UserDateOf(h, a).value, UserDateOf(h, b).value))
  {
    assert [a, b][0] == a && [a, b][1] == b;
  }

  /** What two user dates resolve to. */
  lemma DateRangeResolves(h: Host, a: Value, b: Value, cs: bool, im: bool, p: Dates)
    requires ResolveDates(h, Between, [a, b]) == Some(p) && IsGiven(a) && IsGiven(b) && a.Str? && b.Str?
    ensures Resolve(h, Between, List([a, b]), As(KDate), cs, im) == Ok(DateRange(p, im))
  {
    PairResolves(h, a, b, As(KDate), cs, im);
    DateValues(h, a, b, cs, im, p);
  }

  lemma DateRangeMeans(h: Host, p: Dates, im: bool, stored: Value, k: string)
    requires |p.keys| == 2 && !stored.List? && StoredDate(stored, Some(p.grain)) == Some(DateKey(k))
    ensures Evaluate(h, stored, DateRange(p, im)) == Sure(!LexLess(k, p.keys[0]) && !LexLess(p.keys[1], k))
  {
    var c := DateRange(p, im);
    MeansOnKeys(h, stored, c, c);
    var ks, vs := KeysOf(h, Elements(stored), c), Comparable(h, c);
    OneDateKey(h, stored, c, k);
    assert vs[0] == DateKey(p.keys[0]) && vs[1] == DateKey(p.keys[1]);
    assert ks[0] == DateKey(k);
    assert SomeMeets(ks, Between, vs) <==> Meets(ks[0], Between, vs);
  }

  lemma OneDateKey(h: Host, stored: Value, c: Comparison, k: string)
    requires !stored.List? && c.kind == Some(KDate) && StoredDate(stored, c.grain) == Some(DateKey(k))
    ensures KeysOf(h, Elements(stored), c) == [DateKey(k)]
  {
    assert Elements(stored)[1..] == [];
    assert KeysOf(h, Elements(stored), c) == [DateKey(k)] + KeysOf(h, [], c);
  }

  lemma RangeOfDatesMeansTime(h: Host, u: UserDate, v: UserDate, im: bool, x: Stamp)
    requires ValidDate(u) && ValidDate(v) && ValidStamp(x) && x.day.year >= 1000
    ensures Evaluate(h, Str(IsoSecond(x)), DateRange(PairDates(u, v), im))
         == Sure(if StartsBefore(v, u) then Within(x, v, u) else Within(x, u, v))
  {
    var p := PairDates(u, v);
    BoundsAreOrdered(u, v);
    StoredStampReads(x, p.grain);
    DateRangeMeans(h, p, im, Str(IsoSecond(x)), KeyAt(x, p.grain).iso);
    PairMeansRange(u, v, x);
  }

  /**
   Typed, resolved and evaluated: a stored date-time lies between two user dates, written at any
   grain and in any order, exactly when it does in time.
   */
  lemma BetweenDatesMeansTime(h: Host, a: Value, b: Value, cs: bool, im: bool, x: Stamp)
    requires UserDateOf(h, a).Some? && UserDateOf(h, b).Some? && IsGiven(a) && IsGiven(b)
    requires ValidStamp(x) && x.day.year >= 1000
    ensures Resolve(h, Between, List([a, b]), As(KDate), cs, im).Ok?
    ensures var u, v := UserDateOf(h, a).value, UserDateOf(h, b).value;
            Evaluate(h, Str(IsoSecond(x)), Resolve(h, Between, List([a, b]), As(KDate), cs, im).c)
            == Sure(if StartsBefore(v, u) then Within(x, v, u) else Within(x, u, v))
  {
    BothDates(h, a, b);
    var u, v := UserDateOf(h, a).value, UserDateOf(h, b).value;
    DateRangeResolves(h, a, b, cs, im, PairDates(u, v));
    RangeOfDatesMeansTime(h, u, v, im, x);
  }
}
