/** Dates as fixed-width ISO text, and the bounds a pair of user dates stands for. */
module IsoDates {
  import opened Options
  import opened Texts

  datatype Day = Day(year: nat, month: nat, day: nat)

  datatype Stamp = Stamp(day: Day, hour: nat, minute: nat, second: nat)

  predicate Leap(year: nat) {
    year % 4 == 0 && (year % 100 != 0 || year % 400 == 0)
  }

  function DaysIn(year: nat, month: nat): nat {
    if month == 2 then (if Leap(year) then 29 else 28)
    else if month == 4 || month == 6 || month == 9 || month == 11 then 30
    else 31
  }

  predicate ValidDay(d: Day) {
    1 <= d.year <= 9999 && 1 <= d.month <= 12 && 1 <= d.day <= DaysIn(d.year, d.month)
  }

  predicate ValidStamp(t: Stamp) {
    ValidDay(t.day) && t.hour < 24 && t.minute < 60 && t.second < 60
  }

  predicate DayBefore(a: Day, b: Day) {
    a.year < b.year || (a.year == b.year && (a.month < b.month || (a.month == b.month && a.day < b.day)))
  }

  predicate TimeBefore(a: Stamp, b: Stamp) {
    a.hour < b.hour || (a.hour == b.hour && (a.minute < b.minute || (a.minute == b.minute && a.second < b.second)))
  }

  predicate StampBefore(a: Stamp, b: Stamp) {
    DayBefore(a.day, b.day) || (a.day == b.day && TimeBefore(a, b))
  }

  // ---- the texts ----

  function Two(n: nat): (s: string)
    requires n < 100
    ensures |s| == 2
  {
    [Digit(n / 10)] + [Digit(n % 10)]
  }

  function Four(n: nat): (s: string)
    requires n < 10000
    ensures |s| == 4
  {
    Two(n / 100) + Two(n % 100)
  }

  function IsoDay(d: Day): (s: string)
    requires ValidDay(d)
    ensures |s| == 10
  {
    Four(d.year) + ("-" + (Two(d.month) + ("-" + Two(d.day))))
  }

  function IsoTime(t: Stamp): (s: string)
    requires ValidStamp(t)
    ensures |s| == 8
  {
    Two(t.hour) + (":" + (Two(t.minute) + (":" + Two(t.second))))
  }

  function IsoSecond(t: Stamp): (s: string)
    requires ValidStamp(t)
    ensures |s| == 19
  {
    IsoDay(t.day) + ("T" + IsoTime(t))
  }

  // ---- text order is time order ----

  lemma TwoOrder(a: nat, b: nat)
    requires a < 100 && b < 100
    ensures (LexLess(Two(a), Two(b)) <==> a < b) && (Two(a) == Two(b) <==> a == b)
  {
    LexConcat([Digit(a / 10)], [Digit(a % 10)], [Digit(b / 10)], [Digit(b % 10)]);
    LexDigit(a / 10, b / 10);
    LexDigit(a % 10, b % 10);
    assert Two(a)[0] == Digit(a / 10) && Two(a)[1] == Digit(a % 10);
    assert Two(b)[0] == Digit(b / 10) && Two(b)[1] == Digit(b % 10);
  }

  lemma SplitEqual(a: string, x: string, b: string, y: string)
    requires |a| == |b|
    ensures a + x == b + y <==> a == b && x == y
  {
    if a + x == b + y {
      assert a == (a + x)[..|a|] == (b + y)[..|b|] == b;
      assert x == (a + x)[|a|..] == (b + y)[|b|..] == y;
    }
  }

  lemma FourOrder(a: nat, b: nat)
    requires a < 10000 && b < 10000
    ensures (LexLess(Four(a), Four(b)) <==> a < b) && (Four(a) == Four(b) <==> a == b)
  {
    LexConcat(Two(a / 100), Two(a % 100), Two(b / 100), Two(b % 100));
    SplitEqual(Two(a / 100), Two(a % 100), Two(b / 100), Two(b % 100));
    TwoOrder(a / 100, b / 100);
    TwoOrder(a % 100, b % 100);
  }

  /** A field, one separator, the rest. */
  lemma FieldOrder(a: string, sep: string, x: string, b: string, y: string)
    requires |a| == |b| && |sep| == 1
    ensures LexLess(a + (sep + x), b + (sep + y)) <==> LexLess(a, b) || (a == b && LexLess(x, y))
    ensures a + (sep + x) == b + (sep + y) <==> a == b && x == y
  {
    LexConcat(a, sep + x, b, sep + y);
    LexConcat(sep, x, sep, y);
    LexIrreflexive(sep);
    SplitEqual(a, sep + x, b, sep + y);
    SplitEqual(sep, x, sep, y);
  }

  lemma IsoDayOrder(a: Day, b: Day)
    requires ValidDay(a) && ValidDay(b)
    ensures (LexLess(IsoDay(a), IsoDay(b)) <==> DayBefore(a, b)) && (IsoDay(a) == IsoDay(b) <==> a == b)
  {
    FieldOrder(Four(a.year), "-", Two(a.month) + ("-" + Two(a.day)), Four(b.year), Two(b.month) + ("-" + Two(b.day)));
    FieldOrder(Two(a.month), "-", Two(a.day), Two(b.month), Two(b.day));
    FourOrder(a.year, b.year);
    TwoOrder(a.month, b.month);
    TwoOrder(a.day, b.day);
  }

  lemma IsoTimeOrder(a: Stamp, b: Stamp)
    requires ValidStamp(a) && ValidStamp(b)
    ensures LexLess(IsoTime(a), IsoTime(b)) <==> TimeBefore(a, b)
    ensures IsoTime(a) == IsoTime(b) <==> a.hour == b.hour && a.minute == b.minute && a.second == b.second
  {
    FieldOrder(Two(a.hour), ":", Two(a.minute) + (":" + Two(a.second)), Two(b.hour),
               Two(b.minute) + (":" + Two(b.second)));
    FieldOrder(Two(a.minute), ":", Two(a.second), Two(b.minute), Two(b.second));
    TwoOrder(a.hour, b.hour);
    TwoOrder(a.minute, b.minute);
    TwoOrder(a.second, b.second);
  }

  /** Fixed-width ISO text sorts as time does, and different times have different texts. */
  lemma IsoOrderIsTimeOrder(a: Stamp, b: Stamp)
    requires ValidStamp(a) && ValidStamp(b)
    ensures (LexLess(IsoSecond(a), IsoSecond(b)) <==> StampBefore(a, b)) && (IsoSecond(a) == IsoSecond(b) <==> a == b)
  {
    FieldOrder(IsoDay(a.day), "T", IsoTime(a), IsoDay(b.day), IsoTime(b));
    IsoDayOrder(a.day, b.day);
    IsoTimeOrder(a, b);
  }

  // ---- user dates ----

  /** A date someone typed: a calendar day, or a moment to the second. */
  datatype UserDate = OnDay(day: Day) | At(stamp: Stamp)

  predicate ValidDate(u: UserDate) {
    match u
    case OnDay(d) => ValidDay(d)
    case At(t) => ValidStamp(t)
  }

  function DateText(u: UserDate): string
    requires ValidDate(u)
  {
    match u
    case OnDay(d) => IsoDay(d)
    case At(t) => IsoSecond(t)
  }

  datatype Grain = ByDay | BySecond

  datatype Dates = Dates(keys: seq<string>, grain: Grain)

  function FirstSecond(d: Day): Stamp {
    Stamp(d, 0, 0, 0)
  }

  function LastSecond(d: Day): Stamp {
    Stamp(d, 23, 59, 59)
  }

  /** To the second, a day is its first second, or its last where it closes a range. */
  function SecondText(u: UserDate, closes: bool): string
    requires ValidDate(u)
  {
    match u
    case OnDay(d) => IsoDay(d) + (if closes then "T23:59:59" else "T00:00:00")
    case At(t) => IsoSecond(t)
  }

  function OneDate(u: UserDate): Dates
    requires ValidDate(u)
  {
    Dates([DateText(u)], if u.OnDay? then ByDay else BySecond)
  }

  function PairDates(u: UserDate, v: UserDate): Dates
    requires ValidDate(u) && ValidDate(v)
  {
    var (lo, hi) := if LexLess(DateText(v), DateText(u)) then (v, u) else (u, v);
    if u.OnDay? && v.OnDay? then Dates([DateText(lo), DateText(hi)], ByDay)
    else Dates([SecondText(lo, false), SecondText(hi, true)], BySecond)
  }

  lemma EdgeTexts(d: Day)
    requires ValidDay(d)
    ensures IsoDay(d) + "T00:00:00" == IsoSecond(FirstSecond(d))
    ensures IsoDay(d) + "T23:59:59" == IsoSecond(LastSecond(d))
  {
    assert "T" + IsoTime(FirstSecond(d)) == "T00:00:00";
    assert "T" + IsoTime(LastSecond(d)) == "T23:59:59";
  }

  function AsStamp(u: UserDate, closes: bool): (t: Stamp)
    requires ValidDate(u)
    ensures ValidStamp(t)
  {
    match u
    case OnDay(d) => if closes then LastSecond(d) else FirstSecond(d)
    case At(t) => t
  }

  lemma SecondTextIsStamp(u: UserDate, closes: bool)
    requires ValidDate(u)
    ensures SecondText(u, closes) == IsoSecond(AsStamp(u, closes))
  {
    if u.OnDay? {
      EdgeTexts(u.day);
    }
  }

  /** The day is a prefix of its moments, so it sorts before all of them. */
  lemma MixedOrder(d: Day, t: Stamp)
    requires ValidDay(d) && ValidStamp(t)
    ensures LexLess(IsoSecond(t), IsoDay(d)) <==> DayBefore(t.day, d)
    ensures LexLess(IsoDay(d), IsoSecond(t)) <==> !DayBefore(t.day, d)
  {
    LexConcat(IsoDay(t.day), "T" + IsoTime(t), IsoDay(d), "");
    LexConcat(IsoDay(d), "", IsoDay(t.day), "T" + IsoTime(t));
    assert IsoDay(d) + "" == IsoDay(d);
    IsoDayOrder(t.day, d);
    IsoDayOrder(d, t.day);
  }

  /** The earlier of two user dates in the order the pair is sorted. */
  lemma SortedPair(u: UserDate, v: UserDate)
    requires ValidDate(u) && ValidDate(v)
    ensures LexLess(DateText(v), DateText(u)) <==> StartsBefore(v, u)
  {
    match (u, v)
    case (OnDay(a), OnDay(b)) => IsoDayOrder(b, a);
    case (OnDay(a), At(t)) => MixedOrder(a, t);
    case (At(t), OnDay(b)) => MixedOrder(b, t);
    case (At(a), At(b)) => IsoOrderIsTimeOrder(b, a);
  }

  /** In time: a day starts before every moment on it. */
  predicate StartsBefore(u: UserDate, v: UserDate) {
    match (u, v)
    case (OnDay(a), OnDay(b)) => DayBefore(a, b)
    case (OnDay(a), At(t)) => !DayBefore(t.day, a)
    case (At(t), OnDay(b)) => DayBefore(t.day, b)
    case (At(a), At(b)) => StampBefore(a, b)
  }

  /** The first second of the earlier date is not after the last second of the later. */
  lemma EdgesInOrder(lo: UserDate, hi: UserDate)
    requires ValidDate(lo) && ValidDate(hi) && !StartsBefore(hi, lo)
    ensures !StampBefore(AsStamp(hi, true), AsStamp(lo, false))
  {
  }

  lemma OrderedEitherWay(u: UserDate, v: UserDate)
    requires StartsBefore(v, u)
    ensures !StartsBefore(u, v)
  {
  }

  /** The bounds of a pair come out in order, whichever grains were mixed. */
  lemma BoundsAreOrdered(u: UserDate, v: UserDate)
    requires ValidDate(u) && ValidDate(v)
    ensures |PairDates(u, v).keys| == 2 && !LexLess(PairDates(u, v).keys[1], PairDates(u, v).keys[0])
  {
    SortedPair(u, v);
    var (lo, hi) := if LexLess(DateText(v), DateText(u)) then (v, u) else (u, v);
    if StartsBefore(v, u) {
      OrderedEitherWay(u, v);
    }
    if u.OnDay? && v.OnDay? {
      LexTotal(DateText(u), DateText(v));
    } else {
      EdgesInOrder(lo, hi);
      SecondTextIsStamp(lo, false);
      SecondTextIsStamp(hi, true);
      IsoOrderIsTimeOrder(AsStamp(hi, true), AsStamp(lo, false));
    }
  }

  /** Is the moment within the range, each end taken at its own grain, ends included? */
  predicate Within(x: Stamp, lo: UserDate, hi: UserDate) {
    && (match lo case OnDay(d) => !DayBefore(x.day, d) case At(t) => !StampBefore(x, t))
    && (match hi case OnDay(d) => !DayBefore(d, x.day) case At(t) => !StampBefore(t, x))
  }

  lemma LowerBound(x: Stamp, lo: UserDate)
    requires ValidStamp(x) && ValidDate(lo)
    ensures !LexLess(IsoSecond(x), SecondText(lo, false))
       <==> (match lo case OnDay(d) => !DayBefore(x.day, d) case At(t) => !StampBefore(x, t))
  {
    SecondTextIsStamp(lo, false);
    IsoOrderIsTimeOrder(x, AsStamp(lo, false));
  }

  lemma UpperBound(x: Stamp, hi: UserDate)
    requires ValidStamp(x) && ValidDate(hi)
    ensures !LexLess(SecondText(hi, true), IsoSecond(x))
       <==> (match hi case OnDay(d) => !DayBefore(d, x.day) case At(t) => !StampBefore(t, x))
  {
    SecondTextIsStamp(hi, true);
    IsoOrderIsTimeOrder(AsStamp(hi, true), x);
  }

  /**
   The text bounds of a pair hold exactly the moments between the two dates: all of a day that
   is named, and up to the second where a time is.
   */
  lemma PairMeansRange(u: UserDate, v: UserDate, x: Stamp)
    requires ValidDate(u) && ValidDate(v) && ValidStamp(x)
    ensures var p := PairDates(u, v);
            var key := if p.grain == ByDay then IsoDay(x.day) else IsoSecond(x);
            !LexLess(key, p.keys[0]) && !LexLess(p.keys[1], key)
            <==> if StartsBefore(v, u) then Within(x, v, u) else Within(x, u, v)
  {
    SortedPair(u, v);
    var (lo, hi) := if LexLess(DateText(v), DateText(u)) then (v, u) else (u, v);
    if u.OnDay? && v.OnDay? {
      IsoDayOrder(x.day, lo.day);
      IsoDayOrder(hi.day, x.day);
    } else {
      LowerBound(x, lo);
      UpperBound(x, hi);
    }
  }

  // ---- reading a day ----

  function ReadTwo(s: string): nat
    requires |s| == 2 && AllDigits(s)
  {
    DigitValue(s[0]) * 10 + DigitValue(s[1])
  }

  /** Exactly YYYY-MM-DD, naming a day the calendar has. */
  function ReadDay(s: string): (r: Option<Day>)
    ensures r.Some? ==> ValidDay(r.value)
  {
    if && |s| == 10 && AllDigits(s[0..2]) && AllDigits(s[2..4]) && s[4] == '-'
       && AllDigits(s[5..7]) && s[7] == '-' && AllDigits(s[8..10])
    then
      var d := Day(ReadTwo(s[0..2]) * 100 + ReadTwo(s[2..4]), ReadTwo(s[5..7]), ReadTwo(s[8..10]));
      if ValidDay(d) then Some(d) else None
    else None
  }

  lemma TwoReadsBack(n: nat)
    requires n < 100
    ensures AllDigits(Two(n)) && ReadTwo(Two(n)) == n
  {
  }

  lemma ReadTwoPrints(s: string)
    requires |s| == 2 && AllDigits(s)
    ensures ReadTwo(s) < 100 && Two(ReadTwo(s)) == s
  {
    var n := ReadTwo(s);
    assert n / 10 == DigitValue(s[0]) && n % 10 == DigitValue(s[1]);
    assert s == [s[0]] + [s[1]];
  }

  lemma DayReadsBack(d: Day)
    requires ValidDay(d)
    ensures ReadDay(IsoDay(d)) == Some(d)
  {
    IsoDayParts(d);
    TwoReadsBack(d.year / 100);
    TwoReadsBack(d.year % 100);
    TwoReadsBack(d.month);
    TwoReadsBack(d.day);
  }

  lemma Glued(s: string)
    requires |s| == 10
    ensures s == (s[0..2] + s[2..4]) + ([s[4]] + (s[5..7] + ([s[7]] + s[8..10])))
  {
  }

  lemma ReadDayPrints(s: string)
    requires ReadDay(s).Some?
    ensures IsoDay(ReadDay(s).value) == s
  {
    var d := ReadDay(s).value;
    ReadTwoPrints(s[0..2]);
    ReadTwoPrints(s[2..4]);
    ReadTwoPrints(s[5..7]);
    ReadTwoPrints(s[8..10]);
    assert Four(d.year) == s[0..2] + s[2..4] by {
      assert d.year / 100 == ReadTwo(s[0..2]) && d.year % 100 == ReadTwo(s[2..4]);
    }
    Glued(s);
  }

  /** A text reads as a day exactly when it is that day's ISO text. */
  lemma DayRoundTrip(s: string, d: Day)
    ensures ReadDay(s) == Some(d) <==> ValidDay(d) && s == IsoDay(d)
  {
    if ValidDay(d) && s == IsoDay(d) {
      DayReadsBack(d);
    }
    if ReadDay(s) == Some(d) {
      ReadDayPrints(s);
    }
  }

  lemma IsoDayParts(d: Day)
    requires ValidDay(d)
    ensures var s := IsoDay(d);
            && s[0..2] == Two(d.year / 100) && s[2..4] == Two(d.year % 100) && s[4] == '-'
            && s[5..7] == Two(d.month) && s[7] == '-' && s[8..10] == Two(d.day)
  {
  }
}
