/** The calendar that makes a day valid is the Gregorian one. */
module Calendar {
  import opened IsoDates

  function DaysInMonths(year: nat, months: nat): nat {
    if months == 0 then 0 else DaysInMonths(year, months - 1) + DaysIn(year, months)
  }

  /** The days of the years before `year`, month by month. */
  function DaysBefore(year: nat): nat {
    if year <= 1 then 0 else DaysBefore(year - 1) + DaysInMonths(year - 1, 12)
  }

  /** Counted from March: 31 and 30 days alternate, but July and August, December and January are both long. */
  lemma MonthLengths(year: nat, month: nat)
    requires 1 <= month <= 12
    ensures month != 2 ==>
              DaysIn(year, month) == (153 * ((month + 9) % 12 + 1) + 2) / 5 - (153 * ((month + 9) % 12) + 2) / 5
  {
  }

  lemma YearLength(year: nat)
    ensures DaysInMonths(year, 12) == if Leap(year) then 366 else 365
  {
    var feb := DaysIn(year, 2);
    assert DaysInMonths(year, 2) == feb + 31 by {
      assert DaysInMonths(year, 1) == 31 + DaysInMonths(year, 0);
    }
    assert DaysInMonths(year, 4) == feb + 92 by {
      assert DaysInMonths(year, 3) == feb + 62;
    }
    assert DaysInMonths(year, 6) == feb + 153 by {
      assert DaysInMonths(year, 5) == feb + 123;
    }
    assert DaysInMonths(year, 8) == feb + 215 by {
      assert DaysInMonths(year, 7) == feb + 184;
    }
    assert DaysInMonths(year, 10) == feb + 276 by {
      assert DaysInMonths(year, 9) == feb + 245;
    }
    assert DaysInMonths(year, 11) == feb + 306;
  }

  /** A leap day every fourth year, save every hundredth, but for every four hundredth. */
  function LeapDays(years: nat): int {
    years / 4 - years / 100 + years / 400
  }

  lemma Divides4(n: nat, q: nat, r: nat)
    requires n == 4 * q + r && r < 4
    ensures n / 4 == q && n % 4 == r
  {
  }

  lemma Divides100(n: nat, q: nat, r: nat)
    requires n == 100 * q + r && r < 100
    ensures n / 100 == q && n % 100 == r
  {
  }

  lemma Divides400(n: nat, q: nat, r: nat)
    requires n == 400 * q + r && r < 400
    ensures n / 400 == q && n % 400 == r
  {
  }

  lemma Fourth(n: nat)
    requires n >= 1
    ensures n / 4 == (n - 1) / 4 + if n % 4 == 0 then 1 else 0
  {
    var q, r := (n - 1) / 4, (n - 1) % 4;
    if r + 1 < 4 {
      Divides4(n, q, r + 1);
    } else {
      Divides4(n, q + 1, 0);
    }
  }

  lemma Hundredth(n: nat)
    requires n >= 1
    ensures n / 100 == (n - 1) / 100 + if n % 100 == 0 then 1 else 0
  {
    var q, r := (n - 1) / 100, (n - 1) % 100;
    if r + 1 < 100 {
      Divides100(n, q, r + 1);
    } else {
      Divides100(n, q + 1, 0);
    }
  }

  lemma FourHundredth(n: nat)
    requires n >= 1
    ensures n / 400 == (n - 1) / 400 + if n % 400 == 0 then 1 else 0
  {
    var q, r := (n - 1) / 400, (n - 1) % 400;
    if r + 1 < 400 {
      Divides400(n, q, r + 1);
    } else {
      Divides400(n, q + 1, 0);
    }
  }

  lemma Nested(n: nat)
    ensures (n % 400 == 0 ==> n % 100 == 0) && (n % 100 == 0 ==> n % 4 == 0)
  {
    if n % 400 == 0 {
      Divides100(n, 4 * (n / 400), 0);
    }
    if n % 100 == 0 {
      Divides4(n, 25 * (n / 100), 0);
    }
  }

  lemma OneMoreYear(n: nat)
    requires n >= 1
    ensures LeapDays(n) == LeapDays(n - 1) + if Leap(n) then 1 else 0
  {
    Fourth(n);
    Hundredth(n);
    FourHundredth(n);
    Nested(n);
  }

  lemma {:induction false} CalendarIsGregorian(year: nat)
    requires year >= 1
    ensures DaysBefore(year) == 365 * (year - 1) + LeapDays(year - 1)
    decreases year
  {
    if year > 1 {
      CalendarIsGregorian(year - 1);
      YearLength(year - 1);
      OneMoreYear(year - 1);
    }
  }
}
