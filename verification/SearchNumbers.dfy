/** Which texts are numbers, and which number each is. */
module SearchNumbers {
  import opened Options
  import opened Texts

  const INT64_MIN: int := -0x8000_0000_0000_0000
  const INT64_MAX: int := 0x7FFF_FFFF_FFFF_FFFF

  predicate IsInt64(n: int) {
    INT64_MIN <= n <= INT64_MAX
  }

  function Unsigned(s: string): string {
    if s != "" && s[0] == '-' then s[1..] else s
  }

  function SignedValue(negative: bool, digits: string): int
    requires AllDigits(digits)
  {
    WithSign(negative, ReadNat(digits))
  }

  function WithSign(negative: bool, n: nat): int {
    if negative then 0 - n else n
  }

  /** The spelling a 64-bit integer prints: no plus, no blanks, no needless zero. */
  predicate IsInt64Text(s: string) {
    && Plain(Unsigned(s))
    && s != "-0"
    && IsInt64(SignedValue(s != "" && s[0] == '-', Unsigned(s)))
  }

  predicate IsBlank(c: char) {
    c == ' ' || c == '\t' || c == '\n' || c == '\r' || c == 11 as char || c == 12 as char
  }

  function SkipBlanks(s: string): string {
    if s != "" && IsBlank(s[0]) then SkipBlanks(s[1..]) else s
  }

  /** Leading blanks and a sign allowed, then digits to the end; out of range is no number. */
  function TextInteger(s: string): Option<int> {
    var t := SkipBlanks(s);
    var signed := t != "" && (t[0] == '-' || t[0] == '+');
    var digits := if signed then t[1..] else t;
    if digits == "" || !AllDigits(digits) then None
    else
      var n := SignedValue(signed && t[0] == '-', digits);
      if IsInt64(n) then Some(n) else None
  }

  lemma NoBlanks(s: string)
    requires s != "" && !IsBlank(s[0])
    ensures SkipBlanks(s) == s
  {
  }

  lemma PrintedShape(n: int)
    ensures PrintInt(n) != "" && !IsBlank(PrintInt(n)[0]) && PrintInt(n)[0] != '+'
    ensures PrintInt(n)[0] == '-' <==> n < 0
    ensures Unsigned(PrintInt(n)) == PrintNat(if n < 0 then -n else n)
  {
    assert n >= 0 ==> IsDigit(PrintNat(n)[0]);
  }

  /** Printing a 64-bit integer and reading it as a stored number gives it back. */
  lemma PrintedReadsBack(n: int)
    requires IsInt64(n)
    ensures TextInteger(PrintInt(n)) == Some(n)
  {
    PrintedShape(n);
    NoBlanks(PrintInt(n));
    ReadBack(if n < 0 then -n else n);
  }

  lemma PrintedIsInt64Text(n: int)
    requires IsInt64(n)
    ensures IsInt64Text(PrintInt(n))
  {
    PrintedShape(n);
    var m: nat := if n < 0 then -n else n;
    PrintedIsPlain(m);
    ReadBack(m);
    if n < 0 {
      assert PrintInt(n)[1] == PrintNat(m)[0];
    }
  }

  lemma Int64TextIsPrinted(s: string)
    requires IsInt64Text(s)
    ensures exists n :: IsInt64(n) && s == PrintInt(n)
  {
    var body := Unsigned(s);
    PlainIsPrinted(body);
    var n := SignedValue(s[0] == '-', body);
    if s[0] == '-' {
      assert s == "-" + body;
      PlainIsPositive(body);
    }
    assert s == PrintInt(n);
  }

  /** The canonical texts are exactly the printed 64-bit integers. */
  lemma Int64TextExactly(s: string)
    ensures IsInt64Text(s) <==> exists n :: IsInt64(n) && s == PrintInt(n)
  {
    if IsInt64Text(s) {
      Int64TextIsPrinted(s);
    }
    if n :| IsInt64(n) && s == PrintInt(n) {
      PrintedIsInt64Text(n);
    }
  }

  // ---- decimals ----

  function Pow10(k: nat): (p: int)
    ensures p > 0
  {
    if k == 0 then 1 else 10 * Pow10(k - 1)
  }

  function Point(s: string): (i: nat)
    ensures i <= |s| && (i < |s| ==> s[i] == '.') && forall j :: 0 <= j < i ==> s[j] != '.'
  {
    if s == "" || s[0] == '.' then 0 else 1 + Point(s[1..])
  }

  /** Digits scaled down by `k` decimal places: `n` over ten to the `k`. */
  function Over(n: int, k: nat): real {
    if k == 0 then n as real else Over(n, k - 1) / 10.0
  }

  /** Text as a stored number: an integer, or digits with one point, scaled. */
  function TextNumber(s: string): Option<real> {
    var i := Point(s);
    if i == |s| then
      match TextInteger(s)
      case None => None
      case Some(n) => Some(n as real)
    else
      var fraction := s[i + 1..];
      if '.' in fraction then None
      else
        match TextInteger(s[..i] + fraction)
        case None => None
        case Some(n) => Some(Over(n, |fraction|))
  }

  /** `x` with `k` zeros written after it. */
  function Shifted(x: nat, k: nat): nat {
    if k == 0 then x else 10 * Shifted(x, k - 1)
  }

  lemma {:induction false} ShiftedTen(x: nat, k: nat)
    ensures Shifted(10 * x, k) == 10 * Shifted(x, k)
    decreases k
  {
    if k > 0 {
      ShiftedTen(x, k - 1);
    }
  }

  lemma {:induction false} ReadNatConcat(a: string, b: string)
    requires AllDigits(a) && AllDigits(b)
    ensures ReadNat(a + b) == Shifted(ReadNat(a), |b|) + ReadNat(b)
    decreases |b|
  {
    if b == "" {
      assert a + b == a;
    } else {
      var n := |b| - 1;
      ReadNatConcat(a, b[..n]);
      assert (a + b)[..|a + b| - 1] == a + b[..n];
    }
  }

  lemma {:induction false} OverIsQuotient(n: int, k: nat)
    ensures Over(n, k) * Pow10(k) as real == n as real
    decreases k
  {
    if k > 0 {
      OverIsQuotient(n, k - 1);
      assert Pow10(k) as real == 10.0 * Pow10(k - 1) as real;
    }
  }

  lemma {:induction false} OverSum(n: nat, whole: nat, part: nat, k: nat)
    requires n == Shifted(whole, k) + part
    ensures Over(n, k) == whole as real + Over(part, k)
    decreases k
  {
    if k > 0 {
      ShiftedTen(whole, k - 1);
      OverSum(n, 10 * whole, part, k - 1);
    }
  }

  lemma {:induction false} OverNegative(n: nat, k: nat)
    ensures Over(0 - n, k) == 0.0 - Over(n, k)
    decreases k
  {
    if k > 0 {
      OverNegative(n, k - 1);
    }
  }

  lemma PointAt(a: string, b: string)
    requires '.' !in a
    ensures Point(a + "." + b) == |a|
  {
    var s := a + "." + b;
    assert s[|a|] == '.' && forall i :: 0 <= i < |a| ==> s[i] == a[i];
  }

  predicate IsSign(sign: string) {
    sign == "" || sign == "-" || sign == "+"
  }

  function Signed(sign: string, x: real): real {
    if sign == "-" then 0.0 - x else x
  }

  lemma SignedInteger(sign: string, digits: string)
    requires IsSign(sign) && digits != "" && AllDigits(digits) && IsInt64(SignedValue(sign == "-", digits))
    ensures TextInteger(sign + digits) == Some(SignedValue(sign == "-", digits))
  {
    var s := sign + digits;
    NoBlanks(s);
    assert sign == "" ==> s == digits && IsDigit(s[0]);
    assert sign != "" ==> s[0] == sign[0] && s[1..] == digits;
  }

  lemma AroundPoint(whole: string, b: string)
    requires '.' !in whole
    ensures var s := whole + "." + b;
            Point(s) == |whole| && s[..|whole|] == whole && s[|whole| + 1..] == b && |s| == |whole| + 1 + |b|
  {
    PointAt(whole, b);
    var s := whole + "." + b;
    assert s[..|whole|] == whole && s[|whole| + 1..] == b;
  }

  lemma DecimalShape(whole: string, b: string, n: int)
    requires '.' !in whole && '.' !in b && TextInteger(whole + b) == Some(n)
    ensures TextNumber(whole + "." + b) == Some(Over(n, |b|))
  {
    AroundPoint(whole, b);
  }

  lemma SignedOver(sign: string, n: nat, x: nat, y: nat, k: nat)
    requires n == Shifted(x, k) + y
    ensures Over(WithSign(sign == "-", n), k) == Signed(sign, Decimal(x, y, k))
  {
    OverSum(n, x, y, k);
    OverNegative(n, k);
  }

  /** `x` and, behind the point, `y` written with `k` places. */
  function Decimal(x: nat, y: nat, k: nat): real {
    x as real + Over(y, k)
  }

  lemma DecimalValue(sign: string, a: string, b: string, n: nat)
    requires AllDigits(a) && AllDigits(b) && n == ReadNat(a + b)
    ensures Over(WithSign(sign == "-", n), |b|) == Signed(sign, Decimal(ReadNat(a), ReadNat(b), |b|))
  {
    ReadNatConcat(a, b);
    SignedOver(sign, n, ReadNat(a), ReadNat(b), |b|);
  }

  lemma SignedWhole(sign: string, a: string, b: string, whole: string)
    requires IsSign(sign) && AllDigits(a) && AllDigits(b) && a + b != "" && whole == sign + a
    requires IsInt64(SignedValue(sign == "-", a + b))
    ensures '.' !in whole && '.' !in b && TextInteger(whole + b) == Some(SignedValue(sign == "-", a + b))
  {
    assert whole + b == sign + (a + b);
    SignedInteger(sign, a + b);
  }

  /** "-12.5" is minus twelve and five tenths: the whole part plus the fraction over its scale. */
  lemma DecimalTextMeans(sign: string, a: string, b: string, whole: string)
    requires IsSign(sign) && AllDigits(a) && AllDigits(b) && a + b != "" && whole == sign + a
    requires IsInt64(SignedValue(sign == "-", a + b))
    ensures TextNumber(whole + "." + b) == Some(Signed(sign, Decimal(ReadNat(a), ReadNat(b), |b|)))
  {
    SignedWhole(sign, a, b, whole);
    DecimalShape(whole, b, SignedValue(sign == "-", a + b));
    DecimalValue(sign, a, b, ReadNat(a + b));
  }

  /** A printed integer, read as a stored number, is that integer. */
  lemma PrintedNumber(n: int)
    requires IsInt64(n)
    ensures TextNumber(PrintInt(n)) == Some(n as real)
  {
    PrintedReadsBack(n);
    var s := PrintInt(n);
    forall i | 0 <= i < |s| ensures s[i] != '.' {
      if n < 0 && i > 0 {
        assert s[i] == PrintNat(-n)[i - 1];
        assert IsDigit(s[i]);
      }
    }
  }
}
