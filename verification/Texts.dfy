/** Decimal text and the order of texts. */
module Texts {
  function Digit(d: nat): char
    requires d < 10
  {
    ('0' as int + d) as char
  }

  predicate IsDigit(c: char) {
    '0' <= c <= '9'
  }

  function DigitValue(c: char): nat
    requires IsDigit(c)
  {
    c as int - '0' as int
  }

  predicate AllDigits(s: string) {
    forall i :: 0 <= i < |s| ==> IsDigit(s[i])
  }

  /** The shortest decimal spelling. */
  function PrintNat(n: nat): (s: string)
    ensures AllDigits(s) && s != ""
  {
    if n < 10 then [Digit(n)] else PrintNat(n / 10) + [Digit(n % 10)]
  }

  function PrintInt(n: int): string {
    if n < 0 then "-" + PrintNat(-n) else PrintNat(n)
  }

  /** Digits read left to right. */
  function ReadNat(s: string): nat
    requires AllDigits(s)
  {
    if s == "" then 0 else ReadNat(s[..|s| - 1]) * 10 + DigitValue(s[|s| - 1])
  }

  lemma {:induction false} ReadBack(n: nat)
    ensures ReadNat(PrintNat(n)) == n
    decreases n
  {
    if n >= 10 {
      ReadBack(n / 10);
      var s := PrintNat(n);
      assert s[..|s| - 1] == PrintNat(n / 10);
    } else {
      assert [Digit(n)][..0] == "";
    }
  }

  /** Digits without a needless leading zero. */
  predicate Plain(s: string) {
    s != "" && AllDigits(s) && (s[0] == '0' ==> |s| == 1)
  }

  lemma {:induction false} PrintedIsPlain(n: nat)
    ensures Plain(PrintNat(n)) && (PrintNat(n)[0] == '0' <==> n == 0)
    decreases n
  {
    if n >= 10 {
      PrintedIsPlain(n / 10);
      assert PrintNat(n)[0] == PrintNat(n / 10)[0];
    }
  }

  lemma {:induction false} PlainIsPositive(s: string)
    requires Plain(s) && s[0] != '0'
    ensures ReadNat(s) > 0
    decreases |s|
  {
    if |s| > 1 {
      PlainIsPositive(s[..|s| - 1]);
    } else {
      assert s[..0] == "";
    }
  }

  /** A plain spelling is the one its number prints. */
  lemma {:induction false} PlainIsPrinted(s: string)
    requires Plain(s)
    ensures PrintNat(ReadNat(s)) == s
    decreases |s|
  {
    var n := |s| - 1;
    if n == 0 {
      assert s[..0] == "" && s == [Digit(DigitValue(s[0]))];
    } else {
      var front := s[..n];
      assert front[0] == s[0];
      PlainIsPrinted(front);
      PlainIsPositive(front);
      LastDigit(ReadNat(front), DigitValue(s[n]));
      assert s == front + [s[n]];
    }
  }

  lemma LastDigit(n: nat, d: nat)
    requires n > 0 && d < 10
    ensures PrintNat(n * 10 + d) == PrintNat(n) + [Digit(d)]
  {
    assert (n * 10 + d) / 10 == n && (n * 10 + d) % 10 == d;
  }

  // ---- order of texts ----

  /** Character by character, a shorter text before its extensions. */
  predicate LexLess(a: string, b: string) {
    b != "" && (a == "" || a[0] < b[0] || (a[0] == b[0] && LexLess(a[1..], b[1..])))
  }

  lemma {:induction false} LexIrreflexive(a: string)
    ensures !LexLess(a, a)
    decreases |a|
  {
    if a != "" {
      LexIrreflexive(a[1..]);
    }
  }

  lemma {:induction false} LexTotal(a: string, b: string)
    ensures LexLess(a, b) || LexLess(b, a) || a == b
    ensures !(LexLess(a, b) && LexLess(b, a))
    decreases |a|
  {
    if a != "" && b != "" {
      LexTotal(a[1..], b[1..]);
      if a[0] == b[0] && a[1..] == b[1..] {
        assert a == [a[0]] + a[1..] && b == [b[0]] + b[1..];
      }
    }
  }

  /** Heads of one width decide first, then the tails. */
  lemma {:induction false} LexConcat(a: string, x: string, b: string, y: string)
    requires |a| == |b|
    ensures LexLess(a + x, b + y) <==> LexLess(a, b) || (a == b && LexLess(x, y))
    decreases |a|
  {
    if a == "" {
      assert a + x == x && b + y == y;
    } else {
      LexConcat(a[1..], x, b[1..], y);
      assert (a + x)[1..] == a[1..] + x && (b + y)[1..] == b[1..] + y;
      assert a == [a[0]] + a[1..] && b == [b[0]] + b[1..];
    }
  }

  lemma LexDigit(c: nat, d: nat)
    requires c < 10 && d < 10
    ensures LexLess([Digit(c)], [Digit(d)]) <==> c < d
    ensures Digit(c) == Digit(d) <==> c == d
  {
    assert [Digit(c)][1..] == "" && [Digit(d)][1..] == "";
  }
}
