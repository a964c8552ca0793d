// The amount on its way to the provider: minor units, divided by 100 in binary64,
// printed with two decimals, parsed back as a decimal and multiplied by 100.
module Amounts {
  import opened Entities

  function Pow2(n: nat): (p: nat)
    ensures p >= 1
  {
    if n == 0 then 1 else 2 * Pow2(n - 1)
  }

  const TWO_46: nat := 0x4000_0000_0000
  const TWO_52: nat := 0x10_0000_0000_0000
  const TWO_53: nat := 0x20_0000_0000_0000
  const TWO_59: nat := 0x800_0000_0000_0000

  // The largest amount up to which every amount survives the trip.
  const LAST_EXACT: nat := 100 * TWO_46

  function Abs(x: int): nat {
    if x < 0 then -x else x
  }

  // n / d rounded to the nearest integer, ties to even (section 4.3.1 of IEEE 754-2019).
  function Round(n: nat, d: nat): nat
    requires d > 0
  {
    var q, r := n / d, n % d;
    if 2 * r < d then q
    else if 2 * r > d then q + 1
    else if q % 2 == 0 then q
    else q + 1
  }

  // How many halvings bring q below 2^53.
  function Excess(q: nat): (e: nat)
    requires q >= TWO_52
    ensures TWO_52 * Pow2(e) <= q < TWO_53 * Pow2(e)
  {
    if q < TWO_53 then 0 else 1 + Excess(q / 2)
  }

  // A binary64 value: the significand m over a power of two.
  datatype Binary64 = Binary64(m: nat, scale: int)

  // The scale that gives a/100 a significand of 53 bits.
  function Scale(a: nat): int
    requires a >= 1
  {
    59 - Excess(a * TWO_59 / 100)
  }

  // The correctly rounded quotient a / 100.
  function DivideBy100(a: nat): Binary64
    requires a >= 1
  {
    var s := Scale(a);
    Binary64(if s >= 0 then Round(a * Pow2(s), 100) else Round(a, 100 * Pow2(-s)), s)
  }

  // The value in hundredths, rounded to an integer as two-decimal formatting does.
  function Hundredths(x: Binary64): nat {
    if x.scale >= 0 then Round(100 * x.m, Pow2(x.scale)) else 100 * x.m * Pow2(-x.scale)
  }

  // ----- text

  predicate IsDigit(c: char) {
    '0' <= c <= '9'
  }

  function Digit(d: nat): char
    requires d < 10
  {
    ('0' as int + d) as char
  }

  function DigitsOf(n: nat): (s: string)
    ensures s != ""
  {
    (if n < 10 then "" else DigitsOf(n / 10)) + [Digit(n % 10)]
  }

  predicate AllDigits(s: string) {
    forall i :: 0 <= i < |s| ==> IsDigit(s[i])
  }

  function DigitValue(c: char): nat
    requires IsDigit(c)
  {
    c as int - '0' as int
  }

  function NumberOf(s: string): nat
    requires AllDigits(s)
  {
    if s == "" then 0 else 10 * NumberOf(s[..|s| - 1]) + DigitValue(s[|s| - 1])
  }

  // Two-decimal fixed notation of h hundredths.
  function FixedText(h: nat): string {
    DigitsOf(h / 100) + "." + [Digit(h / 10 % 10), Digit(h % 10)]
  }

  function PositiveText(a: nat): string
    requires a >= 1
  {
    FixedText(Hundredths(DivideBy100(a)))
  }

  // The consumer's amount field for an event of this amount.
  function FormatAmount(a: int): string {
    if a >= 1 then PositiveText(a) else if a == 0 then FixedText(0) else "-" + PositiveText(-a)
  }

  // The request schema's pattern: digits, a point, two digits.
  predicate IsAmountText(s: string) {
    |s| >= 4 && s[|s| - 3] == '.' && AllDigits(s[..|s| - 3]) && AllDigits(s[|s| - 2..])
  }

  // What the provider makes of an amount field: None when schema or _parse_amount rejects it.
  function ParseAmount(s: string): Option<nat> {
    if !IsAmountText(s) then None
    else
      var h := 100 * NumberOf(s[..|s| - 3]) + NumberOf(s[|s| - 2..]);
      if h <= 0 then None else Some(h)
  }

  lemma {:induction false} AppendDigit(s: string, d: nat)
    requires AllDigits(s) && d < 10
    ensures AllDigits(s + [Digit(d)])
    ensures NumberOf(s + [Digit(d)]) == 10 * NumberOf(s) + d
  {
    var t := s + [Digit(d)];
    assert t[..|t| - 1] == s;
  }

  lemma {:induction false} DigitsRoundTrip(n: nat)
    ensures AllDigits(DigitsOf(n)) && NumberOf(DigitsOf(n)) == n
  {
    if n < 10 {
      AppendDigit("", n);
      assert "" + [Digit(n)] == DigitsOf(n);
    } else {
      DigitsRoundTrip(n / 10);
      AppendDigit(DigitsOf(n / 10), n % 10);
    }
  }

  lemma {:induction false} RemainderOf100(h: nat, q: nat, r: nat)
    requires h == 100 * q + r && r < 100
    ensures h % 100 == r
  {
  }

  lemma {:induction false} LastTwoDigits(h: nat)
    ensures 10 * (h / 10 % 10) + h % 10 == h % 100
  {
    var t := h / 10;
    var u, v, r := t / 10, t % 10, h % 10;
    assert h == 10 * t + r;
    assert t == 10 * u + v;
    RemainderOf100(h, u, 10 * v + r);
  }

  lemma {:induction false} CentsRoundTrip(h: nat)
    ensures AllDigits([Digit(h / 10 % 10), Digit(h % 10)])
    ensures NumberOf([Digit(h / 10 % 10), Digit(h % 10)]) == h % 100
  {
    LastTwoDigits(h);
    AppendDigit("", h / 10 % 10);
    assert "" + [Digit(h / 10 % 10)] == [Digit(h / 10 % 10)];
    AppendDigit([Digit(h / 10 % 10)], h % 10);
    assert [Digit(h / 10 % 10)] + [Digit(h % 10)] == [Digit(h / 10 % 10), Digit(h % 10)];
  }

  lemma {:induction false} ParseParts(whole: string, cents: string)
    requires whole != "" && AllDigits(whole)
    requires |cents| == 2 && AllDigits(cents)
    ensures IsAmountText(whole + "." + cents)
    ensures var h := 100 * NumberOf(whole) + NumberOf(cents);
            ParseAmount(whole + "." + cents) == if h == 0 then None else Some(h)
  {
    var t := whole + "." + cents;
    assert t[..|t| - 3] == whole;
    assert t[|t| - 2..] == cents;
  }

  // Printing and parsing lose nothing.
  lemma {:induction false} TextRoundTrip(h: nat)
    ensures IsAmountText(FixedText(h))
    ensures ParseAmount(FixedText(h)) == if h == 0 then None else Some(h)
  {
    DigitsRoundTrip(h / 100);
    CentsRoundTrip(h);
    ParseParts(DigitsOf(h / 100), [Digit(h / 10 % 10), Digit(h % 10)]);
  }

  // ----- the rounding

  lemma {:induction false} MultipleBound(k: int, d: nat)
    ensures k >= 1 ==> k * d >= d
    ensures k <= -1 ==> k * d <= 0 - d
  {
    if k >= 1 {
      assert (k - 1) * d >= 0;
      assert k * d == (k - 1) * d + d;
    } else if k <= -1 {
      assert (-1 - k) * d >= 0;
      assert k * d == -(-1 - k) * d - d;
    }
  }

  lemma {:induction false} Distribute(x: int, y: int, p: int)
    ensures (x - y) * p == x * p - y * p
  {
  }

  // Rounding n to multiples of d gives a exactly when n is within half of d of a * d;
  // at exactly half, when a is even.
  lemma {:induction false} RoundBack(a: nat, d: nat, n: nat)
    requires d > 0
    ensures Round(n, d) == a <==> 2 * Abs(n - a * d) < d || (2 * Abs(n - a * d) == d && a % 2 == 0)
  {
    var q, r := n / d, n % d;
    assert n == q * d + r;
    Distribute(q, a, d);
    Units(q - a, d);
    RoundCases(a, d, r, q - a, (q - a) * d, n - a * d);
  }

  lemma {:induction false} Units(k: int, d: nat)
    ensures k == 0 ==> k * d == 0
    ensures k == -1 ==> k * d == 0 - d
    ensures k >= 1 ==> k * d >= d
    ensures k + 1 <= -1 ==> k * d + d <= 0 - d
  {
    MultipleBound(k, d);
    MultipleBound(k + 1, d);
    Distribute(k, -1, d);
  }

  lemma {:induction false} RoundCases(a: nat, d: nat, r: nat, k: int, kd: int, x: int)
    requires r < d && x == kd + r && a + k >= 0
    requires k == 0 ==> kd == 0
    requires k == -1 ==> kd == 0 - d
    requires k >= 1 ==> kd >= d
    requires k + 1 <= -1 ==> kd + d <= 0 - d
    ensures var q := a + k;
            (if 2 * r < d then q else if 2 * r > d then q + 1 else if q % 2 == 0 then q else q + 1) == a
            <==> 2 * Abs(x) < d || (2 * Abs(x) == d && a % 2 == 0)
  {
  }

  // ----- the trip

  // The amount the provider works with after the consumer formatted a.
  function Trip(a: int): Option<nat> {
    ParseAmount(FormatAmount(a))
  }

  // The remainder test for amounts that survive the trip.
  predicate Exact(a: nat)
    requires a >= 1
  {
    var s := Scale(a);
    if s >= 0 then
      var r := a * Pow2(s) % 100;
      var d := if r < 50 then r else 100 - r;
      2 * d < Pow2(s) || (2 * d == Pow2(s) && a % 2 == 0)
    else
      a % (100 * Pow2(-s)) == 0
  }

  lemma {:induction false} Pow2Sum(m: nat, n: nat)
    ensures Pow2(m + n) == Pow2(m) * Pow2(n)
  {
    if m > 0 {
      Pow2Sum(m - 1, n);
      assert Pow2(m + n) == 2 * (Pow2(m - 1) * Pow2(n));
    }
  }

  lemma {:induction false} Pow2Monotone(m: nat, n: nat)
    requires m <= n
    ensures Pow2(m) <= Pow2(n)
  {
    if m < n {
      Pow2Monotone(m, n - 1);
    }
  }

  lemma {:induction false} Pow2Values()
    ensures Pow2(6) == 64 && Pow2(7) == 128
    ensures Pow2(53) == TWO_53 && Pow2(54) == 2 * TWO_53
  {
    assert Pow2(5) == 32;
    Pow2Of48();
    Pow2Sum(48, 5);
  }

  lemma {:induction false} Pow2Of48()
    ensures Pow2(48) == 0x1_0000_0000_0000
  {
    assert Pow2(8) == 256;
    Pow2Sum(8, 8);
    Pow2Sum(16, 16);
    Pow2Sum(32, 16);
  }

  // Scales above 6 are exactly those of the amounts below the last exact one.
  lemma {:induction false} ScaleOf(a: nat)
    requires a >= 1
    ensures Scale(a) <= 59
    ensures Scale(a) >= 7 <==> a < LAST_EXACT
    ensures LAST_EXACT <= a < 2 * LAST_EXACT ==> Scale(a) == 6
  {
    var e := Excess(a * TWO_59 / 100);
    Pow2Values();
    if e <= 52 {
      Pow2Monotone(e + 1, 53);
    } else {
      Pow2Monotone(53, e);
      if e > 53 {
        Pow2Monotone(54, e);
      }
    }
  }

  // Rounding a * 2^s to hundreds moves it by its distance to the nearest hundred.
  lemma {:induction false} RoundToHundreds(n: nat)
    ensures Abs(100 * Round(n, 100) - n) == if n % 100 < 50 then n % 100 else 100 - n % 100
  {
  }

  lemma {:induction false} DivisionOfMultiple(m: nat, d: nat)
    requires d > 0
    ensures m * d / d == m && m * d % d == 0
  {
    var q, r := m * d / d, m * d % d;
    assert (m - q) * d == r;
    MultipleBound(m - q, d);
    assert m - q == 0;
  }

  lemma {:induction false} RoundOfMultiple(a: nat, d: nat)
    requires d > 0
    ensures d * Round(a, d) == a <==> a % d == 0
  {
    if a % d == 0 {
      assert a == d * (a / d);
    } else if d * Round(a, d) == a {
      DivisionOfMultiple(Round(a, d), d);
    }
  }

  lemma {:induction false} FineExact(a: nat, p: nat)
    requires p > 0
    ensures var r := a * p % 100;
            var d := if r < 50 then r else 100 - r;
            Round(100 * Round(a * p, 100), p) == a <==> 2 * d < p || (2 * d == p && a % 2 == 0)
  {
    RoundToHundreds(a * p);
    RoundBack(a, p, 100 * Round(a * p, 100));
  }

  lemma {:induction false} CoarseExact(a: nat, p: nat)
    requires p > 0
    ensures 100 * Round(a, 100 * p) * p == a <==> a % (100 * p) == 0
  {
    RoundOfMultiple(a, 100 * p);
    assert 100 * Round(a, 100 * p) * p == 100 * p * Round(a, 100 * p);
  }

  lemma {:induction false} HundredthsExact(a: nat)
    requires a >= 1
    ensures Hundredths(DivideBy100(a)) == a <==> Exact(a)
  {
    var s := Scale(a);
    if s >= 0 {
      FineExact(a, Pow2(s));
    } else {
      CoarseExact(a, Pow2(-s));
    }
  }

  lemma {:induction false} HundredthsPositive(a: nat)
    requires a >= 1
    ensures Hundredths(DivideBy100(a)) >= 1
  {
    ScaleOf(a);
    var s := Scale(a);
    if s >= 7 {
      ExactBelow(a);
      HundredthsExact(a);
    } else if s >= 0 {
      Pow2Values();
      Pow2Monotone(s, 6);
      AtLeast(a, Pow2(s));
      var m := Round(a * Pow2(s), 100);
      RoundPositive(a * Pow2(s), 100);
      RoundPositive(100 * m, Pow2(s));
    } else {
      SignificandPositive(a);
    }
  }

  lemma {:induction false} SignificandPositive(a: nat)
    requires a >= 1 && Scale(a) < 0
    ensures Round(a, 100 * Pow2(-Scale(a))) >= 1
  {
    var t := -Scale(a);
    var q := a * TWO_59 / 100;
    assert Excess(q) == 59 + t;
    Pow2Sum(59, t);
    Pow2Values();
    Pow2Sum(53, 6);
    assert q >= TWO_52 * (TWO_59 * Pow2(t));
    RoundPositive(a, 100 * Pow2(t));
  }

  lemma {:induction false} AtLeast(m: nat, n: nat)
    requires n >= 1
    ensures m * n >= m
  {
    assert m * (n - 1) >= 0;
  }

  lemma {:induction false} RoundPositive(n: nat, d: nat)
    requires n >= d > 0
    ensures Round(n, d) >= 1
  {
    assert n / d >= 1 by {
      MultipleBound(n / d, d);
    }
  }

  lemma {:induction false} ExactBelow(a: nat)
    requires 1 <= a <= LAST_EXACT
    ensures Exact(a)
  {
    ScaleOf(a);
    Pow2Values();
    if a < LAST_EXACT {
      Pow2Monotone(7, Scale(a));
    } else {
      assert a * Pow2(6) % 100 == 0;
    }
  }

  // ----- the division is the one of section 4.3.1 of IEEE 754-2019

  lemma {:induction false} Cancel(x: nat, y: nat, p: nat)
    requires p >= 1
    ensures x * p <= y * p <==> x <= y
    ensures x * p < y * p <==> x < y
  {
    MultipleBound(x - y, p);
    assert (x - y) * p == x * p - y * p;
  }

  lemma {:induction false} Unscale(n: nat, p: nat, whole: nat, lo: nat, hi: nat)
    requires p >= 1 && whole == n * p && lo * p <= whole / 100 < hi * p
    ensures 100 * lo <= n < 100 * hi
  {
    assert (100 * lo) * p == 100 * (lo * p) && (100 * hi) * p == 100 * (hi * p);
    Cancel(100 * lo, n, p);
    Cancel(n, 100 * hi, p);
  }

  lemma {:induction false} Associate(x: nat, y: nat, z: nat)
    ensures x * y * z == x * (y * z)
  {
  }

  lemma {:induction false} Pow2Of59()
    ensures Pow2(59) == TWO_59
  {
    Pow2Values();
    Pow2Sum(53, 6);
  }

  // The scaled quotient of a by 100, before rounding, has 53 binary digits.
  lemma {:induction false} FineNormal(a: nat, s: nat, e: nat)
    requires a >= 1 && Scale(a) == s && s + e == 59
    ensures 100 * TWO_52 <= a * Pow2(s) < 100 * TWO_53
  {
    FineProduct(a, s, e);
    NormalAt(a, e, a * Pow2(s));
  }

  lemma {:induction false} NormalAt(a: nat, e: nat, n: nat)
    requires a >= 1 && Scale(a) == 59 - e && n * Pow2(e) == a * TWO_59
    ensures 100 * TWO_52 <= n < 100 * TWO_53
  {
    Unexceed(n, e, a * TWO_59);
  }

  lemma {:induction false} Unexceed(n: nat, e: nat, whole: nat)
    requires whole / 100 >= TWO_52 && e == Excess(whole / 100) && n * Pow2(e) == whole
    ensures 100 * TWO_52 <= n < 100 * TWO_53
  {
    Unscale(n, Pow2(e), whole, TWO_52, TWO_53);
  }

  lemma {:induction false} FineProduct(a: nat, s: nat, e: nat)
    requires s + e == 59
    ensures a * Pow2(s) * Pow2(e) == a * TWO_59
  {
    Pow2Of59();
    Pow2Sum(s, e);
    Associate(a, Pow2(s), Pow2(e));
  }

  lemma {:induction false} CoarseNormal(a: nat)
    requires a >= 1 && Scale(a) < 0
    ensures 100 * (TWO_52 * Pow2(-Scale(a))) <= a < 100 * (TWO_53 * Pow2(-Scale(a)))
  {
    var whole := a * TWO_59;
    var t := -Scale(a);
    assert Excess(whole / 100) == 59 + t;
    CoarseProduct(TWO_52, t);
    CoarseProduct(TWO_53, t);
    Unscale(a, TWO_59, whole, TWO_52 * Pow2(t), TWO_53 * Pow2(t));
  }

  lemma {:induction false} CoarseProduct(bound: nat, t: nat)
    ensures bound * Pow2(59 + t) == bound * Pow2(t) * TWO_59
  {
    Pow2Of59();
    Pow2Sum(t, 59);
    Associate(bound, Pow2(t), TWO_59);
  }

  lemma {:induction false} RoundBetween(n: nat, d: nat, lo: nat, hi: nat)
    requires d > 0 && lo * d <= n < hi * d
    ensures lo <= Round(n, d) <= hi
  {
    var q, r := n / d, n % d;
    assert n == q * d + r;
    Cancel(lo, q + 1, d);
    Cancel(q, hi, d);
  }

  lemma {:induction false} Rearrange(bound: nat, p: nat)
    ensures 100 * (bound * p) == bound * (100 * p)
  {
  }

  // m is the integer nearest to n / d, the even one of two.
  predicate Nearest(m: nat, n: nat, d: nat) {
    2 * Abs(n - m * d) < d || (2 * Abs(n - m * d) == d && m % 2 == 0)
  }

  // The quotient has a 53-bit significand and is the nearest such number, ties to even: no rounding
  // to 53 bits is closer to a / 100.
  lemma {:induction false} DivisionIsRounded(a: nat)
    requires a >= 1
    ensures var x := DivideBy100(a);
            && 0x10_0000_0000_0000 <= x.m <= 0x20_0000_0000_0000
            && if x.scale >= 0 then Nearest(x.m, a * Pow2(x.scale), 100) else Nearest(x.m, a, 100 * Pow2(-x.scale))
  {
    var s := Scale(a);
    if s >= 0 {
      FineNormal(a, s, 59 - s);
      RoundBetween(a * Pow2(s), 100, TWO_52, TWO_53);
      RoundBack(Round(a * Pow2(s), 100), 100, a * Pow2(s));
    } else {
      CoarseNormal(a);
      Rearrange(TWO_52, Pow2(-s));
      Rearrange(TWO_53, Pow2(-s));
      RoundBetween(a, 100 * Pow2(-s), TWO_52, TWO_53);
      RoundBack(Round(a, 100 * Pow2(-s)), 100 * Pow2(-s), a);
    }
  }

  // The trip always ends with an amount, and with the same amount exactly under the remainder test.
  lemma {:induction false} TripExactIff(a: nat)
    requires a >= 1
    ensures Trip(a) == Some(Hundredths(DivideBy100(a)))
    ensures Trip(a) == Some(a) <==> Exact(a)
  {
    HundredthsPositive(a);
    HundredthsExact(a);
    TextRoundTrip(Hundredths(DivideBy100(a)));
  }

  // The provider refuses amounts that are not positive.
  lemma {:induction false} TripRefuses(a: int)
    requires a <= 0
    ensures Trip(a) == None
  {
    if a == 0 {
      TextRoundTrip(0);
    } else {
      SignedIsRefused(PositiveText(-a));
    }
  }

  lemma {:induction false} SignedIsRefused(digits: string)
    ensures !IsAmountText("-" + digits)
  {
    var t := "-" + digits;
    if |t| >= 4 {
      assert t[..|t| - 3][0] == '-' && !IsDigit('-');
    }
  }

  // What the provider reads is the rounded quotient times 100, rounded to an integer, ties to even.
  lemma {:induction false} TripIsRounded(a: nat)
    requires a >= 1
    ensures var x := DivideBy100(a);
            && Trip(a).Some?
            && if x.scale >= 0 then Nearest(Trip(a).value, 100 * x.m, Pow2(x.scale))
               else Trip(a).value == 100 * x.m * Pow2(-x.scale)
  {
    TripExactIff(a);
    var x := DivideBy100(a);
    if x.scale >= 0 {
      RoundBack(Hundredths(x), Pow2(x.scale), 100 * x.m);
    }
  }

  // Every amount up to 100 * 2^46 reaches the provider unchanged.
  lemma {:induction false} TripExactUpToBound(a: nat)
    requires 1 <= a <= 7_036_874_417_766_400
    ensures Trip(a) == Some(a)
  {
    TripExactIff(a);
    ExactBelow(a);
  }

  // The next amount arrives one unit too large.
  lemma {:induction false} TripPastBound(a: nat)
    requires a == 7_036_874_417_766_401
    ensures Trip(a) == Some(7_036_874_417_766_402)
  {
    TripExactIff(a);
    ScaleOf(a);
    Pow2Values();
    var m := 64 * TWO_46 + 1;
    RoundBack(m, 100, a * 64);
    RoundBack(a + 1, 64, 100 * m);
  }

  // The bound is the best one.
  lemma {:induction false} BoundIsTight(bound: nat)
    ensures (forall a :: 1 <= a <= bound ==> Trip(a) == Some(a)) <==> bound <= 7_036_874_417_766_400
  {
    var next := LAST_EXACT + 1;
    TripPastBound(next);
    if bound <= 7_036_874_417_766_400 {
      forall a | 1 <= a <= bound ensures Trip(a) == Some(a) {
        TripExactUpToBound(a);
      }
    }
  }
}
