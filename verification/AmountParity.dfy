// The provider's verdict is the parity of the amount it read. When is that the parity of the payment?
module AmountParity {
  import opened Amounts

  // The remainder test for amounts whose parity survives the trip: the rounding error of the quotient,
  // counted in units of the result, is nearer to an even number than to an odd one.
  predicate KeepsParity(a: nat)
    requires a >= 1
  {
    var s := Scale(a);
    if s >= 0 then
      var r := a * Pow2(s) % 100;
      Even(a, Pow2(s), (if r < 50 then r else 100 - r) % (2 * Pow2(s)))
    else
      a % 2 == 0
  }

  // The error of a, modulo two units of size p, is nearest to none or to two of them.
  predicate Even(a: nat, p: nat, u: nat) {
    2 * u < p || 2 * u > 3 * p || ((2 * u == p || 2 * u == 3 * p) && a % 2 == 0)
  }

  // cp stands for c * p.
  lemma {:induction false} NearestUnits(p: nat, u: nat, c: int, cp: int, h: int, a: nat)
    requires p > 0 && u < 2 * p
    requires c <= -1 ==> cp <= 0 - p
    requires c == 0 ==> cp == 0
    requires c == 1 ==> cp == p
    requires c == 2 ==> cp == 2 * p
    requires c >= 3 ==> cp >= 3 * p
    requires 2 * Abs(u - cp) < p || (2 * Abs(u - cp) == p && h % 2 == 0)
    requires (h - a) % 2 == c % 2
    ensures h % 2 == a % 2 <==> Even(a, p, u)
  {
  }

  lemma {:induction false} Multiples(c: int, p: nat)
    ensures c <= -1 ==> c * p <= 0 - p
    ensures c == 0 ==> c * p == 0
    ensures c == 1 ==> c * p == p
    ensures c == 2 ==> c * p == 2 * p
    ensures c >= 3 ==> c * p >= 3 * p
  {
    if c <= -1 {
      assert (-1 - c) * p >= 0;
    } else if c >= 3 {
      assert (c - 3) * p >= 0;
    }
  }

  lemma {:induction false} Divided(d: nat, p: nat) returns (j: nat, u: nat)
    requires p > 0
    ensures u == d % (2 * p) < 2 * p && d == (2 * j) * p + u
  {
    j, u := d / (2 * p), d % (2 * p);
    assert (2 * j) * p == j * (2 * p);
  }

  // h units are nearest to n, and n is a units up to an error of d either way;
  // the products with p are given as hp and ap.
  lemma {:induction false} NearestParity(a: nat, p: nat, n: nat, d: nat, h: nat, hp: int, ap: int)
    requires p > 0 && Abs(n - ap) == d && hp == h * p && ap == a * p
    requires 2 * Abs(n - hp) < p || (2 * Abs(n - hp) == p && h % 2 == 0)
    ensures h % 2 == a % 2 <==> Even(a, p, d % (2 * p))
  {
    var j, u := Divided(d, p);
    var k := if n >= ap then h - a else a - h;
    Distribute(h, a, p);
    Distribute(a, h, p);
    Distribute(k, 2 * j, p);
    Multiples(k - 2 * j, p);
    NearestUnits(p, u, k - 2 * j, (k - 2 * j) * p, h, a);
  }

  lemma {:induction false} RoundParity(a: nat, p: nat, n: nat, d: nat)
    requires p > 0 && Abs(n - a * p) == d
    ensures Round(n, p) % 2 == a % 2 <==> Even(a, p, d % (2 * p))
  {
    var h := Round(n, p);
    RoundBack(h, p, n);
    NearestParity(a, p, n, d, h, h * p, a * p);
  }

  lemma {:induction false} FineParity(a: nat, p: nat)
    requires p > 0
    ensures var r := a * p % 100;
            Round(100 * Round(a * p, 100), p) % 2 == a % 2 <==> Even(a, p, (if r < 50 then r else 100 - r) % (2 * p))
  {
    RoundToHundreds(a * p);
    var r := a * p % 100;
    RoundParity(a, p, 100 * Round(a * p, 100), if r < 50 then r else 100 - r);
  }

  lemma {:induction false} CoarseParity(m: nat, p: nat)
    ensures 100 * m * p % 2 == 0
  {
    assert 100 * m * p == 2 * (50 * m * p);
  }

  lemma {:induction false} HundredthsParity(a: nat)
    requires a >= 1
    ensures Hundredths(DivideBy100(a)) % 2 == a % 2 <==> KeepsParity(a)
  {
    var s := Scale(a);
    if s >= 0 {
      FineParity(a, Pow2(s));
    } else {
      CoarseParity(DivideBy100(a).m, Pow2(-s));
    }
  }

  // The provider reads an amount of the same parity exactly under the remainder test.
  lemma {:induction false} TripKeepsParityIff(a: nat)
    requires a >= 1
    ensures Trip(a).Some? && (Trip(a).value % 2 == a % 2 <==> KeepsParity(a))
  {
    TripExactIff(a);
    HundredthsParity(a);
  }

  // It holds of every amount up to the last exact one, and not of the next.
  lemma {:induction false} ParityUpToBound(a: nat)
    requires 1 <= a <= 7_036_874_417_766_401
    ensures KeepsParity(a) <==> a <= 7_036_874_417_766_400
  {
    TripKeepsParityIff(a);
    if a <= 7_036_874_417_766_400 {
      TripExactUpToBound(a);
    } else {
      TripPastBound(a);
    }
    ParityOfTrip(a, Trip(a).value, KeepsParity(a));
  }

  lemma {:induction false} ParityOfTrip(a: nat, read: nat, keeps: bool)
    requires read % 2 == a % 2 <==> keeps
    requires read == if a <= 7_036_874_417_766_400 then a else 7_036_874_417_766_402
    requires a <= 7_036_874_417_766_401
    ensures keeps <==> a <= 7_036_874_417_766_400
  {
  }
}
