/**
  The conversion of a Go int to float64, for integers: round to nearest, ties to even, to 53 significant bits
  (section 4.3.1 of IEEE 754-2019).
 */
module Rounding {

  const TWO52: int := 0x10_0000_0000_0000
  const TWO53: int := 0x20_0000_0000_0000

  /** The spacing of float64 values around `n`. */
  function Ulp(n: nat): nat {
    if n < TWO53 then 1 else 2 * Ulp(n / 2)
  }

  lemma {:induction false} UlpBounds(n: nat)
    ensures Ulp(n) > 0
    ensures n < TWO53 * Ulp(n)
    ensures n >= TWO53 ==> TWO52 * Ulp(n) <= n
  {
    if n >= TWO53 {
      UlpBounds(n / 2);
    }
  }

  lemma {:induction false} UlpMonotone(n: nat, m: nat)
    requires n <= m
    ensures Ulp(n) == Ulp(m) || 2 * Ulp(n) <= Ulp(m)
  {
    if m >= TWO53 {
      UlpBounds(m / 2);
      if n >= TWO53 {
        UlpMonotone(n / 2, m / 2);
      }
    }
  }

  predicate RoundsUp(q: nat, r: nat, u: nat) {
    2 * r > u || (2 * r == u && q % 2 == 1)
  }

  function RoundMagnitude(n: nat): nat {
    UlpBounds(n);
    var u := Ulp(n);
    if RoundsUp(n / u, n % u, u) then (n / u + 1) * u else n / u * u
  }

  function Round(n: int): int {
    if n >= 0 then RoundMagnitude(n) else 0 - RoundMagnitude(-n)
  }

  lemma Quotient(n: nat, u: nat)
    requires u > 0
    ensures n / u * u <= n < (n / u + 1) * u
    ensures n - n / u * u == n % u
  {
    assert n == n / u * u + n % u;
    NextMultiple(n / u, u);
  }

  lemma NeighbouringMultiples(n: nat, u: nat, k: nat)
    requires u > 0
    ensures k <= n / u ==> k * u <= n / u * u
    ensures k > n / u ==> k * u >= n / u * u + u
  {
    if k <= n / u {
      MultiplyMonotone(k, n / u, u);
    } else {
      MultiplyMonotone(n / u + 1, k, u);
      assert (n / u + 1) * u == n / u * u + u;
    }
  }

  lemma NextMultiple(q: nat, u: nat)
    ensures (q + 1) * u == q * u + u
  {
  }

  lemma RoundedMultiple(n: nat)
    ensures Ulp(n) > 0 && RoundMagnitude(n) % Ulp(n) == 0
    ensures RoundMagnitude(n) / Ulp(n) == if RoundsUp(n / Ulp(n), n % Ulp(n), Ulp(n)) then n / Ulp(n) + 1
                                          else n / Ulp(n)
    ensures RoundMagnitude(n) == n / Ulp(n) * Ulp(n) + if RoundsUp(n / Ulp(n), n % Ulp(n), Ulp(n)) then Ulp(n) else 0
  {
    hide Ulp, RoundMagnitude, RoundsUp;
    UlpBounds(n);
    var u, q := Ulp(n), n / Ulp(n);
    MagnitudeIs(n);
    MultipleDivides(q, u);
    MultipleDivides(q + 1, u);
    NextMultiple(q, u);
  }

  lemma MagnitudeIs(n: nat)
    requires Ulp(n) > 0
    ensures RoundMagnitude(n)
         == if RoundsUp(n / Ulp(n), n % Ulp(n), Ulp(n)) then (n / Ulp(n) + 1) * Ulp(n) else n / Ulp(n) * Ulp(n)
  {
    hide Ulp, RoundsUp;
  }

  /** Nearest: no multiple of the spacing is closer; ties: the even quotient. */
  lemma {:induction false} RoundIsNearestEven(n: nat, k: nat)
    ensures Ulp(n) > 0 && RoundMagnitude(n) % Ulp(n) == 0
    ensures Distance(RoundMagnitude(n), n) <= Distance(k * Ulp(n), n)
    ensures Distance(k * Ulp(n), n) == Distance(RoundMagnitude(n), n) && k * Ulp(n) != RoundMagnitude(n)
            ==> RoundMagnitude(n) / Ulp(n) % 2 == 0
  {
    RoundedMultiple(n);
    Quotient(n, Ulp(n));
    NeighbouringMultiples(n, Ulp(n), k);
  }

  function Distance(a: int, b: int): nat {
    if a <= b then b - a else a - b
  }

  lemma MultiplyMonotone(a: nat, b: nat, u: nat)
    requires a <= b
    ensures a * u <= b * u
  {
  }

  lemma MultipleDivides(q: nat, u: nat)
    requires u > 0
    ensures q * u % u == 0 && q * u / u == q
  {
    Quotient(q * u, u);
    var p := q * u / u;
    if p < q {
      MultiplyMonotone(p + 1, q, u);
    }
  }

  lemma MagnitudeMonotone(n: nat, m: nat)
    requires n <= m
    ensures RoundMagnitude(n) <= RoundMagnitude(m)
  {
    UlpBounds(n);
    UlpMonotone(n, m);
    if Ulp(n) == Ulp(m) {
      SameUlpMonotone(n, m, Ulp(n));
    } else {
      WiderUlpMonotone(n, m);
    }
  }

  lemma SameUlpMonotone(n: nat, m: nat, u: nat)
    requires n <= m && u > 0 && Ulp(n) == u && Ulp(m) == u
    ensures RoundMagnitude(n) <= RoundMagnitude(m)
  {
    hide Ulp, RoundMagnitude;
    RoundedMultiple(n);
    RoundedMultiple(m);
    Quotient(n, u);
    Quotient(m, u);
    QuotientMonotone(n / u, n % u, m / u, m % u, u);
  }

  lemma QuotientMonotone(q: nat, r: nat, q': nat, r': nat, u: nat)
    requires r < u && r' < u && q * u + r <= q' * u + r'
    ensures q * u + (if RoundsUp(q, r, u) then u else 0) <= q' * u + (if RoundsUp(q', r', u) then u else 0)
  {
    assert (q + 1) * u == q * u + u && (q' + 1) * u == q' * u + u;
    if q < q' {
      MultiplyMonotone(q + 1, q', u);
    } else if q > q' {
      MultiplyMonotone(q' + 1, q, u);
    }
  }

  lemma WiderUlpMonotone(n: nat, m: nat)
    requires Ulp(n) > 0 && 2 * Ulp(n) <= Ulp(m)
    ensures RoundMagnitude(n) <= RoundMagnitude(m)
  {
    hide Ulp;
    var u, v := Ulp(n), Ulp(m);
    RoundedMultiple(n);
    RoundedMultiple(m);
    LowQuotient(n);
    HighQuotient(m);
    MultiplyMonotone(n / u + 1, TWO53, u);
    MultiplyMonotone(TWO52, m / v, v);
    MultiplyMonotone(2 * u, v, TWO52);
    assert (n / u + 1) * u == n / u * u + u;
  }

  lemma LowQuotient(n: nat)
    ensures Ulp(n) > 0 && n / Ulp(n) < TWO53
  {
    UlpBounds(n);
    Quotient(n, Ulp(n));
    if n / Ulp(n) >= TWO53 {
      MultiplyMonotone(TWO53, n / Ulp(n), Ulp(n));
    }
  }

  lemma HighQuotient(n: nat)
    requires Ulp(n) > 1
    ensures n / Ulp(n) >= TWO52
  {
    UlpBounds(n);
    Quotient(n, Ulp(n));
    if n / Ulp(n) < TWO52 {
      MultiplyMonotone(n / Ulp(n) + 1, TWO52, Ulp(n));
    }
  }

  lemma RoundMonotone(a: int, b: int)
    requires a <= b
    ensures Round(a) <= Round(b)
  {
    if a >= 0 {
      MagnitudeMonotone(a, b);
    } else if b < 0 {
      MagnitudeMonotone(-b, -a);
    }
  }

  lemma RoundExact(n: int)
    requires -TWO53 <= n <= TWO53
    ensures Round(n) == n
  {
    var m := if n >= 0 then n else -n;
    if m == TWO53 {
      assert Ulp(TWO53 / 2) == 1;
      assert Ulp(m) == 2;
    } else {
      assert Ulp(m) == 1;
    }
  }

  function MinReal(a: int, b: int): int {
    if a <= b then a else b
  }

  /** Rounding both arguments and then taking the minimum is rounding the exact minimum. */
  lemma {:induction false} MinOfRounded(a: int, b: int)
    ensures MinReal(Round(a), Round(b)) == Round(MinReal(a, b))
    ensures -TWO53 <= a <= TWO53 && -TWO53 <= b <= TWO53 ==> MinReal(Round(a), Round(b)) == MinReal(a, b)
  {
    if a <= b {
      RoundMonotone(a, b);
    } else {
      RoundMonotone(b, a);
    }
    if -TWO53 <= a <= TWO53 && -TWO53 <= b <= TWO53 {
      RoundExact(MinReal(a, b));
    }
  }

  /** Comparing a rounded value with a representable count is comparing the exact value. */
  lemma RoundedComparison(a: int, d: nat)
    requires d <= TWO53
    ensures Round(a) - d >= 0 <==> a >= d
  {
    RoundExact(d);
    if a >= d {
      RoundMonotone(d, a);
    } else {
      RoundExact(d - 1);
      RoundMonotone(a, d - 1);
    }
  }

  /** The room left in a node budget, computed through float64, compared with the exact room. */
  lemma RoundedRoom(a: int, b: int, d: nat)
    requires d <= TWO53
    ensures MinReal(Round(a), Round(b)) - d >= 0 <==> MinReal(a, b) >= d
  {
    MinOfRounded(a, b);
    RoundedComparison(MinReal(a, b), d);
  }
}
