/**
 How JavaScript's unary plus turns an exact integer into an IEEE 754 double (round to nearest, ties to
 even), which is what a comparison such as `+amount > +limit` really compares. The largest finite doubles
 and infinity are left out: amounts that long do not fit the database column they are stored in.
 */
module JsNumber {
  import opened Arithmetic

  const PRECISION := 0x20_0000_0000_0000  // 2^53

  // The gap between neighbouring doubles around n: 1 up to 2^53, then doubling with every further bit.
  function Gap(n: nat): (g: nat)
    ensures g >= 1
    decreases n
  {
    if n < PRECISION then 1 else 2 * Gap(n / 2)
  }

  // n / 2^k taken to the nearest integer below 2^53 (ties to even), times 2^k.
  function Round(n: nat): nat
  {
    var g := Gap(n);
    var q, r := n / g, n % g;
    if 2 * r < g || (2 * r == g && q % 2 == 0) then q * g else (q + 1) * g
  }

  // JavaScript's `+a > +b`.
  predicate Greater(a: nat, b: nat)
  {
    Round(a) > Round(b)
  }

  // Between two consecutive powers of two there are 2^52 doubles.
  lemma {:induction false} GapRange(n: nat)
    ensures n < PRECISION * Gap(n)
    ensures Gap(n) > 1 ==> PRECISION / 2 * Gap(n) <= n
    decreases n
  {
    if n >= PRECISION {
      GapRange(n / 2);
    }
  }

  lemma {:induction false} GapSteps(a: nat, b: nat)
    requires a <= b
    ensures Gap(a) == Gap(b) || 2 * Gap(a) <= Gap(b)
    decreases b
  {
    if b >= PRECISION {
      if a >= PRECISION {
        GapSteps(a / 2, b / 2);
      }
    }
  }

  // A multiple of g that fits below n has its factor below the quotient.
  lemma FactorBelowQuotient(p: int, n: nat, g: nat)
    requires g > 0 && p * g <= n
    ensures p <= n / g
  {
    var q := n / g;
    Scale(q + 1, p, g);
  }

  lemma DivMonotone(a: nat, b: nat, g: nat)
    requires a <= b && g > 0
    ensures a / g <= b / g
  {
    FactorBelowQuotient(a / g, b, g);
  }

  lemma QuotientBelowPrecision(n: nat)
    ensures n / Gap(n) < PRECISION
  {
    GapRange(n);
    var g, q := Gap(n), n / Gap(n);
    Scale(PRECISION, q, g);
    assert q * g <= n;
  }

  lemma RoundBounds(n: nat)
    ensures n / Gap(n) * Gap(n) <= Round(n) <= (n / Gap(n) + 1) * Gap(n)
    ensures Round(n) <= PRECISION * Gap(n)
  {
    var g, q := Gap(n), n / Gap(n);
    QuotientBelowPrecision(n);
    Scale(q + 1, PRECISION, g);
    Scale(q, q + 1, g);
    assert Round(n) == q * g || Round(n) == (q + 1) * g;
  }

  // Rounding never swaps two integers.
  lemma {:induction false} RoundMonotone(a: nat, b: nat)
    requires a <= b
    ensures Round(a) <= Round(b)
  {
    GapSteps(a, b);
    if Gap(b) == Gap(a) {
      RoundMonotoneInBinade(a, b);
    } else {
      RoundBounds(a);
      RoundFloor(b);
    }
  }

  lemma RoundMonotoneInBinade(a: nat, b: nat)
    requires a <= b && Gap(a) == Gap(b)
    ensures Round(a) <= Round(b)
  {
    RoundBounds(a);
    RoundBounds(b);
    var g := Gap(a);
    DivMonotone(a, b, g);
    if a / g < b / g {
      Scale(a / g + 1, b / g, g);
    } else {
      SameQuotient(a, b, g);
      Scale(a / g, a / g + 1, g);
    }
  }

  lemma RoundFloor(n: nat)
    requires Gap(n) > 1
    ensures PRECISION / 2 * Gap(n) <= Round(n)
  {
    var g := Gap(n);
    GapRange(n);
    RoundBounds(n);
    FactorBelowQuotient(PRECISION / 2, n, g);
    Scale(PRECISION / 2, n / g, g);
  }

  lemma SameQuotient(a: nat, b: nat, g: nat)
    requires g > 0 && a <= b && a / g == b / g
    ensures a % g <= b % g
  {
    assert a == a / g * g + a % g && b == b / g * g + b % g;
  }

  lemma RoundExact(n: nat)
    requires n <= PRECISION
    ensures Round(n) == n
  {
    if n < PRECISION {
      assert Gap(n) == 1;
    } else {
      assert Gap(n) == 2 * Gap(n / 2) == 2;
    }
  }

  /** The comparison of doubles agrees with the comparison of the integers for every left operand exactly
      when the right operand and its successor are different doubles. */
  lemma GreaterExactIff(limit: nat)
    ensures (forall a: nat :: Greater(a, limit) <==> a > limit) <==> Greater(limit + 1, limit)
  {
    if Greater(limit + 1, limit) {
      forall a: nat
        ensures Greater(a, limit) <==> a > limit
      {
        if a > limit {
          RoundMonotone(limit + 1, a);
        } else {
          RoundMonotone(a, limit);
        }
      }
    }
  }

  // Every right operand below 2^53 is compared exactly; 2^53 is the first that is not.
  lemma GreaterExactBelowPrecision(limit: nat)
    ensures limit < PRECISION ==> Greater(limit + 1, limit)
    ensures !Greater(PRECISION + 1, PRECISION)
  {
    if limit < PRECISION {
      RoundExact(limit);
      RoundExact(limit + 1);
    }
    assert Gap(PRECISION) == 2 * Gap(PRECISION / 2) == 2;
    assert Gap(PRECISION + 1) == 2 * Gap((PRECISION + 1) / 2) == 2;
  }
}
