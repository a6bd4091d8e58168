/** Digit strings and the numbers they write. */
module Decimals {
  import opened Arithmetic

  predicate IsDigit(c: char)
  {
    '0' <= c <= '9'
  }

  predicate Digits(s: string)
  {
    forall i :: 0 <= i < |s| ==> IsDigit(s[i])
  }

  function DigitOf(c: char): (d: nat)
    requires IsDigit(c)
    ensures d < 10
  {
    (c - '0') as nat
  }

  function Char(d: nat): (c: char)
    requires d < 10
    ensures IsDigit(c) && DigitOf(c) == d
  {
    '0' + d as char
  }

  function Value(s: string): nat
    requires Digits(s)
  {
    if s == [] then 0 else Value(s[..|s| - 1]) * 10 + DigitOf(s[|s| - 1])
  }

  // Without leading zeros.
  predicate Canonical(s: string)
  {
    Digits(s) && s != [] && (|s| > 1 ==> s[0] != '0')
  }

  // String(n)
  function Str(n: nat): (s: string)
    ensures Canonical(s) && Value(s) == n && (n > 0 ==> s[0] != '0')
    decreases n
  {
    if n < 10 then [Char(n)] else
      var init := Str(n / 10);
      assert (init + [Char(n % 10)])[..|init|] == init;
      init + [Char(n % 10)]
  }

  function Pow10(n: nat): (p: nat)
    ensures p >= 1
  {
    if n == 0 then 1 else 10 * Pow10(n - 1)
  }

  lemma Pow10Values()
    ensures Pow10(1) == 10 && Pow10(2) == 100 && Pow10(3) == 1000 && Pow10(4) == 10000 && Pow10(5) == 100000
  {
    assert Pow10(0) == 1 && Pow10(1) == 10 * Pow10(0) && Pow10(2) == 10 * Pow10(1);
    assert Pow10(3) == 10 * Pow10(2) && Pow10(4) == 10 * Pow10(3) && Pow10(5) == 10 * Pow10(4);
  }

  lemma {:induction false} ValueConcat(a: string, b: string)
    requires Digits(a) && Digits(b)
    ensures Digits(a + b) && Value(a + b) == Value(a) * Pow10(|b|) + Value(b)
    decreases |b|
  {
    if b == [] {
      assert a + b == a;
    } else {
      var init := b[..|b| - 1];
      ValueConcat(a, init);
      assert (a + b)[..|a + b| - 1] == a + init;
      LastDigit(b);
      LastDigit(a + b);
      assert Pow10(|b|) == 10 * Pow10(|init|);
      hide Value, Pow10;
      Distribute(Value(a), Pow10(|init|), Value(init));
    }
  }

  lemma Distribute(x: int, p: int, v: int)
    ensures (x * p + v) * 10 == x * (10 * p) + v * 10
  {
  }

  lemma {:induction false} ValueBound(s: string)
    requires Digits(s)
    ensures Value(s) < Pow10(|s|)
    ensures s != [] && s[0] != '0' ==> Value(s) >= Pow10(|s| - 1)
  {
    if s != [] {
      var init := s[..|s| - 1];
      ValueBound(init);
      if |s| > 1 && s[0] != '0' {
        assert init[0] == s[0];
        assert Pow10(|s| - 1) == 10 * Pow10(|init| - 1);
      }
    }
  }

  // The last k digits are the remainder.
  lemma SplitValue(s: string, k: nat)
    requires Digits(s) && k <= |s|
    ensures Digits(s[..|s| - k]) && Digits(s[|s| - k..])
    ensures Value(s) == Value(s[..|s| - k]) * Pow10(k) + Value(s[|s| - k..])
    ensures Value(s) / Pow10(k) == Value(s[..|s| - k]) && Value(s) % Pow10(k) == Value(s[|s| - k..])
  {
    hide Value, Pow10;
    assert s == s[..|s| - k] + s[|s| - k..];
    ValueConcat(s[..|s| - k], s[|s| - k..]);
    ValueBound(s[|s| - k..]);
    DivMod(Value(s[..|s| - k]), Pow10(k), Value(s[|s| - k..]));
  }

  lemma LastDigit(s: string)
    requires Digits(s) && s != []
    ensures var init, last := s[..|s| - 1], s[|s| - 1];
      s == init + [last] && Digits(init) && IsDigit(last) && Value(s) == Value(init) * 10 + DigitOf(last)
  {
  }

  lemma DigitInjective(c: char, d: char)
    requires IsDigit(c) && IsDigit(d) && DigitOf(c) == DigitOf(d)
    ensures c == d
  {
  }

  // Digit strings of one length are their values.
  lemma {:induction false} ValueInjective(a: string, b: string)
    requires Digits(a) && Digits(b) && |a| == |b| && Value(a) == Value(b)
    ensures a == b
  {
    hide Value, DigitOf, Digits;
    if a != [] {
      LastDigit(a);
      LastDigit(b);
      QuotientUnique(Value(a[..|a| - 1]), Value(b[..|b| - 1]), 10, DigitOf(a[|a| - 1]), DigitOf(b[|b| - 1]));
      DigitInjective(a[|a| - 1], b[|b| - 1]);
      ValueInjective(a[..|a| - 1], b[..|b| - 1]);
    }
  }

  // A string without leading zeros is what String makes of its value.
  lemma CanonicalStr(s: string)
    requires Canonical(s)
    ensures Str(Value(s)) == s
  {
    hide Value, Pow10, Str;
    var t := Str(Value(s));
    ValueBound(s);
    ValueBound(t);
    if |s| == |t| {
      ValueInjective(s, t);
    } else if |s| < |t| {
      Pow10Monotone(|s|, |t| - 1);
    } else {
      Pow10Monotone(|t|, |s| - 1);
    }
  }

  lemma {:induction false} Pow10Adds(m: nat, n: nat)
    ensures Pow10(m + n) == Pow10(m) * Pow10(n)
    decreases m
  {
    if m > 0 {
      Pow10Adds(m - 1, n);
      assert Pow10(m + n) == 10 * Pow10(m - 1 + n);
    }
  }

  lemma {:induction false} Pow10Monotone(m: nat, n: nat)
    ensures m <= n ==> Pow10(m) <= Pow10(n)
    decreases n
  {
    if m < n {
      Pow10Monotone(m, n - 1);
    }
  }

  // How many digits a number has, for the sizes codes come in.
  lemma StrLengths(n: nat)
    ensures n < 10 <==> |Str(n)| == 1
    ensures 10 <= n < 100 <==> |Str(n)| == 2
    ensures 100 <= n < 1000 <==> |Str(n)| == 3
    ensures 1000 <= n < 10000 <==> |Str(n)| == 4
    ensures n >= 10000 <==> |Str(n)| >= 5
  {
    assert n >= 10 ==> |Str(n)| == 1 + |Str(n / 10)|;
    assert n >= 100 ==> |Str(n / 10)| == 1 + |Str(n / 10 / 10)|;
    assert n >= 1000 ==> |Str(n / 10 / 10)| == 1 + |Str(n / 10 / 10 / 10)|;
    assert n >= 10000 ==> |Str(n / 10 / 10 / 10)| == 1 + |Str(n / 10 / 10 / 10 / 10)|;
  }

  // The value of up to four digits, written out.
  lemma ValueOfDigits(a: char, b: char, c: char, d: char)
    requires IsDigit(a) && IsDigit(b) && IsDigit(c) && IsDigit(d)
    ensures Value([a]) == DigitOf(a)
    ensures Value([a, b]) == DigitOf(a) * 10 + DigitOf(b)
    ensures Value([a, b, c]) == DigitOf(a) * 100 + DigitOf(b) * 10 + DigitOf(c)
    ensures Value([a, b, c, d]) == DigitOf(a) * 1000 + DigitOf(b) * 100 + DigitOf(c) * 10 + DigitOf(d)
  {
    assert [a][..0] == [] && [a, b][..1] == [a] && [a, b, c][..2] == [a, b] && [a, b, c, d][..3] == [a, b, c];
  }

  // JavaScript's `>` on strings.
  predicate Greater(a: string, b: string)
  {
    if a == [] then false
    else if b == [] then true
    else if a[0] != b[0] then a[0] > b[0]
    else Greater(a[1..], b[1..])
  }
}
