/**
 What a maker sends for what a user sent: the fees taken off a user's amount, and the payout with the maker's nonce
 in its last digits. Amounts are exact decimals, as BigNumber keeps them; only its division rounds.
 */
module Fees {
  import opened Wrappers
  import opened Decimals
  import opened Codec
  import opened CodecRoundTrip

  // ---------- BigNumber ----------

  function Scale10(n: nat): (p: real)
    ensures p >= 1.0
  {
    Pow10(n) as real
  }

  // The nearest whole number, halves away from zero.
  function HalfUp(x: real): int
  {
    if x >= 0.0 then (x + 0.5).Floor else -((-x + 0.5).Floor)
  }

  // The next whole number away from zero, unless x is one.
  function AwayFromZero(x: real): int
  {
    if x >= 0.0 then -((-x).Floor) else x.Floor
  }

  function RoundAt(x: real, p: real): int
  {
    HalfUp(x * p)
  }

  // x rounded to a whole number of p-ths.
  function NearestAt(x: real, p: real): real
    requires p >= 1.0
  {
    RoundAt(x, p) as real / p
  }

  function AwayAt(x: real, p: real): real
    requires p >= 1.0
  {
    AwayFromZero(x * p) as real / p
  }

  predicate Whole(x: real)
  {
    x == x.Floor as real
  }

  predicate WholeAt(x: real, p: real)
  {
    Whole(x * p)
  }

  const DECIMAL_PLACES := 20

  // dividedBy
  function DividedBy(x: real, y: real): real
    requires y != 0.0
  {
    NearestAt(x / y, Scale10(DECIMAL_PLACES))
  }

  // decimalPlaces(digits, ROUND_UP)
  function RoundUp(x: real, digits: nat): real
  {
    AwayAt(x, Scale10(digits))
  }

  // x has at most n decimals.
  predicate HasDecimals(x: real, n: nat)
  {
    WholeAt(x, Scale10(n))
  }

  // ---------- getToAmountFromUserAmount ----------

  datatype Amounts = Amounts(sendAmount: real, tradeFee: real, withholdingFee: real)

  function RoundingDigit(decimals: nat): nat
  {
    if decimals == 18 then 5 else 2
  }

  function GasFee(userAmount: real, tradingFee: real, gasFeeRatio: real): real
  {
    DividedBy((userAmount - tradingFee) * gasFeeRatio, 1000.0)
  }

  function ToAmount(userAmount: real, decimals: nat, tradingFee: real, gasFeeRatio: real): Amounts
  {
    var afterWithholding := userAmount - tradingFee;
    var gasFee := RoundUp(GasFee(userAmount, tradingFee, gasFeeRatio), RoundingDigit(decimals));
    Amounts(afterWithholding - gasFee, gasFee, tradingFee)
  }

  /** Nothing is lost: payout, trade fee and withholding fee add up to the user's amount. */
  lemma FeesAddUp(userAmount: real, decimals: nat, tradingFee: real, gasFeeRatio: real)
    ensures var a := ToAmount(userAmount, decimals, tradingFee, gasFeeRatio);
            a.sendAmount + a.tradeFee + a.withholdingFee == userAmount
  {
    hide RoundUp, GasFee;
  }

  function Abs(x: real): real
  {
    if x >= 0.0 then x else -x
  }

  lemma RealScale(x: real, y: real, p: real)
    requires p > 0.0
    ensures x <= y <==> x * p <= y * p
  {
    if x <= y {
      assert (y - x) * p >= 0.0;
    } else {
      assert (x - y) * p > 0.0;
    }
  }

  lemma QuotientBounds(x: real, k: real, p: real)
    requires p >= 1.0 && x * p <= k < x * p + 1.0
    ensures x <= k / p < x + 1.0 / p
  {
    assert k / p * p == k;
    assert (x + 1.0 / p) * p == x * p + 1.0;
    RealScale(x, k / p, p);
    RealScale(x + 1.0 / p, k / p, p);
  }

  lemma Cancel(q: real, p: real)
    requires p >= 1.0
    ensures q * p / p == q && q / p * p == q
  {
  }

  lemma WholeQuotient(n: int, p: real)
    requires p >= 1.0
    ensures WholeAt(n as real / p, p)
  {
    Cancel(n as real, p);
  }

  lemma AwayAtBounds(x: real, p: real)
    requires p >= 1.0
    ensures Abs(x) <= Abs(AwayAt(x, p)) < Abs(x) + 1.0 / p
    ensures WholeAt(AwayAt(x, p), p)
  {
    var k := AwayFromZero(x * p) as real;
    WholeQuotient(AwayFromZero(x * p), p);
    RealScale(0.0, x, p);
    if x >= 0.0 {
      QuotientBounds(x, k, p);
    } else {
      assert -x * p == -(x * p);
      QuotientBounds(-x, -k, p);
      assert -k / p == -(k / p);
    }
  }

  /** The trade fee is the computed fee or the next step of the rounding digit away from zero. */
  lemma TradeFeeBounds(userAmount: real, decimals: nat, tradingFee: real, gasFeeRatio: real)
    ensures var fee, gas := ToAmount(userAmount, decimals, tradingFee, gasFeeRatio).tradeFee, GasFee(userAmount, tradingFee, gasFeeRatio);
      && Abs(gas) <= Abs(fee) < Abs(gas) + 1.0 / Scale10(RoundingDigit(decimals))
      && HasDecimals(fee, RoundingDigit(decimals))
  {
    hide GasFee, Scale10, AwayAt, WholeAt, Abs;
    AwayAtBounds(GasFee(userAmount, tradingFee, gasFeeRatio), Scale10(RoundingDigit(decimals)));
  }

  // ---------- when the division is exact ----------

  lemma HalfUpWhole(y: real)
    requires Whole(y)
    ensures HalfUp(y) == y.Floor
  {
    assert -y == (-y.Floor) as real;
  }

  lemma HalfUpExactIff(y: real)
    ensures HalfUp(y) as real == y <==> Whole(y)
  {
    if Whole(y) {
      HalfUpWhole(y);
    } else {
      WholeNumber(HalfUp(y));
    }
  }

  lemma WholeNumber(n: int)
    ensures Whole(n as real)
  {
  }

  lemma QuotientIs(k: real, q: real, p: real, y: real)
    requires p >= 1.0 && y == q * p
    ensures k / p == q <==> k == y
  {
    Cancel(k, p);
    Cancel(q, p);
  }

  lemma NearestWhole(x: real, p: real)
    requires p >= 1.0 && WholeAt(x, p)
    ensures RoundAt(x, p) as real == x * p
  {
    hide HalfUp, Whole;
    HalfUpExactIff(x * p);
  }

  lemma NearestExactIff(q: real, p: real)
    requires p >= 1.0
    ensures NearestAt(q, p) == q <==> WholeAt(q, p)
  {
    hide HalfUp, Whole;
    HalfUpExactIff(q * p);
    QuotientIs(HalfUp(q * p) as real, q, p, q * p);
  }

  lemma QuotientNear(x: real, k: real, p: real, h: real)
    requires p >= 1.0 && x * p - h <= k <= x * p + h
    ensures x - h / p <= k / p <= x + h / p
  {
    var q, g := k / p, h / p;
    assert q * p == k && g * p == h;
    assert (x + g) * p == x * p + g * p && (x - g) * p == x * p - g * p;
    RealScale(x - g, q, p);
    RealScale(q, x + g, p);
  }

  lemma NearestBounds(q: real, p: real)
    requires p >= 1.0
    ensures Abs(NearestAt(q, p) - q) <= 0.5 / p
  {
    HalfUpBounds(q * p);
    QuotientNear(q, HalfUp(q * p) as real, p, 0.5);
  }

  lemma HalfUpBounds(y: real)
    ensures y - 0.5 <= HalfUp(y) as real <= y + 0.5
  {
  }

  /** Division is off by at most half a unit of the twentieth decimal. */
  lemma DivisionError(x: real, y: real)
    requires y != 0.0
    ensures Abs(DividedBy(x, y) - x / y) <= 0.5 / Scale10(DECIMAL_PLACES)
  {
    hide NearestAt, Scale10, Abs;
    NearestBounds(x / y, Scale10(DECIMAL_PLACES));
  }

  /** A quotient is exact exactly when it needs no more than twenty decimals. */
  lemma DivisionExactIff(x: real, y: real)
    requires y != 0.0
    ensures DividedBy(x, y) == x / y <==> HasDecimals(x / y, DECIMAL_PLACES)
  {
    hide NearestAt, WholeAt, Scale10;
    NearestExactIff(x / y, Scale10(DECIMAL_PLACES));
  }

  lemma WholeSame(x: real, y: real)
    requires x == y && Whole(y)
    ensures Whole(x)
  {
  }

  lemma IntsToReals(m: int, n: int)
    ensures (m * n) as real == m as real * n as real && (m - n) as real == m as real - n as real
    ensures Whole((m * n) as real) && Whole((m - n) as real)
  {
  }

  lemma WholeProduct(x: real, y: real)
    requires Whole(x) && Whole(y)
    ensures Whole(x * y) && Whole(x - y)
  {
    var m, n := x.Floor, y.Floor;
    assert x == m as real && y == n as real;
    IntsToReals(m, n);
    hide Whole;
    WholeSame(x * y, (m * n) as real);
    WholeSame(x - y, (m - n) as real);
  }

  // The product of two numbers of decimals, named so that each appears as one term.
  lemma WholeTimes(x: real, p: real, y: real, q: real, z: real, r: real)
    requires WholeAt(x, p) && WholeAt(y, q) && z == x * y && r == p * q
    ensures WholeAt(z, r)
  {
    var a, b := x * p, y * q;
    assert a * b == z * r;
    hide Whole, WholeAt;
    assert WholeAt(x, p) && WholeAt(y, q);
    WholeParts(x, p, a);
    WholeParts(y, q, b);
    WholeProduct(a, b);
    WholeParts(z, r, a * b);
  }

  lemma WholeParts(z: real, r: real, c: real)
    requires z * r == c
    ensures WholeAt(z, r) <==> Whole(c)
  {
    hide Whole;
    if Whole(c) {
      WholeSame(z * r, c);
    }
    if WholeAt(z, r) {
      WholeSame(c, z * r);
    }
  }

  lemma WholeMinus(x: real, y: real, p: real)
    requires WholeAt(x, p) && WholeAt(y, p)
    ensures WholeAt(x - y, p)
  {
    var a, b, z := x * p, y * p, x - y;
    assert a - b == z * p;
    hide Whole;
    WholeProduct(a, b);
    WholeSame(z * p, a - b);
  }

  lemma WholeThousandth(x: real, p: real, z: real, r: real)
    requires WholeAt(x, p) && x == z * 1000.0 && r == p * 1000.0
    ensures WholeAt(z, r)
  {
    assert z * r == x * p;
    hide Whole;
    WholeSame(z * r, x * p);
  }

  lemma {:induction false} Scale10Adds(m: nat, n: nat)
    ensures Scale10(m + n) == Scale10(m) * Scale10(n)
    decreases n
  {
    if n > 0 {
      Scale10Adds(m, n - 1);
      assert Pow10(m + n) == 10 * Pow10(m + n - 1);
    }
  }

  lemma Thousand()
    ensures Scale10(3) == 1000.0
  {
    Pow10Values();
  }

  /** With at most 14 decimals in the amount and the withholding fee and 3 in the ratio, the fee is computed exactly. */
  lemma GasFeeExact(userAmount: real, tradingFee: real, gasFeeRatio: real)
    requires HasDecimals(userAmount, 14) && HasDecimals(tradingFee, 14) && HasDecimals(gasFeeRatio, 3)
    ensures GasFee(userAmount, tradingFee, gasFeeRatio) == (userAmount - tradingFee) * gasFeeRatio / 1000.0
  {
    var net, product := userAmount - tradingFee, (userAmount - tradingFee) * gasFeeRatio;
    var fee := product / 1000.0;
    Scale10Adds(14, 3);
    Scale10Adds(17, 3);
    Thousand();
    var p, q, r, s := Scale10(14), Scale10(3), Scale10(17), Scale10(DECIMAL_PLACES);
    assert 14 + 3 == 17 && 17 + 3 == DECIMAL_PLACES;
    hide WholeAt, DividedBy, Scale10;
    WholeMinus(userAmount, tradingFee, p);
    WholeTimes(net, p, gasFeeRatio, q, product, r);
    WholeThousandth(product, r, fee, s);
    DivisionExactIff(product, 1000.0);
  }

  // ---------- the fee in numbers ----------

  // How many steps of the trade fee make one token.
  function Steps(decimals: nat): real
  {
    if decimals == 18 then 100000.0 else 100.0
  }

  lemma StepsAre(decimals: nat)
    ensures Scale10(RoundingDigit(decimals)) == Steps(decimals)
  {
    Pow10Values();
  }

  lemma HalfOfTwentieth()
    ensures 0.5 / Scale10(DECIMAL_PLACES) == 0.000000000000000000005
  {
    Pow10Values();
    Scale10Adds(5, 5);
    Scale10Adds(10, 10);
    assert Scale10(5) == 100000.0 && Scale10(10) == 10000000000.0;
    assert Scale10(20) == 100000000000000000000.0;
  }

  lemma SignKept(x: real, p: real)
    requires p >= 1.0
    ensures x >= 0.0 ==> NearestAt(x, p) >= 0.0 && AwayAt(x, p) >= 0.0
    ensures x <= 0.0 ==> NearestAt(x, p) <= 0.0 && AwayAt(x, p) <= 0.0
  {
    RealScale(0.0, x, p);
    RealScale(x, 0.0, p);
    var y := x * p;
    assert HalfUp(y) as real / p * p == HalfUp(y) as real && AwayFromZero(y) as real / p * p == AwayFromZero(y) as real;
    SignOfQuotient(HalfUp(y) as real, p);
    SignOfQuotient(AwayFromZero(y) as real, p);
  }

  lemma SignOfQuotient(y: real, p: real)
    requires p >= 1.0
    ensures y >= 0.0 ==> y / p >= 0.0
    ensures y <= 0.0 ==> y / p <= 0.0
  {
  }

  /** With 18 decimals the trade fee has at most five decimals and is at least the exact fee, above it by less than 10^-5; with
      any other number, two decimals and 10^-2. What the twentieth decimal of a division may lose is allowed for unless the
      exact fee needs no more decimals than that. */
  lemma TradeFeeWithin(userAmount: real, decimals: nat, tradingFee: real, gasFeeRatio: real)
    ensures var a, exact := ToAmount(userAmount, decimals, tradingFee, gasFeeRatio), (userAmount - tradingFee) * gasFeeRatio / 1000.0;
      var steps := if decimals == 18 then 100000.0 else 100.0;
      && (a.tradeFee * steps).Floor as real == a.tradeFee * steps
      && Abs(exact) - 0.000000000000000000005 <= Abs(a.tradeFee) < Abs(exact) + 1.0 / steps + 0.000000000000000000005
      && (HasDecimals(exact, 20) ==> Abs(exact) <= Abs(a.tradeFee) < Abs(exact) + 1.0 / steps)
      && (exact >= 0.0 ==> a.tradeFee >= 0.0) && (exact <= 0.0 ==> a.tradeFee <= 0.0)
      && a.withholdingFee == tradingFee && a.sendAmount == userAmount - tradingFee - a.tradeFee
  {
    hide *;
    var a, gas := ToAmount(userAmount, decimals, tradingFee, gasFeeRatio), GasFee(userAmount, tradingFee, gasFeeRatio);
    var exact := (userAmount - tradingFee) * gasFeeRatio / 1000.0;
    PartsOf(userAmount, decimals, tradingFee, gasFeeRatio);
    TradeFeeBounds(userAmount, decimals, tradingFee, gasFeeRatio);
    StepsAre(decimals);
    StepsWritten(decimals);
    WholeSteps(a.tradeFee, decimals);
    GasFeeNear(userAmount, tradingFee, gasFeeRatio);
    Within(a.tradeFee, gas, exact, 1.0 / Steps(decimals), 0.000000000000000000005);
    Exactly(exact);
  }

  lemma Exactly(x: real)
    ensures HasDecimals(x, 20) <==> HasDecimals(x, DECIMAL_PLACES)
  {
  }

  lemma StepsWritten(decimals: nat)
    ensures Steps(decimals) == if decimals == 18 then 100000.0 else 100.0
  {
  }

  lemma PartsOf(userAmount: real, decimals: nat, tradingFee: real, gasFeeRatio: real)
    ensures var a, gas := ToAmount(userAmount, decimals, tradingFee, gasFeeRatio), GasFee(userAmount, tradingFee, gasFeeRatio);
      && a.withholdingFee == tradingFee && a.sendAmount == userAmount - tradingFee - a.tradeFee
      && (gas >= 0.0 ==> a.tradeFee >= 0.0) && (gas <= 0.0 ==> a.tradeFee <= 0.0)
  {
    hide AwayAt, GasFee, Scale10;
    SignKept(GasFee(userAmount, tradingFee, gasFeeRatio), Scale10(RoundingDigit(decimals)));
  }

  lemma GasFeeNear(userAmount: real, tradingFee: real, gasFeeRatio: real)
    ensures var gas, exact := GasFee(userAmount, tradingFee, gasFeeRatio), (userAmount - tradingFee) * gasFeeRatio / 1000.0;
      && Abs(gas - exact) <= 0.000000000000000000005 && (HasDecimals(exact, DECIMAL_PLACES) ==> gas == exact)
      && (exact >= 0.0 ==> gas >= 0.0) && (exact <= 0.0 ==> gas <= 0.0)
  {
    hide NearestAt, Scale10, HasDecimals, Abs;
    var product := (userAmount - tradingFee) * gasFeeRatio;
    HalfOfTwentieth();
    DivisionError(product, 1000.0);
    DivisionExactIff(product, 1000.0);
    SignKept(product / 1000.0, Scale10(DECIMAL_PLACES));
  }

  lemma Within(fee: real, gas: real, exact: real, step: real, h: real)
    requires Abs(gas) <= Abs(fee) < Abs(gas) + step && Abs(gas - exact) <= h
    ensures Abs(exact) - h <= Abs(fee) < Abs(exact) + step + h
    ensures gas == exact ==> Abs(exact) <= Abs(fee) < Abs(exact) + step
  {
  }

  lemma WholeSteps(x: real, decimals: nat)
    requires HasDecimals(x, RoundingDigit(decimals))
    ensures (x * Steps(decimals)).Floor as real == x * Steps(decimals)
  {
    StepsAre(decimals);
    hide Scale10, Steps, RoundingDigit;
    WholeParts(x, Scale10(RoundingDigit(decimals)), x * Steps(decimals));
  }
}
