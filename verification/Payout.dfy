/**
 getAmountToSend: what a maker pays out for an incoming amount, from clearing the code in it to writing the nonce
 into the payout, and that the nonce can be read back from what was paid.
 */
module Payout {
  import opened Wrappers
  import opened Arithmetic
  import opened Decimals
  import opened Codec
  import opened CodecRoundTrip
  import opened Fees

  const MAX_NONCE := 8999

  datatype Payout = Nothing | NonceTooHigh | Refused(error: CodecError) | Paid(tAmount: string, tradeFee: real, withholdingFee: real)

  datatype Terms = Terms(fromChain: nat, fromDecimals: nat, toChain: nat, toDecimals: nat, tradingFee: real, gasFeeRatio: real)

  // zksync keeps eleven digits.
  function KeptDigits(toChain: nat, rAmount: string): string
  {
    if toChain in {3, 33} && |rAmount| > 11 then rAmount[..11] + seq(|rAmount| - 11, _ => '0') else rAmount
  }

  lemma KeptIsDigits(toChain: nat, rAmount: string)
    requires Digits(rAmount)
    ensures Digits(KeptDigits(toChain, rAmount))
  {
  }

  // The amount in whole tokens, its code cleared.
  function TokenValue(t: Terms, amount: string): Result<real, CodecError>
    requires Digits(amount)
  {
    ClearedIsDigits(t.fromChain, amount);
    match ClearCode(t.fromChain, amount)
    case Err(error) => Err(error)
    case Ok(rAmount) =>
      KeptIsDigits(t.toChain, rAmount);
      Ok(DividedBy(Value(KeptDigits(t.toChain, rAmount)) as real, Scale10(t.fromDecimals)))
  }

  // toFixed(0) of an amount in the smallest unit
  function Units(amount: real, decimals: nat): int
  {
    RoundAt(amount, Scale10(decimals))
  }

  function ReadyAmount(t: Terms, value: real): int
  {
    Units(ToAmount(value, t.toDecimals, t.tradingFee, t.gasFeeRatio).sendAmount, t.toDecimals)
  }

  function AmountToSend(t: Terms, amount: string, nonce: nat): Payout
    requires Digits(amount)
  {
    match TokenValue(t, amount)
    case Err(_) => Nothing
    case Ok(value) =>
      if nonce > MAX_NONCE then NonceTooHigh
      else
        var fees := ToAmount(value, t.toDecimals, t.tradingFee, t.gasFeeRatio);
        var ready := ReadyAmount(t, value);
        if ready < 1 then Refused(TooManyDecimals)
        else match EmbedCode(t.toChain, Str(ready), PadCode(Str(nonce)))
          case Err(error) => Refused(error)
          case Ok(tAmount) => Paid(tAmount, fees.tradeFee, fees.withholdingFee)
  }

  method GetAmountToSend(t: Terms, amountStr: string, nonce: nat) returns (result: Payout)
    requires Digits(amountStr)
    ensures result == AmountToSend(t, amountStr, nonce)
  {
    hide ClearCode, EmbedCode, ToAmount, Units, DividedBy, PadCode, Str, Value, Scale10;
    ClearedIsDigits(t.fromChain, amountStr);
    var realAmount := GetRAmountFromTAmount(t.fromChain, amountStr);
    if realAmount.Err? {
      return Nothing;
    }
    var rAmount := realAmount.value;
    if nonce > MAX_NONCE {
      return NonceTooHigh;
    }
    if t.toChain == 3 || t.toChain == 33 {
      var prefix := rAmount[..if |rAmount| < 11 then |rAmount| else 11];
      var zeros := seq(|rAmount| - |prefix|, _ => '0');
      assert |rAmount| <= 11 ==> prefix + zeros == rAmount;
      rAmount := prefix + zeros;
    }
    KeptIsDigits(t.toChain, realAmount.value);
    var nonceStr := PadCode(Str(nonce));
    var value := DividedBy(Value(rAmount) as real, Scale10(t.fromDecimals));
    var calcResult := ToAmount(value, t.toDecimals, t.tradingFee, t.gasFeeRatio);
    var readyAmount := Units(calcResult.sendAmount, t.toDecimals);
    if readyAmount < 1 {
      return Refused(TooManyDecimals);
    }
    var embedded := EmbedCode(t.toChain, Str(readyAmount), nonceStr);
    if embedded.Err? {
      return Refused(embedded.error);
    }
    return Paid(embedded.value, calcResult.tradeFee, calcResult.withholdingFee);
  }

  // ---------- the nonce comes back ----------

  lemma PaddedNonce(nonce: nat)
    requires nonce <= 9999
    ensures IsCode(PadCode(Str(nonce))) && Value(PadCode(Str(nonce))) == nonce
  {
    hide Value, Str, Pow10;
    StrLengths(nonce);
    var s := Str(nonce);
    var padded := PadCode(s);
    var zeros := padded[..4 - |s|];
    assert padded == zeros + s;
    ValueConcat(zeros, s);
    AllZerosValue(zeros);
  }

  lemma {:induction false} AllZerosValue(s: string)
    requires AllZeros(s)
    ensures Digits(s) && Value(s) == 0
  {
    if s != [] {
      AllZerosValue(s[..|s| - 1]);
      assert DigitOf('0') == 0;
    }
  }

  /** On a target chain with room for every digit, a payout of at least five digits carries its nonce: reading the code
      gives it back, and the payout differs from the computed one by less than ten thousand units. */
  lemma NonceRecovered(t: Terms, amount: string, nonce: nat, value: real)
    requires !IsLimitNumber(t.toChain) && !IsLPChain(t.toChain) && Digits(amount) && nonce <= MAX_NONCE
    requires TokenValue(t, amount) == Ok(value) && ReadyAmount(t, value) >= 10000
    ensures var p := AmountToSend(t, amount, nonce);
      && p.Paid? && Digits(p.tAmount)
      && (var code := ExtractCode(t.toChain, p.tAmount); code.Ok? && Digits(code.value) && Value(code.value) == nonce)
      && -9999 <= Value(p.tAmount) - ReadyAmount(t, value) <= 8999
  {
    hide TokenValue, ReadyAmount, ToAmount, ExtractCode, EmbedCode, PadCode, Str;
    var ready := ReadyAmount(t, value);
    var text, code := Str(ready), PadCode(Str(nonce));
    StrLengths(ready);
    PaddedNonce(nonce);
    UnlimitedRoundTrip(t.toChain, text, code);
    LastFour(t.toChain, text, code);
  }

  lemma LastFour(chain: nat, text: string, code: string)
    requires !IsLimitNumber(chain) && !IsLPChain(chain) && Canonical(text) && |text| >= 5 && IsCode(code)
    requires EmbedCode(chain, text, code).Ok? && Digits(EmbedCode(chain, text, code).value)
    ensures Value(EmbedCode(chain, text, code).value) == Value(text) - Value(text) % 10000 + Value(code)
  {
    hide Value, Pow10;
    Pow10Values();
    var kept := text[..|text| - 4];
    var t := EmbedCode(chain, text, code).value;
    assert t == kept + code + text[|text|..] == kept + code;
    ValueConcat(kept, code);
    SplitValue(text, 4);
  }

  /** What is paid, and when: with a computed payout of four digits or more and a nonce up to 8999. */
  lemma PaidIff(t: Terms, amount: string, nonce: nat, value: real)
    requires Digits(amount) && TokenValue(t, amount) == Ok(value)
    ensures AmountToSend(t, amount, nonce).Paid? <==> nonce <= 8999 && ReadyAmount(t, value) >= 1000
  {
    hide TokenValue, ReadyAmount, ToAmount, CodeEnd, Value, Str;
    if nonce <= MAX_NONCE && ReadyAmount(t, value) >= 1 {
      StrLengths(ReadyAmount(t, value));
      PaddedNonce(nonce);
    }
  }

  /** For a payout on zksync an incoming amount counts with its first eleven digits. */
  lemma ElevenDigits(toChain: nat, rAmount: string)
    requires Digits(rAmount)
    ensures var kept := KeptDigits(toChain, rAmount);
      && Digits(kept) && |kept| == |rAmount|
      && (toChain in {3, 33} && |rAmount| > 11 ==>
            && kept[..11] == rAmount[..11] && Value(kept) == Value(rAmount[..11]) * Pow10(|rAmount| - 11)
            && Value(rAmount) - Value(kept) < Pow10(|rAmount| - 11))
      && (!(toChain in {3, 33} && |rAmount| > 11) ==> kept == rAmount)
  {
    hide Value, Pow10;
    if toChain in {3, 33} && |rAmount| > 11 {
      var k := |rAmount| - 11;
      var zeros := seq(k, _ => '0');
      AllZerosValue(zeros);
      ValueConcat(rAmount[..11], zeros);
      SplitValue(rAmount, k);
      ValueBound(rAmount[11..]);
    }
  }

  // ---------- the fee is exact for tokens of 18 decimals ----------

  lemma ClearedEnds(t: Terms, amount: string)
    requires !IsLimitNumber(t.fromChain) && Digits(amount) && ClearCode(t.fromChain, amount).Ok?
    ensures var kept := KeptDigits(t.toChain, ClearCode(t.fromChain, amount).value);
      Digits(kept) && |kept| >= 4 && AllZeros(kept[|kept| - 4..])
  {
    var r := ClearCode(t.fromChain, amount).value;
    assert r == amount[..|amount| - 4] + "0000" + amount[|amount|..];
    assert forall i :: |r| - 4 <= i < |r| ==> r[i] == '0';
  }

  lemma TenThousands(s: string)
    requires Digits(s) && |s| >= 4 && AllZeros(s[|s| - 4..])
    ensures Value(s) == Value(s[..|s| - 4]) * 10000
  {
    hide Value, Pow10;
    Pow10Values();
    SplitValue(s, 4);
    AllZerosValue(s[|s| - 4..]);
  }

  lemma FourteenDecimals(q: nat)
    ensures DividedBy((q * 10000) as real, Scale10(18)) == q as real / Scale10(14) && HasDecimals(q as real / Scale10(14), 14)
  {
    Scale10Adds(14, 4);
    Scale10Adds(14, 6);
    Pow10Values();
    var p, x := Scale10(14), q as real / Scale10(14);
    assert 14 + 4 == 18 && 14 + 6 == DECIMAL_PLACES && Scale10(4) == 10000.0;
    WholeQuotient(q, p);
    var s := Scale10(18);
    hide HasDecimals, DividedBy, WholeAt;
    assert (q * 10000) as real / s == x by {
      assert x * p == q as real;
      assert x * s == (q * 10000) as real;
      Cancel(x, s);
    }
    SixMoreDecimals(x, p, Scale10(6), Scale10(DECIMAL_PLACES));
    assert HasDecimals(x, 14) by { AtScale(x, 14); }
    assert HasDecimals(x, DECIMAL_PLACES) by { AtScale(x, DECIMAL_PLACES); }
    DivisionExactIff((q * 10000) as real, s);
  }

  lemma AtScale(x: real, n: nat)
    ensures HasDecimals(x, n) <==> WholeAt(x, Scale10(n))
  {
  }

  lemma SixMoreDecimals(x: real, p: real, k: real, r: real)
    requires WholeAt(x, p) && Whole(k) && r == p * k
    ensures WholeAt(x, r)
  {
    var a := x * p;
    assert x * r == a * k;
    hide Whole;
    WholeProduct(a, k);
    WholeParts(x, r, a * k);
  }

  /** For a token of 18 decimals on a chain with room for every digit, the zeros left by the cleared code keep the fee
      exact, when the withholding fee has at most 14 decimals and the ratio at most 3. */
  lemma FeeExactAt18(t: Terms, amount: string, value: real)
    requires !IsLimitNumber(t.fromChain) && t.fromDecimals == 18 && Digits(amount) && TokenValue(t, amount) == Ok(value)
    requires HasDecimals(t.tradingFee, 14) && HasDecimals(t.gasFeeRatio, 3)
    ensures GasFee(value, t.tradingFee, t.gasFeeRatio) == (value - t.tradingFee) * t.gasFeeRatio / 1000.0
  {
    hide HasDecimals, DividedBy, GasFee, ClearCode, KeptDigits, Value, Scale10;
    ClearedEnds(t, amount);
    var kept := KeptDigits(t.toChain, ClearCode(t.fromChain, amount).value);
    TenThousands(kept);
    FourteenDecimals(Value(kept[..|kept| - 4]));
    GasFeeExact(value, t.tradingFee, t.gasFeeRatio);
  }

  // ---------- what is sent, from end to end ----------

  lemma ValueDecimals(t: Terms, amount: string, value: real)
    requires !IsLimitNumber(t.fromChain) && t.fromDecimals == 18 && Digits(amount) && TokenValue(t, amount) == Ok(value)
    ensures HasDecimals(value, 14)
    ensures ClearCode(t.fromChain, amount).Ok?
    ensures Digits(KeptDigits(t.toChain, ClearCode(t.fromChain, amount).value))
    ensures value * Scale10(18) == Value(KeptDigits(t.toChain, ClearCode(t.fromChain, amount).value)) as real
  {
    hide HasDecimals, DividedBy, ClearCode, KeptDigits, Value, Scale10;
    ClearedEnds(t, amount);
    var kept := KeptDigits(t.toChain, ClearCode(t.fromChain, amount).value);
    TenThousands(kept);
    var q := Value(kept[..|kept| - 4]);
    FourteenDecimals(q);
    Scale10Adds(14, 4);
    TenThousand();
    assert 14 + 4 == 18;
    Cancel(q as real, Scale10(14));
    Regrouped(value, q, Scale10(14), Scale10(18));
  }

  lemma TenThousand()
    ensures Scale10(4) == 10000.0
  {
    Pow10Values();
  }

  lemma Regrouped(value: real, q: nat, p: real, r: real)
    requires value * p == q as real && r == p * 10000.0
    ensures value * r == (q * 10000) as real
  {
    assert value * r == (value * p) * 10000.0;
  }

  // No fewer decimals are needed for the difference of two numbers of so many.
  lemma DifferenceDecimals(x: real, y: real, n: nat)
    requires HasDecimals(x, n) && HasDecimals(y, n)
    ensures HasDecimals(x - y, n)
  {
    hide Scale10, WholeAt;
    WholeMinus(x, y, Scale10(n));
  }

  lemma MoreDecimals(x: real, n: nat, k: nat)
    requires HasDecimals(x, n)
    ensures HasDecimals(x, n + k)
  {
    Scale10Adds(n, k);
    hide WholeAt, Pow10;
    WholePower(k);
    hide Scale10;
    SixMoreDecimals(x, Scale10(n), Scale10(k), Scale10(n + k));
  }

  lemma WholePower(k: nat)
    ensures Whole(Scale10(k))
  {
    hide Pow10;
  }

  lemma FeeNotNegative(net: real, ratio: real)
    requires net >= 0.0 && ratio >= 0.0
    ensures net * ratio / 1000.0 >= 0.0
  {
  }

  lemma ExactFee(userAmount: real, tradingFee: real, gasFeeRatio: real)
    requires GasFee(userAmount, tradingFee, gasFeeRatio) == (userAmount - tradingFee) * gasFeeRatio / 1000.0
    ensures HasDecimals((userAmount - tradingFee) * gasFeeRatio / 1000.0, 20)
  {
    hide HasDecimals, DividedBy;
    DivisionExactIff((userAmount - tradingFee) * gasFeeRatio, 1000.0);
  }

  // The payout of a token of 18 decimals is a whole number of its units.
  lemma SentDecimals(value: real, tradingFee: real, gasFeeRatio: real)
    requires HasDecimals(value, 14) && HasDecimals(tradingFee, 14)
    ensures HasDecimals(ToAmount(value, 18, tradingFee, gasFeeRatio).sendAmount, 18)
  {
    hide HasDecimals, GasFee, RoundUp, Scale10;
    var a := ToAmount(value, 18, tradingFee, gasFeeRatio);
    TradeFeeBounds(value, 18, tradingFee, gasFeeRatio);
    assert RoundingDigit(18) == 5;
    MoreDecimals(value, 14, 4);
    MoreDecimals(tradingFee, 14, 4);
    MoreDecimals(a.tradeFee, 5, 13);
    assert 14 + 4 == 18 && 5 + 13 == 18;
    DifferenceDecimals(value, tradingFee, 18);
    DifferenceDecimals(value - tradingFee, a.tradeFee, 18);
  }

  lemma ExactUnits(x: real)
    requires HasDecimals(x, 18)
    ensures Units(x, 18) as real == x * Scale10(18)
  {
    hide Scale10, RoundAt, WholeAt;
    NearestWhole(x, Scale10(18));
  }

  /** For tokens of 18 decimals, from a chain with room for every digit, everything is computed to the last unit: the payout
      before its nonce is what the cleared amount is worth less the withholding fee, the trade fee of so many thousandths of
      that, and less than 10^-5 more. */
  lemma SentWithin18(t: Terms, amount: string, value: real)
    requires !IsLimitNumber(t.fromChain) && t.fromDecimals == t.toDecimals == 18 && Digits(amount) && TokenValue(t, amount) == Ok(value)
    requires HasDecimals(t.tradingFee, 14) && HasDecimals(t.gasFeeRatio, 3) && value >= t.tradingFee && t.gasFeeRatio >= 0.0
    ensures var net, sent := value - t.tradingFee, ToAmount(value, 18, t.tradingFee, t.gasFeeRatio).sendAmount;
      && net - net * t.gasFeeRatio / 1000.0 - 0.00001 < sent <= net - net * t.gasFeeRatio / 1000.0
      && ReadyAmount(t, value) as real == sent * Scale10(18)
  {
    hide HasDecimals, DividedBy, GasFee, ToAmount, ClearCode, KeptDigits, Value, Scale10, TokenValue, Units, Abs;
    FeeExactAt18(t, amount, value);
    ValueDecimals(t, amount, value);
    SentDecimals(value, t.tradingFee, t.gasFeeRatio);
    ExactUnits(ToAmount(value, 18, t.tradingFee, t.gasFeeRatio).sendAmount);
    SentBounds(value, t.tradingFee, t.gasFeeRatio, value - t.tradingFee);
  }

  lemma SentBounds(value: real, tradingFee: real, ratio: real, net: real)
    requires net == value - tradingFee && net >= 0.0 && ratio >= 0.0
    requires GasFee(value, tradingFee, ratio) == (value - tradingFee) * ratio / 1000.0
    ensures var sent := ToAmount(value, 18, tradingFee, ratio).sendAmount;
      net - net * ratio / 1000.0 - 0.00001 < sent <= net - net * ratio / 1000.0
  {
    hide HasDecimals, ToAmount, GasFee;
    ExactFee(value, tradingFee, ratio);
    TradeFeeWithin(value, 18, tradingFee, ratio);
    var exact := (value - tradingFee) * ratio / 1000.0;
    assert exact == net * ratio / 1000.0;
    FeeNotNegative(net, ratio);
  }
}
