/**
 The dealer protocol: the five digits that carry dealer, ebc and chain index in a source amount, written by the open
 API and read by the refinery, and the response the refinery computes from such an amount.
 */
module Dealer {
  import opened Wrappers
  import opened Arithmetic
  import opened Decimals
  import opened Codec

  // ---------- writing the code ----------

  function Pad2(n: nat): string
  {
    if |Str(n)| < 2 then "0" + Str(n) else Str(n)
  }

  // safeCode. A missing dealer is written out as text; an ebc that is missing or 0 leaves only a chain code.
  function SafeCode(dealer: Option<nat>, ebc: Option<nat>, chain: nat): string
  {
    if ebc.Some? && ebc.value > 0
    then (if dealer.Some? then Pad2(dealer.value) else "0undefined") + Str(ebc.value) + Pad2(chain)
    else Str(9000 + chain)
  }

  // The open API's own table of sizes.
  function LargeMaxText(chain: nat): (max: string)
    ensures |max| >= 9
  {
    if chain in {3, 33, 13, 513} then "34359738367"
    else if chain in {8, 88, 11, 511} then "268435455"
    else "115792089237316200000000000000000000000000000000000000000000000000000000000000"
  }

  // slice(0, n): a negative end counts from the end
  function SliceTo(s: string, n: int): (r: string)
    ensures 0 <= n <= |s| ==> r == s[..n]
  {
    if n > |s| then s else if n >= 0 then s[..n] else if |s| + n >= 0 then s[..|s| + n] else ""
  }

  // Where the code of an amount ends on a bit-limited chain.
  function LargeEnd(chain: nat, amount: string): (e: nat)
    ensures e >= 8
  {
    if Greater(RemoveSidesZero(amount), LargeMaxText(chain)) then |LargeMaxText(chain)| - 1 else |LargeMaxText(chain)|
  }

  // Digits follow the code.
  predicate Moved(chain: nat, amount: string)
  {
    IsLimitNumber(chain) && |amount| > LargeEnd(chain, amount)
  }

  datatype LargeError = BelowOneUnit | InvalidAmount

  function EmbedLarge(chain: nat, amount: string, code: string): Result<string, LargeError>
    requires Digits(amount)
  {
    var max, significant := LargeMaxText(chain), RemoveSidesZero(amount);
    if Value(amount) < 1 then Err(BelowOneUnit)
    else if |significant| > |max| then Err(InvalidAmount)
    else
      var valid := LargeEnd(chain, amount);
      if IsLimitNumber(chain) && |amount| > valid then Ok(SliceTo(amount, valid - |code|) + code + amount[valid..])
      else if IsLPChain(chain) then Ok(amount)
      else Ok(SliceTo(amount, |amount| - |code|) + code)
  }

  // The value a user is told to send: the amount with its code, plus the withholding fee.
  function SendValue(tAmount: string, withholdingFee: nat): string
    requires Digits(tAmount)
  {
    Str(Value(tAmount) + withholdingFee)
  }

  // The largest amount a chain takes, by the open API's own table.
  function LargeMax(chain: nat): string
  {
    if chain == 3 || chain == 33 || chain == 13 || chain == 513 then "34359738367"
    else if chain == 8 || chain == 88 || chain == 11 || chain == 511 then "268435455"
    else "115792089237316200000000000000000000000000000000000000000000000000000000000000"
  }

  /** What embedding makes of an amount, case by case. An amount of fewer digits than its code is cut from its end once more
      than it is long. */
  lemma EmbedLargeIs(chain: nat, amount: string, code: string)
    requires Digits(amount) && |code| == 5
    ensures var n, max, r := |amount|, LargeMax(chain), EmbedLarge(chain, amount, code);
      var e := if Greater(RemoveSidesZero(amount), max) then |max| - 1 else |max|;
      if Value(amount) == 0 then r == Err(BelowOneUnit)
      else if |RemoveSidesZero(amount)| > |max| then r == Err(InvalidAmount)
      else if chain in {3, 33, 8, 88, 11, 511, 12, 512} && n > e then
        5 < e < n && r == Ok(amount[..e - 5] + code + amount[e..])
      else if chain == 9 || chain == 99 then r == Ok(amount)
      else r == Ok((if n >= 5 then amount[..n - 5] else if 2 * n >= 5 then amount[..2 * n - 5] else "") + code)
  {
    hide Value, RemoveSidesZero, Greater, LargeMaxText, LargeMax;
    SameMax(chain);
  }

  lemma SameMax(chain: nat)
    ensures LargeMaxText(chain) == LargeMax(chain)
  {
  }

  // ---------- reading it ----------

  function SecurityCodeOf(value: string): string
  {
    value[if |value| >= 5 then |value| - 5 else 0..]
  }

  datatype Parsed = Parsed(dealer: nat, ebc: Option<nat>, chain: nat)

  // Number of an empty text is 0, and a missing character is not a number.
  function ParseSecurityCode(code: string): Parsed
    requires Digits(code)
  {
    var n := |code|;
    Parsed(Value(code[..if n < 2 then n else 2]),
           if n < 3 then None else Some(DigitOf(code[2])),
           if n < 3 then 0 else Value(code[3..]))
  }

  // ---------- the code comes back ----------

  function CodeValue(dealer: nat, ebc: nat, chain: nat): nat
  {
    dealer * 1000 + ebc * 100 + chain
  }

  lemma Pad2Is(n: nat)
    requires n < 100
    ensures Digits(Pad2(n)) && |Pad2(n)| == 2 && Value(Pad2(n)) == n
  {
    StrLengths(n);
    Pow10Values();
    hide Str;
    ValueConcat("0", Str(n));
    ValueOfDigits('0', '0', '0', '0');
  }

  lemma SafeCodeIs(dealer: nat, ebc: nat, chain: nat)
    requires dealer < 100 && 0 < ebc < 10 && chain < 100
    ensures var code := SafeCode(Some(dealer), Some(ebc), chain);
      Digits(code) && |code| == 5 && Value(code) == CodeValue(dealer, ebc, chain)
  {
    hide Pad2;
    Pad2Is(dealer);
    Pad2Is(chain);
    StrLengths(ebc);
    Pow10Values();
    hide Str, Value, Pow10;
    ValueConcat(Pad2(dealer), Str(ebc));
    ValueConcat(Pad2(dealer) + Str(ebc), Pad2(chain));
  }

  /** Without an ebc the code is the chain's alone. */
  lemma ChainCodeOnly(dealer: Option<nat>, ebc: Option<nat>, chain: nat)
    requires chain < 1000 && ebc in {None, Some(0)}
    ensures var code := SafeCode(dealer, ebc, chain); Digits(code) && |code| == 4 && Value(code) == 9000 + chain
  {
    StrLengths(9000 + chain);
    hide Str, Value;
  }

  /** A code of any length is read as the first two digits, the third, and the rest of its number. */
  lemma ParsedAny(code: string)
    requires Digits(code)
    ensures var p, n, v := ParseSecurityCode(code), |code|, Value(code);
      if n < 3 then p == Parsed(v, None, 0)
      else p.ebc.Some? && p.ebc.value < 10 && p.chain < Pow10(n - 3)
           && v == (p.dealer * 10 + p.ebc.value) * Pow10(n - 3) + p.chain
  {
    hide Value, Pow10, DigitOf;
    if |code| >= 3 {
      var head, rest := code[..3], code[3..];
      SplitValue(code, |code| - 3);
      assert code[..|code| - (|code| - 3)] == head && code[|code| - (|code| - 3)..] == rest;
      ValueBound(rest);
      SplitValue(head, 1);
      assert head[..|head| - 1] == code[..2] && head[|head| - 1..] == [code[2]];
      OneDigit(code[2]);
      Pow10Values();
    } else {
      assert code[..|code|] == code;
    }
  }

  // Five digits read are the three parts of their number.
  lemma ParsedFive(code: string)
    requires Digits(code) && |code| == 5
    ensures var p, v := ParseSecurityCode(code), Value(code);
      && p.ebc.Some? && p.ebc.value < 10 && p.chain < 100 && v == CodeValue(p.dealer, p.ebc.value, p.chain)
  {
    hide Value, Pow10, DigitOf;
    SplitValue(code, 3);
    var last := code[2..];
    assert code[|code| - 3..] == last;
    SplitValue(last, 2);
    assert last[..|last| - 2] == [code[2]] && last[|last| - 2..] == code[3..];
    OneDigit(code[2]);
    Pow10Values();
    ValueBound(code[3..]);
  }

  lemma OneDigit(c: char)
    requires IsDigit(c)
    ensures Value([c]) == DigitOf(c) < 10
  {
    ValueOfDigits(c, c, c, c);
  }

  // Fewer than five digits, without leading zeros, never read as a dealer below ten with an ebc.
  lemma ParsedShort(code: string)
    requires Canonical(code) && |code| < 5
    ensures var p := ParseSecurityCode(code); p.ebc.None? || p.dealer >= 10
  {
    if |code| >= 3 {
      ValueOfDigits(code[0], code[1], code[2], code[2]);
      assert code[..2] == [code[0], code[1]];
    }
  }

  lemma CodeValueInjective(a: nat, b: nat, c: nat, d: nat, e: nat, f: nat)
    requires b < 10 && c < 100 && e < 10 && f < 100 && CodeValue(a, b, c) == CodeValue(d, e, f)
    ensures a == d && b == e && c == f
  {
    QuotientUnique(a * 10 + b, d * 10 + e, 100, c, f);
    QuotientUnique(a, d, 10, b, e);
  }

  // What the last five digits of a sum are, when the first term ends in a known five.
  lemma SumRemainder(k: nat, code: nat, w: nat)
    requires code < 100000
    ensures (k * 100000 + code + w) % 100000 == code <==> w % 100000 == 0
    ensures (k * 100000 + code + w) % 10000 == code % 10000 <==> w % 10000 == 0
  {
    var v := k * 100000 + code + w;
    RemainderShift(code, 100000 * k + w, 100000);
    RemainderShift(code, 100000 * k + w, 10000);
    Multiples(k, 1, w, 100000);
    Multiples(k, 10, w, 10000);
  }

  lemma RemainderShift(a: nat, b: nat, m: nat)
    requires m > 0
    ensures (a + b) % m == a % m <==> b % m == 0
  {
    var q, r, s, t := a / m, a % m, b / m, b % m;
    assert a == q * m + r && b == s * m + t;
    SumOfParts(a, b, q, r, s, t, m);
  }

  lemma SumOfParts(a: nat, b: nat, q: nat, r: nat, s: nat, t: nat, m: nat)
    requires r < m && t < m && a == q * m + r && b == s * m + t
    ensures (a + b) % m == if r + t < m then r + t else r + t - m
  {
    Collected(q, s, m);
    if r + t < m {
      DivMod(q + s, m, r + t);
    } else {
      DivMod(q + s + 1, m, r + t - m);
    }
  }

  lemma Collected(q: nat, s: nat, m: nat)
    ensures q * m + s * m == (q + s) * m && (q + s) * m + m == (q + s + 1) * m
  {
  }

  lemma Multiples(k: nat, f: nat, w: nat, m: nat)
    requires m > 0 && f > 0
    ensures (f * m * k + w) % m == w % m
  {
    var s, t := w / m, w % m;
    assert f * m * k + w == (f * k + s) * m + t;
    DivMod(f * k + s, m, t);
  }

  // An unlimited amount of five digits or more, with its code: the kept digits, then the code's value.
  lemma EmbeddedValue(chain: nat, amount: string, code: string)
    requires !Moved(chain, amount) && !IsLPChain(chain) && Canonical(amount) && |amount| >= 5 && Digits(code) && |code| == 5
    requires EmbedLarge(chain, amount, code).Ok?
    ensures var t, kept := EmbedLarge(chain, amount, code).value, amount[..|amount| - 5];
      && Digits(t) && Digits(kept) && Value(t) == Value(kept) * 100000 + Value(code)
      && (|amount| > 5 ==> Value(kept) > 0) && (|amount| == 5 ==> Value(kept) == 0)
  {
    hide Value, Pow10, LargeEnd, RemoveSidesZero, LargeMaxText;
    Pow10Values();
    var kept := amount[..|amount| - 5];
    ValueConcat(kept, code);
    ValueBound(kept);
    NoDigits();
  }

  lemma NoDigits()
    ensures Value("") == 0
  {
  }

  lemma LastFive(v: nat)
    ensures var text := Str(v); var code := SecurityCodeOf(text);
      && Digits(code)
      && (v >= 10000 ==> |code| == 5 && Value(code) == v % 100000)
      && (v < 10000 ==> code == text && |code| < 5)
  {
    StrLengths(v);
    hide Value, Str, Pow10;
    Pow10Values();
    if v >= 10000 {
      SplitValue(Str(v), 5);
    }
  }

  // The code survives in the value when nothing is added below its place, and the value has five digits.
  predicate Survives(dealer: nat, amount: string, withholdingFee: nat)
  {
    withholdingFee % 100000 == 0 && (|amount| > 5 || withholdingFee > 0 || dealer >= 10)
  }

  /** Dealer, ebc and chain index written at the end of an amount of five digits or more are read back from the value sent
      exactly when the withholding fee is a multiple of 10^5, and the value has no fewer than five digits. */
  lemma DealerCodeIff(source: nat, amount: string, dealer: nat, ebc: nat, chain: nat, withholdingFee: nat)
    requires !Moved(source, amount) && !IsLPChain(source) && Canonical(amount) && |amount| >= 5
    requires dealer < 100 && 0 < ebc < 10 && chain < 100
    requires EmbedLarge(source, amount, SafeCode(Some(dealer), Some(ebc), chain)).Ok?
    ensures var t := EmbedLarge(source, amount, SafeCode(Some(dealer), Some(ebc), chain)).value;
      && Digits(t) && Digits(SecurityCodeOf(SendValue(t, withholdingFee)))
      && (Survives(dealer, amount, withholdingFee) <==>
          ParseSecurityCode(SecurityCodeOf(SendValue(t, withholdingFee))) == Parsed(dealer, Some(ebc), chain))
  {
    var code := SafeCode(Some(dealer), Some(ebc), chain);
    hide Value, Str, EmbedLarge, Moved, SafeCode, ParseSecurityCode, SecurityCodeOf, CodeValue;
    SafeCodeIs(dealer, ebc, chain);
    EmbeddedValue(source, amount, code);
    var t, kept := EmbedLarge(source, amount, code).value, Value(amount[..|amount| - 5]);
    var v := Value(t) + withholdingFee;
    var c := CodeValue(dealer, ebc, chain);
    CodeValueRange(dealer, ebc, chain);
    LastFive(v);
    SumRemainder(kept, c, withholdingFee);
    var read := SecurityCodeOf(Str(v));
    if v >= 10000 {
      ParsedFive(read);
      var p := ParseSecurityCode(read);
      if CodeValue(p.dealer, p.ebc.value, p.chain) == c {
        CodeValueInjective(p.dealer, p.ebc.value, p.chain, dealer, ebc, chain);
      }
      SmallValue(kept, c, withholdingFee, dealer, |amount|);
    } else {
      ParsedShort(read);
      SmallValue(kept, c, withholdingFee, dealer, |amount|);
    }
  }

  lemma CodeValueRange(dealer: nat, ebc: nat, chain: nat)
    requires dealer < 100 && 0 < ebc < 10 && chain < 100
    ensures CodeValue(dealer, ebc, chain) < 100000 && (CodeValue(dealer, ebc, chain) >= 10000 <==> dealer >= 10)
  {
  }

  // When the value sent has five digits.
  lemma SmallValue(kept: nat, c: nat, w: nat, dealer: nat, length: nat)
    requires c < 100000 && (c >= 10000 <==> dealer >= 10) && (length > 5 ==> kept > 0) && (length == 5 ==> kept == 0) && length >= 5
    ensures w % 100000 == 0 ==> (kept * 100000 + c + w >= 10000 <==> length > 5 || w > 0 || dealer >= 10)
  {
    assert w % 100000 == 0 && w > 0 ==> w >= 100000;
  }

  /** The last four digits of the code, and with them ebc and chain index, survive exactly when the withholding fee
      ends in 0000, which is all that is checked when a rule is listed. */
  lemma LastFourIff(source: nat, amount: string, dealer: nat, ebc: nat, chain: nat, withholdingFee: nat)
    requires !Moved(source, amount) && !IsLPChain(source) && Canonical(amount) && |amount| >= 5
    requires dealer < 100 && 0 < ebc < 10 && chain < 100
    requires EmbedLarge(source, amount, SafeCode(Some(dealer), Some(ebc), chain)).Ok?
    ensures var t := EmbedLarge(source, amount, SafeCode(Some(dealer), Some(ebc), chain)).value;
      && Digits(t)
      && (Value(SendValue(t, withholdingFee)) % 10000 == CodeValue(dealer, ebc, chain) % 10000 <==> withholdingFee % 10000 == 0)
  {
    var code := SafeCode(Some(dealer), Some(ebc), chain);
    hide Value, Str, EmbedLarge, Moved, SafeCode, CodeValue;
    SafeCodeIs(dealer, ebc, chain);
    EmbeddedValue(source, amount, code);
    CodeValueRange(dealer, ebc, chain);
    SumRemainder(Value(amount[..|amount| - 5]), CodeValue(dealer, ebc, chain), withholdingFee);
  }

  // ---------- digits after the code ----------

  // The digits kept before the code, the code, and those after it.
  lemma MovedValue(chain: nat, amount: string, code: string)
    requires Moved(chain, amount) && Canonical(amount) && Digits(code) && |code| == 5
    requires EmbedLarge(chain, amount, code).Ok?
    ensures var e := LargeEnd(chain, amount);
      var t, tail, k := EmbedLarge(chain, amount, code).value, amount[e..], |amount| - e;
      && Digits(t) && Digits(tail) && 8 <= e < |amount|
      && Value(t) % 100000 == (Value(code) * Pow10(k) + Value(tail)) % 100000 && Value(t) >= 10000
  {
    hide Value, Pow10, LargeEnd, RemoveSidesZero, LargeMaxText;
    var e := LargeEnd(chain, amount);
    var kept, tail, k := amount[..e - 5], amount[e..], |amount| - e;
    var t := kept + code + tail;
    assert EmbedLarge(chain, amount, code) == Ok(t);
    ValueConcat(kept + code, tail);
    ValueConcat(kept, code);
    Pow10Values();
    AtLeastKept(kept);
    FiveDigitsOn(Value(kept), Value(code), Value(tail), Pow10(k));
  }

  lemma AtLeastKept(kept: string)
    requires Canonical(kept) && |kept| >= 3
    ensures Value(kept) >= 1
  {
    ValueBound(kept);
  }

  lemma FiveDigitsOn(kept: nat, code: nat, tail: nat, p: nat)
    requires kept >= 1 && p >= 1
    ensures ((kept * 100000 + code) * p + tail) % 100000 == (code * p + tail) % 100000
    ensures (kept * 100000 + code) * p + tail >= 10000
  {
    var a := kept * p;
    assert a >= 1;
    assert (kept * 100000 + code) * p == a * 100000 + code * p;
    Multiples(a, 1, code * p + tail, 100000);
  }

  /** On a bit-limited chain digits can follow the code, while it is read at the very end: it is read back exactly when code,
      following digits and withholding fee together end in the code again. */
  lemma MovedCodeIff(source: nat, amount: string, dealer: nat, ebc: nat, chain: nat, withholdingFee: nat)
    requires Moved(source, amount) && Canonical(amount) && dealer < 100 && 0 < ebc < 10 && chain < 100
    requires EmbedLarge(source, amount, SafeCode(Some(dealer), Some(ebc), chain)).Ok?
    ensures var t := EmbedLarge(source, amount, SafeCode(Some(dealer), Some(ebc), chain)).value;
      var e, c := LargeEnd(source, amount), dealer * 1000 + ebc * 100 + chain;
      && Digits(t) && e < |amount| && Digits(amount[e..]) && Digits(SecurityCodeOf(SendValue(t, withholdingFee)))
      && (ParseSecurityCode(SecurityCodeOf(SendValue(t, withholdingFee))) == Parsed(dealer, Some(ebc), chain) <==>
          (c * Pow10(|amount| - e) + Value(amount[e..]) + withholdingFee) % 100000 == c)
  {
    var code := SafeCode(Some(dealer), Some(ebc), chain);
    hide Value, Str, Pow10, EmbedLarge, Moved, LargeEnd, SafeCode, ParseSecurityCode, SecurityCodeOf;
    SafeCodeIs(dealer, ebc, chain);
    MovedValue(source, amount, code);
    var t, e, c := EmbedLarge(source, amount, code).value, LargeEnd(source, amount), CodeValue(dealer, ebc, chain);
    var v, rest := Value(t) + withholdingFee, c * Pow10(|amount| - e) + Value(amount[e..]);
    CodeValueRange(dealer, ebc, chain);
    LastFive(v);
    SameRemainder(Value(t), rest, withholdingFee);
    var read := SecurityCodeOf(Str(v));
    ParsedFive(read);
    var p := ParseSecurityCode(read);
    if CodeValue(p.dealer, p.ebc.value, p.chain) == c {
      CodeValueInjective(p.dealer, p.ebc.value, p.chain, dealer, ebc, chain);
    }
  }

  lemma SameRemainder(a: nat, b: nat, w: nat)
    requires a % 100000 == b % 100000
    ensures (a + w) % 100000 == (b + w) % 100000
  {
    var k := if a >= b then (a - b) / 100000 else (b - a) / 100000;
    if a >= b {
      assert a == b + k * 100000;
      Multiples(k, 1, b + w, 100000);
    } else {
      assert b == a + k * 100000;
      Multiples(k, 1, a + w, 100000);
    }
  }

  /** So it is lost for good when five zeros or more follow it and the withholding fee is a multiple of 10^5. */
  lemma MovedCodeLost(source: nat, amount: string, dealer: nat, ebc: nat, chain: nat, withholdingFee: nat)
    requires Moved(source, amount) && Canonical(amount) && dealer < 100 && 0 < ebc < 10 && chain < 100
    requires EmbedLarge(source, amount, SafeCode(Some(dealer), Some(ebc), chain)).Ok?
    requires |amount| >= LargeEnd(source, amount) + 5 && Value(amount) % 100000 == 0 && withholdingFee % 100000 == 0
    ensures var t := EmbedLarge(source, amount, SafeCode(Some(dealer), Some(ebc), chain)).value;
      && Digits(t) && Digits(SecurityCodeOf(SendValue(t, withholdingFee)))
      && ParseSecurityCode(SecurityCodeOf(SendValue(t, withholdingFee))) != Parsed(dealer, Some(ebc), chain)
  {
    hide Value, Str, Pow10, EmbedLarge, Moved, LargeEnd, SafeCode, ParseSecurityCode, SecurityCodeOf, SendValue;
    MovedCodeIff(source, amount, dealer, ebc, chain, withholdingFee);
    var e, c := LargeEnd(source, amount), dealer * 1000 + ebc * 100 + chain;
    TailEnds(amount, e);
    FiveZeros(|amount| - e, c);
    ThreeMultiples(c * Pow10(|amount| - e), Value(amount[e..]), withholdingFee);
    assert 0 < c < 100000;
  }

  lemma TailEnds(amount: string, e: nat)
    requires Digits(amount) && e + 5 <= |amount| && Value(amount) % 100000 == 0
    ensures Digits(amount[e..]) && Value(amount[e..]) % 100000 == 0
  {
    hide Value, Pow10, Digits;
    Pow10Values();
    SplitValue(amount, 5);
    SplitValue(amount, |amount| - e);
    var tail := amount[e..];
    assert amount[|amount| - (|amount| - e)..] == tail;
    SplitValue(tail, 5);
    assert tail[|tail| - 5..] == amount[|amount| - 5..];
  }

  lemma FiveZeros(k: nat, c: nat)
    requires k >= 5
    ensures (c * Pow10(k)) % 100000 == 0
  {
    Pow10Values();
    Pow10Adds(5, k - 5);
    var q := c * Pow10(k - 5);
    assert c * Pow10(k) == q * 100000;
    Multiples(q, 1, 0, 100000);
  }

  lemma ThreeMultiples(a: nat, b: nat, w: nat)
    requires a % 100000 == 0 && b % 100000 == 0 && w % 100000 == 0
    ensures (a + b + w) % 100000 == 0
  {
  }

  // ---------- the response ----------

  // BigInt division truncates toward zero.
  function TruncDiv(a: int, b: nat): int
    requires b > 0
  {
    if a >= 0 then a / b else -((-a) / b)
  }

  function IntStr(n: int): string
  {
    if n >= 0 then Str(n) else "-" + Str(-n)
  }

  datatype Response = Response(tradeAmount: int, tradeFee: int, origin: int, responseAmount: string)

  // A rate of one millionth.
  function TradingFee(tradeAmount: int, rate: nat): int
  {
    TruncDiv(tradeAmount * rate, 1000000)
  }

  // The last four digits cleared.
  function RoundedDown(amount: int): int
  {
    TruncDiv(amount, 10000) * 10000
  }

  // getResponseIntent; the nonce is the text it is stored as.
  function ResponseIntent(value: string, tradeFee: nat, withholdingFee: nat, nonce: string): Response
    requires Digits(value)
  {
    var tradeAmount := Value(value) - Value(SecurityCodeOf(value)) - withholdingFee;
    var tradingFee := TradingFee(tradeAmount, tradeFee);
    var origin := RoundedDown(tradeAmount - tradingFee);
    var text := IntStr(origin);
    Response(tradeAmount, tradingFee, origin, text[..if |text| >= |nonce| then |text| - |nonce| else 0] + nonce)
  }

  /** Nothing is lost: the value is code, withholding fee, trade fee, response and less than 10000 units of dust. */
  lemma ResponseAddsUp(value: string, tradeFee: nat, withholdingFee: nat, nonce: string)
    requires Digits(value)
    ensures var r := ResponseIntent(value, tradeFee, withholdingFee, nonce);
            var dust := Value(value) - Value(SecurityCodeOf(value)) - withholdingFee - r.tradeFee - r.origin;
      && r.origin % 10000 == 0
      && (r.tradeAmount >= r.tradeFee ==> 0 <= dust < 10000)
      && (r.tradeAmount <= r.tradeFee ==> -10000 < dust <= 0)
      && (r.tradeAmount >= 0 ==> IsRate(r.tradeAmount, tradeFee, r.tradeFee))
  {
    hide ResponseIntent, Value, SecurityCodeOf, TradingFee, RoundedDown, IsRate;
    var r := ResponseIntent(value, tradeFee, withholdingFee, nonce);
    ResponseFields(value, tradeFee, withholdingFee, nonce);
    TradingFeeBounds(r.tradeAmount, tradeFee);
    RoundedDownBounds(r.tradeAmount - r.tradeFee);
  }

  // The fee is the amount's millionths at this rate, rounded down.
  predicate IsRate(amount: int, rate: nat, fee: int)
  {
    fee * 1000000 <= amount * rate < (fee + 1) * 1000000
  }

  lemma ResponseFields(value: string, tradeFee: nat, withholdingFee: nat, nonce: string)
    requires Digits(value)
    ensures var r := ResponseIntent(value, tradeFee, withholdingFee, nonce);
      && r.tradeAmount == Value(value) - Value(SecurityCodeOf(value)) - withholdingFee
      && r.tradeFee == TradingFee(r.tradeAmount, tradeFee) && r.origin == RoundedDown(r.tradeAmount - r.tradeFee)
  {
    hide IntStr, Value, SecurityCodeOf, TradingFee, RoundedDown;
  }

  lemma TradingFeeBounds(tradeAmount: int, rate: nat)
    ensures tradeAmount >= 0 ==> IsRate(tradeAmount, rate, TradingFee(tradeAmount, rate))
  {
    var product := tradeAmount * rate;
    Scale(0, tradeAmount, rate);
    TruncDivBounds(product, 1000000);
  }

  lemma RoundedDownBounds(amount: int)
    ensures RoundedDown(amount) % 10000 == 0
    ensures amount >= 0 ==> 0 <= amount - RoundedDown(amount) < 10000
    ensures amount <= 0 ==> -10000 < amount - RoundedDown(amount) <= 0
  {
    TruncDivBounds(amount, 10000);
  }

  lemma TruncDivBounds(a: int, b: nat)
    requires b > 0
    ensures a >= 0 ==> TruncDiv(a, b) * b <= a < (TruncDiv(a, b) + 1) * b
    ensures a <= 0 ==> (TruncDiv(a, b) - 1) * b < a <= TruncDiv(a, b) * b
    ensures TruncDiv(a, b) * b % b == 0
  {
    var q := TruncDiv(a, b);
    if a >= 0 {
      assert a == a / b * b + a % b;
    } else {
      assert -a == (-a) / b * b + (-a) % b;
    }
    DivisibleInt(q, b);
  }

  lemma DivisibleInt(q: int, b: nat)
    requires b > 0
    ensures q * b % b == 0
  {
    var x := q * b;
    assert x == x / b * b + x % b;
    QuotientUnique(q, x / b, b, 0, x % b);
  }

  /** A positive response with a nonce of at most four digits determines both: the amount sent is their sum, and its
      last four digits are the nonce. */
  lemma ResponseDetermines(value: string, tradeFee: nat, withholdingFee: nat, nonce: nat)
    requires Digits(value) && nonce <= 9999 && ResponseIntent(value, tradeFee, withholdingFee, Str(nonce)).origin > 0
    ensures var r := ResponseIntent(value, tradeFee, withholdingFee, Str(nonce));
      && Digits(r.responseAmount) && Value(r.responseAmount) == r.origin + nonce
      && Value(r.responseAmount) % 10000 == nonce && Value(r.responseAmount) - nonce == r.origin
  {
    hide ResponseIntent, Value, Pow10, Str;
    ResponseAddsUp(value, tradeFee, withholdingFee, Str(nonce));
    var r := ResponseIntent(value, tradeFee, withholdingFee, Str(nonce));
    TenThousandth(r.origin);
    StrLengths(r.origin);
    StrLengths(nonce);
    WithNonce(Str(r.origin), Str(nonce));
    ResponseText(value, tradeFee, withholdingFee, Str(nonce));
    DivMod(r.origin / 10000, 10000, nonce);
  }

  lemma TenThousandth(origin: int)
    requires origin > 0 && origin % 10000 == 0
    ensures origin == origin / 10000 * 10000 && origin >= 10000
  {
  }

  lemma ResponseText(value: string, tradeFee: nat, withholdingFee: nat, nonce: string)
    requires Digits(value)
    ensures var r := ResponseIntent(value, tradeFee, withholdingFee, nonce);
      r.origin >= 0 && |nonce| <= |Str(r.origin)| ==> r.responseAmount == Str(r.origin)[..|Str(r.origin)| - |nonce|] + nonce
  {
    hide TruncDiv, Str, Value;
  }

  lemma LastZero(text: string, k: nat)
    requires Digits(text) && k <= 4 <= |text| && Value(text) % 10000 == 0
    ensures Digits(text[|text| - k..]) && Value(text[|text| - k..]) == 0
  {
    hide Value, Pow10, Digits;
    Pow10Values();
    SplitValue(text, 4);
    var four := text[|text| - 4..];
    SplitValue(four, k);
    assert four[|four| - k..] == text[|text| - k..];
    ZeroRemainder(Pow10(k));
  }

  // The last digits replaced: the number changes by what they were and are.
  lemma WithNonce(text: string, code: string)
    requires Digits(text) && Digits(code) && |code| <= 4 && |text| >= 5 && Value(text) % 10000 == 0
    ensures var t := text[..|text| - |code|] + code; Digits(t) && Value(t) == Value(text) + Value(code)
  {
    hide Value, Pow10, Digits;
    SplitValue(text, |code|);
    LastZero(text, |code|);
    ValueConcat(text[..|text| - |code|], code);
  }

  lemma ZeroRemainder(m: nat)
    requires m > 0
    ensures 0 % m == 0
  {
  }

  /** The last digits of any response of no negative amount are the nonce's. */
  lemma {:induction false} ResponseCarriesNonce(value: string, tradeFee: nat, withholdingFee: nat, nonce: string)
    requires Digits(value) && Digits(nonce) && ResponseIntent(value, tradeFee, withholdingFee, nonce).origin >= 0
    ensures var r := ResponseIntent(value, tradeFee, withholdingFee, nonce);
      Digits(r.responseAmount) && Value(r.responseAmount) % Pow10(|nonce|) == Value(nonce)
  {
    hide TruncDiv, Value, Pow10, Str, SecurityCodeOf;
    var r := ResponseIntent(value, tradeFee, withholdingFee, nonce);
    var t := r.responseAmount;
    assert t[|t| - |nonce|..] == nonce;
    SplitValue(t, |nonce|);
  }
}
