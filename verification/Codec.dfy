/**
 The codes that travel in the last digits of an amount: embedding one, clearing it, and reading it back, on
 chains with room for every digit and on chains whose amounts have only so many significant bits. Amounts are
 digit strings in the smallest unit of a token.
 */
module Codec {
  import opened Wrappers
  import opened Decimals

  const P_NUMBER := 4

  datatype CodecError = TooManyDecimals | BadCodeSize | TooShort

  // ---------- chains, by internal id ----------

  predicate IsLimitNumber(chain: nat)
  {
    chain in {3, 33, 8, 88, 11, 511, 12, 512}
  }

  predicate IsLPChain(chain: nat)
  {
    chain in {9, 99}
  }

  // 2^35 - 1, 2^28 - 1, and 2^256 - 1 as the double that is printed for it; NaN when no size is listed.
  function MaxText(chain: nat): string
  {
    if chain in {3, 33, 12, 512} then "34359738367"
    else if chain in {8, 88, 11, 511} then "268435455"
    else if chain in {1, 2, 22, 4, 44, 5, 6, 66, 7, 77, 9, 99, 10, 510, 13, 513, 14, 514, 15, 515, 16, 516, 17, 517, 518, 519, 599, 520}
    then "115792089237316200000000000000000000000000000000000000000000000000000000000000"
    else "NaN"
  }

  // ---------- significant digits ----------

  predicate AllZeros(s: string)
  {
    forall i :: 0 <= i < |s| ==> s[i] == '0'
  }

  // s without its trailing zeros
  function Trim(s: string): (r: string)
    ensures r <= s
    ensures Digits(s) ==> Digits(r)
  {
    if AllZeros(s) then [] else [s[0]] + Trim(s[1..])
  }

  // What /(\d)0+$/ leaves of digits: one zero of many.
  function TrimTail(s: string): string
  {
    if s != [] && AllZeros(s) then "0" else Trim(s)
  }

  function LeadingZeros(s: string): (n: nat)
    ensures n <= |s| && (n < |s| ==> s[n] != '0')
  {
    if s == [] || s[0] != '0' then 0 else 1 + LeadingZeros(s[1..])
  }

  // replace(/^0+(\d)|(\d)0+$/gm, "$1$2"): the digit that ends a run of leading zeros is used up by that match.
  function RemoveSidesZero(s: string): string
  {
    var n := LeadingZeros(s);
    if n == 0 || |s| == 1 then TrimTail(s)
    else if n == |s| then "0"
    else [s[n]] + TrimTail(s[n + 1..])
  }

  // AmountValidDigits: None is its answer "amount is inValid", which no length is greater than.
  function ValidDigits(chain: nat, amount: string): (r: Option<nat>)
    ensures r.Some? ==> |MaxText(chain)| - 1 <= r.value <= |MaxText(chain)|
  {
    var significant := RemoveSidesZero(amount);
    var max := MaxText(chain);
    if |significant| > |max| then None
    else if Greater(significant, max) then Some(|max| - 1)
    else Some(|max|)
  }

  // Where the code ends: before the digits a bit-limited chain drops, or at the very end.
  function CodeEnd(chain: nat, amount: string): (e: nat)
    requires |amount| >= P_NUMBER
    ensures P_NUMBER <= e <= |amount|
  {
    var valid := ValidDigits(chain, amount);
    if IsLimitNumber(chain) && valid.Some? && |amount| > valid.value then
      MaxTextFacts(chain);
      valid.value
    else |amount|
  }

  // What the maxima of bit-limited chains have in common.
  predicate LimitText(max: string)
  {
    && |max| >= 9 && Digits(max) && (forall i :: 0 <= i < |max| ==> max[i] != '0')
    && max[|max| - 5] == '3' && max[|max| - 4] > '3'
  }

  lemma MaxTextFacts(chain: nat)
    requires IsLimitNumber(chain)
    ensures LimitText(MaxText(chain))
  {
  }

  // ---------- embedding, clearing and reading a code ----------

  function EmbedCode(chain: nat, amount: string, code: string): Result<string, CodecError>
    requires Digits(amount)
  {
    if Value(amount) < 1 then Err(TooManyDecimals)
    else if |code| > P_NUMBER then Err(BadCodeSize)
    else if |amount| < P_NUMBER then Err(TooShort)
    else if IsLPChain(chain) then Ok(amount)
    else
      var e := CodeEnd(chain, amount);
      Ok(amount[..e - |code|] + code + amount[e..])
  }

  // The amount is first written without leading zeros.
  function ExtractCode(chain: nat, amount: string): Result<string, CodecError>
    requires Digits(amount)
  {
    if Value(amount) < 1 then Err(TooManyDecimals)
    else
      var text := Str(Value(amount));
      if |text| < P_NUMBER then Err(TooShort)
      else
        var e := CodeEnd(chain, text);
        Ok(text[e - P_NUMBER..e])
  }

  function ClearCode(chain: nat, amount: string): Result<string, CodecError>
    requires Digits(amount)
  {
    if Value(amount) < 1 then Err(TooManyDecimals)
    else if |amount| < P_NUMBER then Err(TooShort)
    else
      var e := CodeEnd(chain, amount);
      Ok(amount[..e - P_NUMBER] + "0000" + amount[e..])
  }

  lemma ClearedIsDigits(chain: nat, amount: string)
    requires Digits(amount)
    ensures var r := ClearCode(chain, amount); r.Ok? ==> Digits(r.value) && |r.value| == |amount|
  {
    hide CodeEnd, Value;
  }

  lemma LimitLength(chain: nat)
    requires IsLimitNumber(chain)
    ensures |MaxText(chain)| >= 9
  {
  }

  method GetRAmountFromTAmount(chain: nat, amount: string) returns (r: Result<string, CodecError>)
    requires Digits(amount)
    ensures r == ClearCode(chain, amount)
  {
    hide ValidDigits, MaxText, Value, LimitText;
    var pText := "";
    var index := 0;
    while index < P_NUMBER
      invariant index <= P_NUMBER && pText == seq(index, _ => '0')
    {
      pText := pText + "0";
      index := index + 1;
    }
    assert pText == "0000";
    if Value(amount) < 1 {
      return Err(TooManyDecimals);
    }
    var validDigit := ValidDigits(chain, amount);
    var amountLength := |amount|;
    if amountLength < P_NUMBER {
      return Err(TooShort);
    }
    if IsLimitNumber(chain) && validDigit.Some? && amountLength > validDigit.value {
      LimitLength(chain);
      r := Ok(amount[..validDigit.value - P_NUMBER] + pText + amount[validDigit.value..]);
    } else {
      r := Ok(amount[..amountLength - P_NUMBER] + pText);
      assert r.value + amount[amountLength..] == r.value;
    }
  }

  // Array(4).join("0") + num, cut to its last four characters, unless num is longer than that.
  function PadCode(num: string): (r: string)
    ensures 0 < |num| <= P_NUMBER ==> |r| == P_NUMBER
  {
    if |num| > P_NUMBER then num else if num == "" then "000" else ("000" + num)[|num| - 1..]
  }
}
