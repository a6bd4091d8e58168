/** When a code read back is the code that was embedded: always, where every digit counts; exactly when embedding
    does not move the place of the code, where only so many bits do. */
module CodecRoundTrip {
  import opened Wrappers
  import opened Decimals
  import opened Codec

  predicate IsCode(code: string)
  {
    Digits(code) && |code| == P_NUMBER
  }

  // ---------- chains with room for every digit ----------

  lemma StillCanonical(amount: string, code: string, e: nat)
    requires Canonical(amount) && |amount| > 1 && Digits(code) && |code| < e <= |amount|
    ensures var t := amount[..e - |code|] + code + amount[e..];
            Canonical(t) && |t| == |amount| && Value(t) >= 1 && Str(Value(t)) == t
  {
    var t := amount[..e - |code|] + code + amount[e..];
    assert t[0] == amount[0] && Canonical(t);
    ValueBound(t);
    CanonicalStr(t);
  }

  /** Any four digits embedded in an amount of five digits or more come back. */
  lemma UnlimitedRoundTrip(chain: nat, amount: string, code: string)
    requires !IsLimitNumber(chain) && !IsLPChain(chain)
    requires Canonical(amount) && |amount| >= 5 && IsCode(code)
    ensures var t := EmbedCode(chain, amount, code);
            t.Ok? && Digits(t.value) && |t.value| == |amount| && ExtractCode(chain, t.value) == Ok(code)
  {
    hide ValidDigits, Value, Str, Pow10;
    StillCanonical(amount, code, |amount|);
    AtLeastOne(amount);
  }

  lemma AtLeastOne(amount: string)
    requires Canonical(amount) && |amount| > 1
    ensures Value(amount) >= 1
  {
    ValueBound(amount);
  }

  // ---------- comparing significant digits ----------

  predicate ZerosFrom(s: string, n: nat)
  {
    forall i :: n <= i < |s| ==> s[i] == '0'
  }

  lemma {:induction false} TrimIs(s: string)
    ensures ZerosFrom(s, |Trim(s)|)
    ensures forall n: nat :: ZerosFrom(s, n) ==> |Trim(s)| <= n
    ensures s != [] && s[0] != '0' ==> Trim(s) != []
  {
    if !AllZeros(s) {
      TrimIs(s[1..]);
      forall n: nat | ZerosFrom(s, n)
        ensures |Trim(s)| <= n
      {
        assert n > 0;
        assert ZerosFrom(s[1..], n - 1);
      }
    }
  }

  // Cutting off zeros changes nothing about the significant digits.
  lemma {:induction false} TrimOfPrefix(s: string, n: nat)
    requires n <= |s| && ZerosFrom(s, n)
    ensures Trim(s[..n]) == Trim(s)
  {
    if n == 0 {
      assert AllZeros(s);
    } else {
      assert s[..n][0] == s[0] && s[..n][1..] == s[1..][..n - 1];
      TrimOfPrefix(s[1..], n - 1);
      assert AllZeros(s[..n]) <==> AllZeros(s) by {
        assert forall i :: 0 <= i < n ==> s[..n][i] == s[i];
      }
    }
  }

  // Against a text without zeros, trailing zeros decide nothing.
  lemma {:induction false} TrimGreater(x: string, max: string)
    requires Digits(x) && Digits(max) && |x| == |max| && forall i :: 0 <= i < |max| ==> max[i] != '0'
    ensures Greater(Trim(x), max) == Greater(x, max)
  {
    if AllZeros(x) {
      if x != [] {
        assert x[0] == '0' && max[0] != '0';
      }
    } else {
      TrimGreater(x[1..], max[1..]);
      assert Trim(x)[0] == x[0] && Trim(x)[1..] == Trim(x[1..]);
    }
  }

  // The first difference decides.
  lemma {:induction false} PrefixDecides(x: string, m: string, y: string, n: string)
    requires |x| == |m|
    ensures x != m ==> Greater(x + y, m + n) == Greater(x, m)
    ensures x == m ==> Greater(x + y, m + n) == Greater(y, n)
  {
    if x != [] {
      PrefixDecides(x[1..], m[1..], y, n);
      assert (x + y)[1..] == x[1..] + y && (m + n)[1..] == m[1..] + n;
      assert x == [x[0]] + x[1..] && m == [m[0]] + m[1..];
    } else {
      assert x + y == y && m + n == n;
    }
  }

  // ---------- bit-limited chains, by the text of their maximum ----------

  // The amount has no more significant digits than the maximum has digits.
  predicate Fits(max: string, amount: string)
  {
    Canonical(amount) && |amount| >= |max| && ZerosFrom(amount, |max|)
  }

  // As many of its digits as the maximum has make a larger number.
  predicate Above(max: string, amount: string)
    requires |amount| >= |max|
  {
    Greater(amount[..|max|], max)
  }

  // Where the code of a fitting amount ends.
  function End(max: string, amount: string): (e: nat)
    requires LimitText(max) && Fits(max, amount)
    ensures P_NUMBER < e <= |max|
  {
    if Above(max, amount) then |max| - 1 else |max|
  }

  function Embedded(max: string, amount: string, code: string): (t: string)
    requires LimitText(max) && Fits(max, amount) && IsCode(code)
    ensures Fits(max, t)
  {
    var e := End(max, amount);
    StillCanonical(amount, code, e);
    amount[..e - P_NUMBER] + code + amount[e..]
  }

  // The code only repeats the digit that follows it.
  predicate Repeats(max: string, amount: string, code: string)
    requires LimitText(max) && Fits(max, amount) && IsCode(code)
  {
    Above(max, amount) && forall i :: 0 <= i < P_NUMBER ==> code[i] == amount[|max| - 1]
  }

  lemma EmbeddedWindow(max: string, amount: string, code: string)
    requires LimitText(max) && Fits(max, amount) && IsCode(code)
    ensures var e, t := End(max, amount), Embedded(max, amount, code);
      && t[..e - P_NUMBER] == amount[..e - P_NUMBER] && t[e - P_NUMBER..e] == code
      && t[..|max|] == amount[..e - P_NUMBER] + (code + amount[e..|max|])
      && amount[..|max|] == amount[..e - P_NUMBER] + amount[e - P_NUMBER..|max|]
      && max == max[..e - P_NUMBER] + max[e - P_NUMBER..]
      && (e < |max| ==> t[e] == amount[e])
  {
    hide Greater;
  }

  /** Where the digits kept before the code differ from those of the maximum, embedding leaves the comparison with
      the maximum as it was. */
  lemma PrefixKeepsComparison(max: string, amount: string, code: string)
    requires LimitText(max) && Fits(max, amount) && IsCode(code)
    ensures var kept := End(max, amount) - P_NUMBER;
      amount[..kept] != max[..kept] ==> Above(max, Embedded(max, amount, code)) == Above(max, amount)
  {
    var e := End(max, amount);
    var x, m := amount[..e - P_NUMBER], max[..e - P_NUMBER];
    EmbeddedWindow(max, amount, code);
    hide LimitText, Fits, Greater;
    PrefixDecides(x, m, amount[e - P_NUMBER..|max|], max[e - P_NUMBER..]);
    PrefixDecides(x, m, code + amount[e..|max|], max[e - P_NUMBER..]);
  }

  // Whether the code with the digits after it is larger than the end of the maximum.
  predicate EndAbove(max: string, amount: string, code: string)
    requires LimitText(max) && Fits(max, amount) && IsCode(code)
  {
    Greater(code + amount[End(max, amount)..|max|], max[End(max, amount) - P_NUMBER..])
  }

  // Embedding leaves the code where it is looked for: the kept digits differ from the maximum's, or, where they are the
  // same, the code compares with its end as the amount did. Or the code only repeats a digit.
  predicate Survives(max: string, amount: string, code: string)
    requires LimitText(max) && Fits(max, amount) && IsCode(code)
  {
    var kept := End(max, amount) - P_NUMBER;
    amount[..kept] != max[..kept] || EndAbove(max, amount, code) == Above(max, amount) || Repeats(max, amount, code)
  }

  lemma EmbeddedAbove(max: string, amount: string, code: string)
    requires LimitText(max) && Fits(max, amount) && IsCode(code)
    ensures var kept := End(max, amount) - P_NUMBER;
      amount[..kept] == max[..kept] ==> Above(max, Embedded(max, amount, code)) == EndAbove(max, amount, code)
  {
    var e := End(max, amount);
    EmbeddedWindow(max, amount, code);
    hide LimitText, Fits, Greater;
    PrefixDecides(amount[..e - P_NUMBER], max[..e - P_NUMBER], code + amount[e..|max|], max[e - P_NUMBER..]);
  }

  // The code ended one digit earlier than it is looked for.
  lemma CodeShiftedUp(max: string, amount: string, code: string)
    requires LimitText(max) && Fits(max, amount) && IsCode(code) && Above(max, amount)
    ensures Embedded(max, amount, code)[|max| - P_NUMBER..|max|] == code <==> Repeats(max, amount, code)
  {
    EmbeddedWindow(max, amount, code);
    var t, m := Embedded(max, amount, code), |max|;
    var w := t[m - P_NUMBER..m];
    var c := t[m - 1 - P_NUMBER..m - 1];
    hide LimitText, Fits, Greater, Embedded;
    assert c == code && code[0] == t[m - 5] && code[1] == t[m - 4] && code[2] == t[m - 3] && code[3] == t[m - 2];
    assert w[0] == t[m - 4] && w[1] == t[m - 3] && w[2] == t[m - 2] && w[3] == t[m - 1] == amount[m - 1];
    FourChars(w, code);
  }

  lemma FourChars(w: string, code: string)
    requires |w| == |code| == P_NUMBER
    ensures w == code <==> w[0] == code[0] && w[1] == code[1] && w[2] == code[2] && w[3] == code[3]
  {
  }

  // The code ended one digit later: what is read is it only if it is 3333, too small to lift the amount.
  lemma CodeShiftedDown(max: string, amount: string, code: string)
    requires LimitText(max) && Fits(max, amount) && IsCode(code)
    requires !Above(max, amount) && Above(max, Embedded(max, amount, code))
    ensures Embedded(max, amount, code)[|max| - 1 - P_NUMBER..|max| - 1] != code
  {
    PrefixKeepsComparison(max, amount, code);
    EmbeddedWindow(max, amount, code);
    var t, m := Embedded(max, amount, code), |max|;
    var kept := max[..m - P_NUMBER];
    PrefixDecides(kept, kept, code + amount[m..m], max[m - P_NUMBER..]);
    hide Fits, Embedded;
    var w := t[m - 1 - P_NUMBER..m - 1];
    var c := t[m - P_NUMBER..m];
    assert t[m - 5] == t[..m - P_NUMBER][m - 5] == max[m - 5] == '3';
    assert c == code && code[0] == t[m - 4];
    assert w[0] == t[m - 5] == '3';
    assert code[0] >= max[m - P_NUMBER];
  }

  /** A code read where it ends in the amount that carries it is the code that was embedded exactly when embedding
      kept the comparison with the maximum, or the code only repeats the digit that follows it. */
  lemma WindowIff(max: string, amount: string, code: string)
    requires LimitText(max) && Fits(max, amount) && IsCode(code)
    ensures var t := Embedded(max, amount, code);
      t[End(max, t) - P_NUMBER..End(max, t)] == code <==> Above(max, t) == Above(max, amount) || Repeats(max, amount, code)
  {
    EmbeddedWindow(max, amount, code);
    var t := Embedded(max, amount, code);
    hide Embedded, LimitText, Fits, Greater;
    if Above(max, t) != Above(max, amount) {
      if Above(max, amount) {
        CodeShiftedUp(max, amount, code);
      } else {
        CodeShiftedDown(max, amount, code);
      }
    }
  }

  // ---------- bit-limited chains ----------

  lemma FittingEnd(chain: nat, amount: string)
    requires IsLimitNumber(chain) && LimitText(MaxText(chain)) && Fits(MaxText(chain), amount)
    ensures |amount| >= P_NUMBER && CodeEnd(chain, amount) == End(MaxText(chain), amount)
  {
    hide MaxText;
    var max := MaxText(chain);
    TrimOfPrefix(amount, |max|);
    TrimGreater(amount[..|max|], max);
    assert amount[0] != '0' && LeadingZeros(amount) == 0;
    TrimIs(amount);
    assert RemoveSidesZero(amount) == Trim(amount);
  }

  lemma EmbedsLimited(chain: nat, amount: string, code: string)
    requires IsLimitNumber(chain) && LimitText(MaxText(chain)) && Fits(MaxText(chain), amount) && IsCode(code)
    ensures EmbedCode(chain, amount, code) == Ok(Embedded(MaxText(chain), amount, code))
  {
    hide MaxText, CodeEnd, Greater, Value, End;
    FittingEnd(chain, amount);
    AtLeastOne(amount);
  }

  lemma ExtractsLimited(chain: nat, t: string)
    requires IsLimitNumber(chain) && LimitText(MaxText(chain)) && Fits(MaxText(chain), t)
    ensures ExtractCode(chain, t) == Ok(t[End(MaxText(chain), t) - P_NUMBER..End(MaxText(chain), t)])
  {
    hide MaxText, CodeEnd, Greater, Value, Str, End;
    FittingEnd(chain, t);
    AtLeastOne(t);
    CanonicalStr(t);
  }

  /** An amount with fewer digits than the maximum, but five at least, carries any code as on other chains. */
  lemma ShortRoundTrip(chain: nat, amount: string, code: string)
    requires IsLimitNumber(chain) && Canonical(amount) && 5 <= |amount| < |MaxText(chain)| && IsCode(code)
    ensures var t := EmbedCode(chain, amount, code);
            t.Ok? && Digits(t.value) && |t.value| == |amount| && ExtractCode(chain, t.value) == Ok(code)
  {
    hide MaxText, Value, Str, Greater, RemoveSidesZero;
    StillCanonical(amount, code, |amount|);
    AtLeastOne(amount);
  }

  lemma SurvivesIff(max: string, amount: string, code: string)
    requires LimitText(max) && Fits(max, amount) && IsCode(code)
    ensures Survives(max, amount, code) <==>
      Above(max, Embedded(max, amount, code)) == Above(max, amount) || Repeats(max, amount, code)
  {
    hide LimitText, Fits, Above, Repeats, EndAbove, Embedded, End;
    PrefixKeepsComparison(max, amount, code);
    EmbeddedAbove(max, amount, code);
  }

  /** On a bit-limited chain a code comes back exactly when the digits kept before it are not the maximum's, or the code and
      what follows compare with the end of the maximum as the whole amount did, or the code only repeats the next digit. */
  lemma LimitedRoundTripIff(chain: nat, amount: string, code: string)
    requires IsLimitNumber(chain) && Fits(MaxText(chain), amount) && IsCode(code)
    ensures LimitText(MaxText(chain))
    ensures var r := EmbedCode(chain, amount, code);
      r.Ok? && Digits(r.value) && (ExtractCode(chain, r.value) == Ok(code) <==> Survives(MaxText(chain), amount, code))
  {
    MaxTextFacts(chain);
    var t := Embedded(MaxText(chain), amount, code);
    assert Digits(t);
    hide MaxText, EmbedCode, ExtractCode, Embedded, End, LimitText, Fits, Above, Repeats, Survives;
    EmbedsLimited(chain, amount, code);
    ExtractsLimited(chain, t);
    WindowIff(MaxText(chain), amount, code);
    SurvivesIff(MaxText(chain), amount, code);
  }

  // ---------- clearing a code ----------

  // The code that ends at e is replaced by zeros, which takes off what it is worth there and nothing else.
  ghost predicate TakenOff(amount: string, e: nat, code: string, cleared: string)
  {
    && P_NUMBER <= e <= |amount| && Digits(amount) && IsCode(code) && Digits(cleared)
    && amount == amount[..e - P_NUMBER] + code + amount[e..] && cleared == amount[..e - P_NUMBER] + "0000" + amount[e..]
    && Value(amount) == Value(cleared) + Value(code) * Pow10(|amount| - e)
  }

  lemma ClearedValue(amount: string, e: nat)
    requires Digits(amount) && P_NUMBER <= e <= |amount|
    ensures TakenOff(amount, e, amount[e - P_NUMBER..e], amount[..e - P_NUMBER] + "0000" + amount[e..])
  {
    hide Value, Pow10;
    var kept, code, tail := amount[..e - P_NUMBER], amount[e - P_NUMBER..e], amount[e..];
    var p, q := Pow10(P_NUMBER), Pow10(|amount| - e);
    assert amount == kept + code + tail;
    ValueConcat(kept + code, tail);
    ValueConcat(kept, code);
    ValueConcat(kept + "0000", tail);
    ValueConcat(kept, "0000");
    FourZeros();
    Taken(Value(kept), p, Value(code), q);
  }

  lemma FourZeros()
    ensures Digits("0000") && Value("0000") == 0
  {
    ValueOfDigits('0', '0', '0', '0');
    assert "0000" == ['0', '0', '0', '0'];
  }

  lemma Taken(kept: nat, p: nat, code: nat, q: nat)
    ensures (kept * p + code) * q == kept * p * q + code * q
  {
  }

  lemma CodeAt(chain: nat, amount: string)
    requires Canonical(amount) && |amount| >= 5
    ensures var e := CodeEnd(chain, amount);
      && ClearCode(chain, amount) == Ok(amount[..e - P_NUMBER] + "0000" + amount[e..])
      && ExtractCode(chain, amount) == Ok(amount[e - P_NUMBER..e])
  {
    AtLeastOne(amount);
    CanonicalStr(amount);
    hide Value, Str, CodeEnd;
  }

  /** Clearing takes off an amount exactly the code it is read to carry, at its place: the last four digits on chains with room
      for every digit, and on bit-limited chains the four that end with the last digit that fits. */
  lemma ClearsCode(chain: nat, amount: string)
    requires Canonical(amount) && |amount| >= 5 && (IsLimitNumber(chain) ==> Fits(MaxText(chain), amount))
    ensures var max := MaxText(chain);
      var e := if !IsLimitNumber(chain) then |amount| else if Greater(amount[..|max|], max) then |max| - 1 else |max|;
      var cleared, code := ClearCode(chain, amount), ExtractCode(chain, amount);
      cleared.Ok? && code.Ok? && TakenOff(amount, e, code.value, cleared.value)
  {
    CodeAt(chain, amount);
    ClearedValue(amount, CodeEnd(chain, amount));
    if IsLimitNumber(chain) {
      MaxTextFacts(chain);
      FittingEnd(chain, amount);
    } else {
      assert CodeEnd(chain, amount) == |amount|;
    }
    hide ClearCode, ExtractCode, MaxText, CodeEnd, Greater, LimitText, TakenOff, Canonical;
  }

  const AMOUNT := "343597300000000000"
  const CARRIER := "343597390030000000"

  /** Routing code 9003 does not come back from 343597300000000000 on zksync: it lifts the amount above 2^35 - 1. */
  lemma LimitedRoundTripFails(amount: string, code: string, carrier: string)
    requires amount == AMOUNT && code == "9003" && carrier == CARRIER && Digits(amount) && Digits(carrier)
    ensures EmbedCode(3, amount, code) == Ok(carrier) && ExtractCode(3, carrier) != Ok(code)
  {
    Lifted();
    hide EmbedCode, ExtractCode, Embedded, Above, Fits, Survives;
    EmbedsLimited(3, amount, code);
    LimitedRoundTripIff(3, amount, code);
    SurvivesIff(MaxText(3), amount, code);
    NotAbove();
  }

  lemma NotAbove()
    requires Fits(MaxText(3), AMOUNT) && LimitText(MaxText(3)) && !Above(MaxText(3), AMOUNT)
    ensures !Repeats(MaxText(3), AMOUNT, "9003")
  {
    hide Above, Fits, MaxText, LimitText;
  }

  const KEPT := "3435973"

  lemma LiftedAbove()
    ensures |AMOUNT| == |CARRIER| == 18 && |MaxText(3)| == 11
    ensures !Above(MaxText(3), AMOUNT) && Above(MaxText(3), CARRIER)
  {
    assert MaxText(3) == KEPT + "8367" && AMOUNT[..11] == KEPT + "0000" && CARRIER[..11] == KEPT + "9003";
    PrefixDecides(KEPT, KEPT, "0000", "8367");
    PrefixDecides(KEPT, KEPT, "9003", "8367");
    assert Greater("9003", "8367") && !Greater("0000", "8367");
    hide Greater, MaxText;
  }

  lemma Lifted()
    ensures LimitText(MaxText(3)) && Fits(MaxText(3), AMOUNT) && Embedded(MaxText(3), AMOUNT, "9003") == CARRIER
    ensures !Above(MaxText(3), AMOUNT) && Above(MaxText(3), CARRIER)
  {
    LiftedAbove();
    hide Above, Trim;
    assert AMOUNT[11..] == "0000000" && AMOUNT[..7] == KEPT;
  }

  // ---------- what is compared with the maximum, and where the code goes ----------

  function Zeros(k: nat): string
  {
    seq(k, _ => '0')
  }

  lemma {:induction false} TrimZeros(a: string, k: nat)
    requires a != [] ==> a[|a| - 1] != '0'
    ensures Trim(a + Zeros(k)) == a
  {
    var s := a + Zeros(k);
    if a == [] {
      assert AllZeros(s);
    } else {
      assert s[|a| - 1] != '0' && s[1..] == a[1..] + Zeros(k);
      TrimZeros(a[1..], k);
    }
  }

  lemma {:induction false} LeadingAre(k: nat, a: string)
    requires a != [] && a[0] != '0'
    ensures LeadingZeros(Zeros(k) + a) == k
  {
    if k > 0 {
      assert (Zeros(k) + a)[1..] == Zeros(k - 1) + a;
      LeadingAre(k - 1, a);
    }
  }

  /** removeSidesZero leaves the digits between the zeros on both sides, except that a single digit between two runs of zeros
      keeps one of those behind it; of zeros alone it leaves one. */
  lemma SidesRemoved(before: nat, middle: string, behind: nat)
    requires Digits(middle) && middle != [] && middle[0] != '0' && middle[|middle| - 1] != '0'
    ensures RemoveSidesZero(Zeros(before) + middle + Zeros(behind)) ==
              if before > 0 && |middle| == 1 && behind > 0 then middle + "0" else middle
    ensures before > 0 ==> RemoveSidesZero(Zeros(before)) == "0"
  {
    var rest := middle + Zeros(behind);
    var s := Zeros(before) + rest;
    assert Zeros(before) + middle + Zeros(behind) == s;
    LeadingAre(before, rest);
    if before == 0 {
      assert s == rest && s[0] != '0';
      TrimZeros(middle, behind);
    } else {
      AllLeading(before);
      assert s[before] == middle[0] && s[before + 1..] == rest[1..] == middle[1..] + Zeros(behind);
      TrimTailIs(middle[1..], behind);
      assert middle == [middle[0]] + middle[1..];
    }
    hide LeadingZeros, TrimTail;
  }

  lemma TrimTailIs(a: string, k: nat)
    requires a != [] ==> a[|a| - 1] != '0'
    ensures TrimTail(a + Zeros(k)) == if a == [] && k > 0 then "0" else a
  {
    TrimZeros(a, k);
    if a != [] {
      assert (a + Zeros(k))[|a| - 1] != '0';
    } else {
      assert a + Zeros(k) == Zeros(k);
    }
  }

  lemma {:induction false} AllLeading(k: nat)
    ensures LeadingZeros(Zeros(k)) == k && AllZeros(Zeros(k))
  {
    if k > 0 {
      assert Zeros(k)[1..] == Zeros(k - 1);
      AllLeading(k - 1);
    }
  }

  // Eight chains drop what goes past 2^35 or 2^28, and have the code before it; the others have it at the end.
  ghost function EndOf(chain: nat, amount: string): (e: nat)
    ensures |amount| >= 4 ==> 4 <= e <= |amount|
  {
    var max := if chain in {3, 33, 12, 512} then "34359738367" else "268435455";
    var valid := if Greater(RemoveSidesZero(amount), max) then |max| - 1 else |max|;
    if chain in {3, 33, 8, 88, 11, 511, 12, 512} && |RemoveSidesZero(amount)| <= |max| && |amount| > valid then valid else |amount|
  }

  lemma EndIs(chain: nat, amount: string)
    requires |amount| >= 4
    ensures CodeEnd(chain, amount) == EndOf(chain, amount)
  {
    hide Greater, RemoveSidesZero;
  }

  /** Where a code is put, cleared and read on each chain, and when that is refused. Two chains take no code. */
  lemma CodesAre(chain: nat, amount: string, code: string)
    requires Digits(amount)
    ensures var e, text := EndOf(chain, amount), Str(Value(amount));
      && EmbedCode(chain, amount, code) ==
         (if Value(amount) == 0 then Err(TooManyDecimals)
          else if |code| > 4 then Err(BadCodeSize)
          else if |amount| < 4 then Err(TooShort)
          else if chain in {9, 99} then Ok(amount)
          else Ok(amount[..e - |code|] + code + amount[e..]))
      && ClearCode(chain, amount) ==
         (if Value(amount) == 0 then Err(TooManyDecimals)
          else if |amount| < 4 then Err(TooShort)
          else Ok(amount[..e - 4] + "0000" + amount[e..]))
      && ExtractCode(chain, amount) ==
         if Value(amount) == 0 then Err(TooManyDecimals)
         else if |text| < 4 then Err(TooShort)
         else Ok(text[EndOf(chain, text) - 4..EndOf(chain, text)])
  {
    hide Value, Str, Digits, CodeEnd, EndOf;
    var text := Str(Value(amount));
    if |amount| >= 4 {
      EndIs(chain, amount);
    }
    if |text| >= 4 {
      EndIs(chain, text);
    }
  }
}
