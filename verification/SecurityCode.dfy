/**
 The code a user appends to the amount of a source transfer to name the target chain: 9000 plus the internal id,
 followed by whatever zeros the token's decimals require. Amounts are decimal texts with at most one point.
 */
module SecurityCode {
  import opened Arithmetic
  import opened Decimals

  // ---------- the code of a text ----------

  // The last place but the first that is not a zero; 0 when there is none. A point is not a zero.
  function LastNonZero(value: string): (i: nat)
    ensures i == 0 || i < |value|
  {
    LastNonZeroBelow(value, |value|)
  }

  function LastNonZeroBelow(value: string, n: nat): (i: nat)
    requires n <= |value|
    ensures i == 0 || i < n
  {
    if n <= 1 then 0 else if value[n - 1] != '0' then n - 1 else LastNonZeroBelow(value, n - 1)
  }

  // substr: a negative start counts from the end
  function Substr(value: string, start: int, length: nat): (r: string)
    ensures |r| <= length
  {
    var from := if start >= 0 then start else if |value| + start >= 0 then |value| + start else 0;
    if from >= |value| then "" else value[from..if from + length < |value| then from + length else |value|]
  }

  // The number a four-place window writes, if it is a whole one: a point may only end it. Windows with a point
  // inside write numbers below 1000 with a fraction.
  function WholeNumber(window: string): (n: int)
    ensures n >= -1 && n < Pow10(|window|)
  {
    if Digits(window) then
      ValueBound(window);
      Value(window)
    else if window[|window| - 1] == '.' && Digits(window[..|window| - 1]) then
      ValueBound(window[..|window| - 1]);
      Value(window[..|window| - 1])
    else -1
  }

  // parseSourceTxSecurityCode's last step: 9000 plus an id, or nothing.
  function IdOf(n: int): (id: nat)
  {
    if n < 9000 || n > 10000 then 0 else (n % 1000) as nat
  }

  // The number after padding. Two digits get only one zero, and one digit two: the bound of the padding loop
  // shrinks while it runs.
  function Padded(n: nat): (r: nat)
    ensures n < 10000 ==> r < 10000
  {
    if n < 100 then (if n < 10 then n * 100 else n * 10)
    else if n < 1000 then n * 10
    else if n < 10000 && n / 10 % 100 == 90 && n % 10 != 0 then n % 1000 * 10
    else n
  }

  function SourceId(value: string): nat
  {
    var n := WholeNumber(Substr(value, LastNonZero(value) - 3, 4));
    if n < 0 then 0 else IdOf(Padded(n))
  }

  // ---------- the two parsers ----------

  // code.length !== 4: zeros are added while i < 4 - code.length
  method PadToFour(text: string) returns (code: string)
    requires Canonical(text) && |text| != 4
    ensures Digits(code)
    ensures |text| == 1 ==> Value(code) == Value(text) * 100
    ensures |text| == 2 ==> Value(code) == Value(text) * 10
    ensures |text| == 3 ==> Value(code) == Value(text) * 10
    ensures |text| > 4 ==> code == text
  {
    code := text;
    var i := 0;
    while i < 4 - |code|
      invariant Digits(code) && i >= 0 && |code| == |text| + i
      invariant Value(code) == Value(text) * Pow10(i)
      invariant |text| >= 4 ==> i == 0 && code == text
      invariant |text| == 3 ==> i <= 1
      invariant |text| == 2 ==> i <= 1
      invariant |text| == 1 ==> i <= 2
    {
      var longer := code + "0";
      assert longer[..|code|] == code;
      code := longer;
      i := i + 1;
    }
    Pow10Values();
    assert Pow10(0) == 1;
  }

  // /^[1-9]90[1-9]$/
  predicate LooksShifted(code: string)
  {
    |code| == 4 && '1' <= code[0] <= '9' && code[1] == '9' && code[2] == '0' && '1' <= code[3] <= '9'
  }

  lemma ShiftedText(code: string)
    requires Digits(code) && |code| == 4
    ensures Digits(code[1..] + "0") && Value(code[1..] + "0") == Value(code) % 1000 * 10
  {
    Pow10Values();
    ValueOfDigits('0', '0', '0', '0');
    assert DigitOf('0') == 0;
    hide Value, Pow10, DigitOf;
    SplitValue(code, 3);
    ValueConcat(code[1..], "0");
  }

  lemma LooksShiftedIff(code: string)
    requires Canonical(code) && |code| == 4
    ensures LooksShifted(code) <==> Value(code) / 10 % 100 == 90 && Value(code) % 10 != 0
  {
    var a, b, c, d := code[0], code[1], code[2], code[3];
    assert code == [a, b, c, d];
    ValueOfDigits(a, b, c, d);
    hide Value, Digits;
    FourPlaces(DigitOf(a), DigitOf(b), DigitOf(c), DigitOf(d));
    ShiftedDigits(a, b, c, d);
  }

  lemma FourPlaces(a: nat, b: nat, c: nat, d: nat)
    requires a < 10 && b < 10 && c < 10 && d < 10
    ensures var n := a * 1000 + b * 100 + c * 10 + d;
      n % 10 == d && n / 10 % 10 == c && n / 10 % 100 == b * 10 + c && n / 100 % 10 == b && n % 1000 == b * 100 + c * 10 + d
  {
    DivMod(a * 100 + b * 10 + c, 10, d);
    DivMod(a * 10 + b, 10, c);
    DivMod(a, 100, b * 10 + c);
    DivMod(a * 10 + b, 100, c * 10 + d);
    DivMod(a, 10, b);
    DivMod(a, 1000, b * 100 + c * 10 + d);
  }

  lemma ShiftedDigits(a: char, b: char, c: char, d: char)
    requires IsDigit(a) && IsDigit(b) && IsDigit(c) && IsDigit(d)
    ensures b == '9' && c == '0' <==> DigitOf(b) * 10 + DigitOf(c) == 90
    ensures '1' <= d <= '9' <==> DigitOf(d) != 0
    ensures '1' <= a <= '9' <==> a != '0'
  {
  }

  method PaddedCode(number: nat) returns (nCode: nat)
    requires number < 10000
    ensures nCode == Padded(number)
  {
    hide Digits, Pow10;
    var code := Str(number);
    StrLengths(number);
    if |code| != 4 {
      code := PadToFour(code);
    } else {
      ShiftedText(code);
      LooksShiftedIff(code);
      if LooksShifted(code) {
        code := code[1..] + "0";
      }
    }
    nCode := Value(code);
  }

  method ParseSourceTxSecurityCode(value: string) returns (id: nat)
    ensures id == SourceId(value)
  {
    var index := 0;
    var i := |value| - 1;
    while i > 0
      invariant i >= -1 && i < |value|
      invariant i >= 0 ==> LastNonZero(value) == LastNonZeroBelow(value, i + 1)
      invariant i < 0 ==> LastNonZero(value) == 0
      invariant index == 0
    {
      if value[i] != '0' {
        index := i;
        break;
      }
      i := i - 1;
    }
    var window := Substr(value, index - 3, 4);
    Pow10Monotone(|window|, 4);
    Pow10Values();
    var number := WholeNumber(window);
    if number < 0 {
      return 0;    // a number below 1000 with a fraction, however it is padded
    }
    var nCode := PaddedCode(number);
    if nCode < 9000 || nCode > 10000 {
      return 0;
    }
    return nCode % 1000;
  }

  // ---------- which codes are read back ----------

  // 9000 + id after any text, before any zeros.
  function SourceValue(prefix: string, id: nat, zeros: nat): string
    requires id < 1000
  {
    prefix + Str(9000 + id) + seq(zeros, _ => '0')
  }

  // How many zeros the code itself ends in.
  function OwnZeros(id: nat): nat
    requires 0 < id < 1000
  {
    if id % 100 == 0 then 2 else if id % 10 == 0 then 1 else 0
  }

  lemma {:induction false} LastNonZeroIs(value: string, n: nat, k: nat)
    requires 0 < k < n <= |value| && value[k] != '0' && forall i :: k < i < n ==> value[i] == '0'
    ensures LastNonZeroBelow(value, n) == k
  {
    if n > k + 1 {
      LastNonZeroIs(value, n - 1, k);
    }
  }

  lemma CodeDigits(id: nat)
    requires id < 1000
    ensures var c := Str(9000 + id);
      |c| == 4 && Digits(c) && DigitOf(c[0]) == 9 && DigitOf(c[1]) == id / 100 && DigitOf(c[2]) == id / 10 % 10 && DigitOf(c[3]) == id % 10
  {
    StrLengths(9000 + id);
    var c := Str(9000 + id);
    hide Str;
    assert c == [c[0], c[1], c[2], c[3]];
    ValueOfDigits(c[0], c[1], c[2], c[3]);
    var a, b, d, e := DigitOf(c[0]), DigitOf(c[1]), DigitOf(c[2]), DigitOf(c[3]);
    hide Value, DigitOf, Digits, Canonical;
    ThreePlaces(a, b, d, e, id);
  }

  lemma ThreePlaces(a: nat, b: nat, c: nat, d: nat, id: nat)
    requires b < 10 && c < 10 && d < 10 && id < 1000 && a * 1000 + b * 100 + c * 10 + d == 9000 + id
    ensures a == 9 && id / 100 == b && id / 10 % 10 == c && id % 10 == d
  {
    QuotientUnique(a, 9, 1000, b * 100 + c * 10 + d, id);
    DivMod(b, 100, c * 10 + d);
    DivMod(b * 10 + c, 10, d);
    DivMod(b, 10, c);
  }

  lemma NonZeroDigit(id: nat)
    requires 0 < id < 1000
    ensures var c, z := Str(9000 + id), OwnZeros(id);
      |c| == 4 && Digits(c) && c[3 - z] != '0' && forall i :: 3 - z < i < 4 ==> c[i] == '0'
  {
    CodeDigits(id);
  }

  // The window ends at the last digit of the code that is not zero.
  lemma WindowIs(prefix: string, id: nat, zeros: nat)
    requires 0 < id < 1000 && |prefix| >= 1
    ensures |Str(9000 + id)| == 4
    ensures var value, z, p := SourceValue(prefix, id, zeros), OwnZeros(id), |prefix|;
      && LastNonZero(value) == p + 3 - z
      && (z <= p ==> Substr(value, LastNonZero(value) - 3, 4) == prefix[p - z..] + Str(9000 + id)[..4 - z])
  {
    hide Str, DigitOf, LastNonZeroBelow;
    var value, z, p := SourceValue(prefix, id, zeros), OwnZeros(id), |prefix|;
    NonZeroDigit(id);
    var c := Str(9000 + id);
    assert forall i :: p <= i < p + 4 ==> value[i] == c[i - p];
    assert forall i :: p + 4 <= i < |value| ==> value[i] == '0';
    LastNonZeroIs(value, |value|, p + 3 - z);
    assert value == prefix + c + seq(zeros, _ => '0');
    if z <= p {
      assert value[p - z..p - z + 4] == prefix[p - z..] + c[..4 - z];
    }
  }

  // ---------- the theorem, number by number ----------

  lemma ReadsWhole(h: nat, t: nat, u: nat)
    requires h < 10 && t < 10 && u < 10 && u != 0
    ensures IdOf(Padded(9000 + h * 100 + t * 10 + u)) == h * 100 + t * 10 + u <==> !(h == 9 && t == 0)
  {
    FourPlaces(9, h, t, u);
    if h == 9 && t == 0 {
      DivMod(9, 1000, u * 10);
    }
  }

  lemma ReadsShifted(d: nat, h: nat, t: nat)
    requires d < 10 && h < 10 && t < 10 && t != 0
    ensures IdOf(Padded(d * 1000 + 900 + h * 10 + t)) == h * 100 + t * 10 <==> d == 0 || h == 0
  {
    FourPlaces(d, 9, h, t);
    FourPlaces(9, h, t, 0);
  }

  lemma NeverReads(d: nat, e: nat, a: nat)
    requires d < 10 && e < 10 && 0 < a < 10
    ensures IdOf(Padded(d * 1000 + e * 100 + 90 + a)) != a * 100
  {
    FourPlaces(d, e, 9, a);
    FourPlaces(e, 9, a, 0);
  }

  // Whether an id is read back behind this text.
  predicate Readable(prefix: string, id: nat)
    requires prefix != [] && 0 < id < 1000
  {
    if id % 10 != 0 then !(901 <= id <= 909)
    else id % 100 != 0 && (id < 100 || prefix[|prefix| - 1] == '0')
  }

  lemma WholeFour(a: char, b: char, c: char, d: char)
    requires IsDigit(a) && IsDigit(b) && IsDigit(c) && IsDigit(d)
    ensures WholeNumber([a, b, c, d]) == DigitOf(a) * 1000 + DigitOf(b) * 100 + DigitOf(c) * 10 + DigitOf(d)
  {
    ValueOfDigits(a, b, c, d);
  }

  lemma WindowChars(prefix: string, id: nat, zeros: nat)
    requires 0 < id < 1000 && prefix != [] && IsDigit(prefix[|prefix| - 1]) && OwnZeros(id) <= |prefix|
    ensures var c, w := Str(9000 + id), Substr(SourceValue(prefix, id, zeros), LastNonZero(SourceValue(prefix, id, zeros)) - 3, 4);
      |c| == 4 && w == match OwnZeros(id)
        case 0 => [c[0], c[1], c[2], c[3]]
        case 1 => [prefix[|prefix| - 1], c[0], c[1], c[2]]
        case _ => [prefix[|prefix| - 2], prefix[|prefix| - 1], c[0], c[1]]
  {
    hide SourceValue, Substr, LastNonZero, Str;
    WindowIs(prefix, id, zeros);
  }

  lemma CodeChars(id: nat)
    requires 0 < id < 1000
    ensures var c := Str(9000 + id);
      |c| == 4 && Digits(c) && c[0] == '9' && id == DigitOf(c[1]) * 100 + DigitOf(c[2]) * 10 + DigitOf(c[3])
      && (OwnZeros(id) == 0 <==> DigitOf(c[3]) != 0) && (OwnZeros(id) == 1 <==> DigitOf(c[3]) == 0 && DigitOf(c[2]) != 0)
      && (901 <= id <= 909 <==> DigitOf(c[1]) == 9 && DigitOf(c[2]) == 0 && DigitOf(c[3]) != 0)
      && (id < 100 <==> DigitOf(c[1]) == 0)
  {
    CodeDigits(id);
    var c := Str(9000 + id);
    DigitInjective(c[0], '9');
  }

  lemma ReadsUnits(prefix: string, id: nat, zeros: nat)
    requires 0 < id < 1000 && prefix != [] && IsDigit(prefix[|prefix| - 1]) && OwnZeros(id) == 0
    ensures SourceId(SourceValue(prefix, id, zeros)) == id <==> Readable(prefix, id)
  {
    hide SourceValue, Substr, LastNonZero, Str, Value, IdOf, Padded, WholeNumber, Digits, DigitOf;
    WindowChars(prefix, id, zeros);
    CodeChars(id);
    var c := Str(9000 + id);
    CodeIsDigits(c);
    WholeFour(c[0], c[1], c[2], c[3]);
    ReadsWhole(DigitOf(c[1]), DigitOf(c[2]), DigitOf(c[3]));
  }

  lemma ReadsTens(prefix: string, id: nat, zeros: nat)
    requires 0 < id < 1000 && prefix != [] && IsDigit(prefix[|prefix| - 1]) && OwnZeros(id) == 1
    ensures SourceId(SourceValue(prefix, id, zeros)) == id <==> Readable(prefix, id)
  {
    hide SourceValue, Substr, LastNonZero, Str, Value, IdOf, Padded, WholeNumber, Digits, DigitOf;
    WindowChars(prefix, id, zeros);
    CodeChars(id);
    var c, d := Str(9000 + id), prefix[|prefix| - 1];
    CodeIsDigits(c);
    ZeroDigit(d);
    WholeFour(d, c[0], c[1], c[2]);
    ReadsShifted(DigitOf(d), DigitOf(c[1]), DigitOf(c[2]));
  }

  lemma ReadsHundreds(prefix: string, id: nat, zeros: nat)
    requires 0 < id < 1000 && |prefix| >= 2 && IsDigit(prefix[|prefix| - 1]) && OwnZeros(id) == 2
    ensures SourceId(SourceValue(prefix, id, zeros)) != id
  {
    hide SourceValue, Substr, LastNonZero, Str, Value, IdOf, Padded, WholeNumber, Digits, DigitOf;
    WindowChars(prefix, id, zeros);
    CodeChars(id);
    var c := Str(9000 + id);
    CodeIsDigits(c);
    ZeroDigit(c[1]);
    HundredsNever(prefix[|prefix| - 2], prefix[|prefix| - 1], c[0], c[1]);
  }

  lemma CodeIsDigits(c: string)
    requires Digits(c) && |c| == 4
    ensures IsDigit(c[0]) && IsDigit(c[1]) && IsDigit(c[2]) && IsDigit(c[3])
    ensures c[0] == '9' ==> DigitOf(c[0]) == 9
  {
  }

  lemma ZeroDigit(c: char)
    requires IsDigit(c)
    ensures c == '0' <==> DigitOf(c) == 0
  {
  }

  lemma HundredsNever(b: char, d: char, nine: char, a: char)
    requires IsDigit(d) && nine == '9' && IsDigit(a) && a != '0'
    ensures var n := WholeNumber([b, d, nine, a]); n < 0 || IdOf(Padded(n)) != DigitOf(a) * 100
  {
    if IsDigit(b) {
      WholeFour(b, d, nine, a);
      NeverReads(DigitOf(b), DigitOf(d), DigitOf(a));
    } else {
      assert !Digits([b, d, nine, a]) by { assert [b, d, nine, a][0] == b; }
    }
  }

  // One digit before a hundred: the window would start before the text, and starts at its end instead.
  lemma ShortHundred(prefix: string, id: nat, zeros: nat)
    requires 0 < id < 1000 && |prefix| == 1 && OwnZeros(id) == 2
    ensures SourceId(SourceValue(prefix, id, zeros)) == 0
  {
    WindowIs(prefix, id, zeros);
    var value := SourceValue(prefix, id, zeros);
    NonZeroDigit(id);
    assert value[|value| - 1] == '0';
    assert Substr(value, -1, 4) == "0";
    ValueOfDigits('0', '0', '0', '0');
  }

  /** An internal id from 1 to 999, appended as 9000 + id to any text that ends in a digit and followed by any zeros,
      is read back exactly when it ends in a digit other than 0 and is not 901 to 909, or is a multiple of ten but
      not of a hundred that is below 100 or follows a 0. */
  lemma {:induction false} SourceIdIff(prefix: string, id: nat, zeros: nat)
    requires 0 < id < 1000 && prefix != [] && IsDigit(prefix[|prefix| - 1])
    ensures SourceId(SourceValue(prefix, id, zeros)) == id <==> Readable(prefix, id)
  {
    hide SourceId, SourceValue;
    if OwnZeros(id) == 0 {
      ReadsUnits(prefix, id, zeros);
    } else if OwnZeros(id) == 1 {
      ReadsTens(prefix, id, zeros);
    } else if |prefix| >= 2 {
      ReadsHundreds(prefix, id, zeros);
    } else {
      ShortHundred(prefix, id, zeros);
    }
  }

  /** Every id from 1 to 99 is read back, whatever precedes and follows it. */
  lemma TwoDigitIdsRead(prefix: string, id: nat, zeros: nat)
    requires 0 < id < 100 && prefix != [] && IsDigit(prefix[|prefix| - 1])
    ensures SourceId(SourceValue(prefix, id, zeros)) == id
  {
    hide SourceId, SourceValue;
    SourceIdIff(prefix, id, zeros);
  }

  // ---------- zksync lite: the amount as printed, without trailing zeros ----------

  // indexOf("9")
  function IndexOfNine(text: string): (i: int)
    ensures -1 <= i < |text|
    ensures i >= 0 ==> text[i] == '9' && '9' !in text[..i]
    ensures i < 0 ==> '9' !in text
  {
    if text == [] then -1 else if text[0] == '9' then 0 else
      var i := IndexOfNine(text[1..]);
      if i < 0 then -1 else i + 1
  }

  // slice(n) for an n that may be negative
  function SliceFrom(text: string, n: int): string
  {
    if n >= 0 then (if n <= |text| then text[n..] else "")
    else if |text| + n >= 0 then text[|text| + n..] else text
  }

  function NineCode(text: string): string
  {
    var last := SliceFrom(text, |text| - 4);
    SliceFrom(last, IndexOfNine(last))
  }

  // What padding makes of a code of this many digits.
  function PaddedBy(n: nat, length: nat): nat
  {
    if length == 1 then n * 100 else if length == 2 || length == 3 then n * 10 else n
  }

  // A code with a point in it is a number below 1000.
  function ZksyncId(text: string): nat
  {
    var code := NineCode(text);
    if code != [] && Digits(code) then IdOf(PaddedBy(Value(code), |code|)) else 0
  }

  method ParseZksyncLiteSourceTxSecurityCode(stringValue: string) returns (id: nat)
    ensures id == ZksyncId(stringValue)
  {
    var code := SliceFrom(stringValue, |stringValue| - 4);
    var nine := IndexOfNine(code);
    code := SliceFrom(code, nine);
    if code == [] || !Digits(code) {
      return 0;
    }
    assert Canonical(code);
    ghost var length := |code|;
    if |code| != 4 {
      code := PadToFour(code);
    }
    var nCode := Value(code);
    if nCode < 9000 || nCode > 10000 {
      return 0;
    }
    return nCode % 1000;
  }

  // 9000 + id as the end of a fraction, which is printed without the zeros the code itself ends in.
  function PrintedValue(prefix: string, id: nat): string
    requires 0 < id < 1000
  {
    CodeDigits(id);
    prefix + Str(9000 + id)[..4 - OwnZeros(id)]
  }

  // The printed text ends in these characters.
  lemma PrintedEnd(prefix: string, id: nat)
    requires 0 < id < 1000 && prefix != []
    ensures var c, text, n := Str(9000 + id), PrintedValue(prefix, id), |prefix|;
      |c| == 4 && match OwnZeros(id)
        case 0 => SliceFrom(text, |text| - 4) == [c[0], c[1], c[2], c[3]]
        case 1 => SliceFrom(text, |text| - 4) == [prefix[n - 1], c[0], c[1], c[2]]
        case _ => SliceFrom(text, |text| - 4) == if n >= 2 then [prefix[n - 2], prefix[n - 1], c[0], c[1]] else [c[1]]
  {
    CodeDigits(id);
    hide Str;
    var c, z := Str(9000 + id), OwnZeros(id);
    if z == 0 {
      EndAll(prefix, c);
    } else if z == 1 {
      EndOne(prefix, c);
    } else {
      EndTwo(prefix, c);
    }
  }

  // The last four characters, of a text that ends in four, three or two digits of a code.
  lemma EndAll(prefix: string, c: string)
    requires |c| == 4
    ensures var text := prefix + c[..4]; SliceFrom(text, |text| - 4) == [c[0], c[1], c[2], c[3]]
  {
    var text := prefix + c[..4];
    assert text[|text| - 4..] == c[..4];
  }

  lemma EndOne(prefix: string, c: string)
    requires |c| == 4 && prefix != []
    ensures var text, n := prefix + c[..3], |prefix|; SliceFrom(text, |text| - 4) == [prefix[n - 1], c[0], c[1], c[2]]
  {
    var text := prefix + c[..3];
    assert text[|text| - 4..] == prefix[|prefix| - 1..] + c[..3];
  }

  lemma EndTwo(prefix: string, c: string)
    requires |c| == 4 && prefix != []
    ensures var text, n := prefix + c[..2], |prefix|;
      SliceFrom(text, |text| - 4) == if n >= 2 then [prefix[n - 2], prefix[n - 1], c[0], c[1]] else [c[1]]
  {
    var text, n := prefix + c[..2], |prefix|;
    if n >= 2 {
      assert text[|text| - 4..] == prefix[n - 2..] + c[..2];
    } else {
      assert text[|text| - 1..] == [c[1]];
    }
  }

  // The code starts at the first nine of four characters.
  lemma FirstNine(a: char, b: char, c: char, d: char)
    ensures var last, i := [a, b, c, d], IndexOfNine([a, b, c, d]);
      && (a == '9' ==> i == 0 && SliceFrom(last, i) == last)
      && (a != '9' && b == '9' ==> i == 1 && SliceFrom(last, i) == [b, c, d])
      && (a != '9' && b != '9' && c == '9' ==> i == 2 && SliceFrom(last, i) == [c, d])
  {
    var last := [a, b, c, d];
    var i := IndexOfNine(last);
    assert last[0] == a && last[1] == b && last[2] == c;
    assert i > 0 ==> last[..i][0] == a;
    assert i > 1 ==> last[..i][1] == b;
    assert i > 2 ==> last[..i][2] == c;
    assert last[2..] == [c, d] && last[1..] == [b, c, d];
  }

  lemma ZksyncNumbers(d: nat, h: nat, t: nat)
    requires d < 10 && h < 10 && t < 10 && t != 0
    ensures IdOf(PaddedBy(900 + h * 10 + t, 3)) == h * 100 + t * 10
    ensures IdOf(9000 + 900 + h * 10 + t) != h * 100 + t * 10
    ensures IdOf(9000 + d * 100 + 90 + t) != t * 100 && IdOf(PaddedBy(990 + t, 3)) != t * 100
    ensures IdOf(PaddedBy(90 + t, 2)) == 0 && IdOf(PaddedBy(t, 1)) == 0
  {
    FourPlaces(9, h, t, 0);
    FourPlaces(9, 9, h, t);
    FourPlaces(9, d, 9, t);
    FourPlaces(9, 9, t, 0);
  }

  lemma ZksyncUnits(prefix: string, id: nat)
    requires 0 < id < 1000 && prefix != [] && OwnZeros(id) == 0
    ensures ZksyncId(PrintedValue(prefix, id)) == id
  {
    hide PrintedValue, Str, IndexOfNine, SliceFrom, Value;
    PrintedEnd(prefix, id);
    CodeChars(id);
    var c := Str(9000 + id);
    FirstNine(c[0], c[1], c[2], c[3]);
    assert c == [c[0], c[1], c[2], c[3]];
    ValueOfDigits(c[0], c[1], c[2], c[3]);
    DivMod(9, 1000, id);
  }

  lemma ZksyncTens(prefix: string, id: nat)
    requires 0 < id < 1000 && prefix != [] && IsDigit(prefix[|prefix| - 1]) && OwnZeros(id) == 1
    ensures ZksyncId(PrintedValue(prefix, id)) == id <==> prefix[|prefix| - 1] != '9'
  {
    hide PrintedValue, Str, IndexOfNine, SliceFrom, Value, PaddedBy, IdOf;
    PrintedEnd(prefix, id);
    CodeChars(id);
    var c, d := Str(9000 + id), prefix[|prefix| - 1];
    CodeIsDigits(c);
    FirstNine(d, c[0], c[1], c[2]);
    ValueOfDigits(c[0], c[1], c[2], '0');
    ValueOfDigits('9', c[0], c[1], c[2]);
    ZksyncNumbers(0, DigitOf(c[1]), DigitOf(c[2]));
    FourIs([d, c[0], c[1], c[2]], [c[0], c[1], c[2]], [c[0], c[1]]);
  }

  // A text of four is its own number, whatever its digits; of fewer, padded.
  lemma FourIs(four: string, three: string, two: string)
    requires |four| == 4 && |three| == 3 && |two| == 2
    ensures forall n: nat :: PaddedBy(n, |four|) == n && PaddedBy(n, |three|) == n * 10 && PaddedBy(n, |two|) == n * 10
  {
  }

  lemma ZksyncHundreds(prefix: string, id: nat)
    requires 0 < id < 1000 && prefix != [] && IsDigit(prefix[|prefix| - 1]) && OwnZeros(id) == 2
    ensures ZksyncId(PrintedValue(prefix, id)) != id
  {
    hide PrintedValue, Str, IndexOfNine, SliceFrom, Value, PaddedBy, IdOf;
    PrintedEnd(prefix, id);
    CodeChars(id);
    var c, d := Str(9000 + id), prefix[|prefix| - 1];
    CodeIsDigits(c);
    var t := DigitOf(c[1]);
    ZksyncNumbers(DigitOf(d), 0, t);
    ZeroDigit(c[1]);
    ValueOfDigits(c[0], c[1], '0', '0');
    ValueOfDigits(c[1], '0', '0', '0');
    ValueOfDigits(d, c[0], c[1], '0');
    ValueOfDigits('9', d, c[0], c[1]);
    if |prefix| >= 2 {
      FirstNine(prefix[|prefix| - 2], d, c[0], c[1]);
      FourIs([c[0], d, c[0], c[1]], [d, c[0], c[1]], [c[0], c[1]]);
    } else {
      OneChar(c[1]);
    }
  }

  lemma OneChar(a: char)
    ensures SliceFrom([a], IndexOfNine([a])) == [a]
  {
    assert [a][0..] == [a];
  }

  /** On zksync lite an id from 1 to 999 at the end of a fraction is read back exactly when it ends in a digit other
      than 0, or it ends in one 0 and the digit before the code is not 9. */
  lemma {:induction false} ZksyncIdIff(prefix: string, id: nat)
    requires 0 < id < 1000 && prefix != [] && IsDigit(prefix[|prefix| - 1])
    ensures ZksyncId(PrintedValue(prefix, id)) == id <==>
              id % 10 != 0 || (id % 100 != 0 && prefix[|prefix| - 1] != '9')
  {
    hide PrintedValue, ZksyncId;
    if OwnZeros(id) == 0 {
      ZksyncUnits(prefix, id);
    } else if OwnZeros(id) == 1 {
      ZksyncTens(prefix, id);
    } else {
      ZksyncHundreds(prefix, id);
    }
  }
}
