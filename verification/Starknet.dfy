/**
 Starknet account calldata: the two encodings of a list of calls, and the two decoders that walk them by index.
 Felts are numbers; JavaScript's `undefined` and NaN, which reading past the end gives, are None.
 */
module Starknet {
  import opened Wrappers
  import opened Sequences
  import JsNumber

  type Felt = nat

  datatype Name = Transfer | TransferERC20 | SignPendingMultisig

  const SIGN_PENDING_MULTISIG: Felt := 0x1a256b309f5305c9cebef13e453384c78753c556a1b339faddc674a1950d228
  const TRANSFER: Felt := 0x83afd3f4caedc6eebf44246fe54e38c95e3179a5ec9ea81740eca5b482d12e
  const TRANSFER_ERC20: Felt := 0x68bcbdba7cc8cac2832d23e2c32e9eec39a9f1d03521eff5dff800a62725fa

  // getSelectorName; `sources` are the addresses configured as OBSource.
  function SelectorName(to: Felt, selector: Felt, sources: set<Felt>): Option<Name>
  {
    if selector == SIGN_PENDING_MULTISIG then Some(SignPendingMultisig)
    else if selector == TRANSFER then Some(Transfer)
    else if selector == TRANSFER_ERC20 && to in sources then Some(TransferERC20)
    else None
  }

  datatype Call = Call(to: Felt, selector: Felt, args: seq<Felt>)

  // The arguments as they are, or what a pending multisig signature is unpacked to. Its numbers are doubles.
  datatype Args =
    | Felts(felts: seq<Felt>)
    | Pending(count: nat, calldata: seq<Felt>, nonce: nat, maxFee: nat, version: Option<nat>)

  datatype Decoded = Decoded(name: Name, to: Felt, selector: Felt, index: nat, args: Args)

  // ---------- JavaScript arrays ----------

  // slice(from, to), clipped to the array
  function Slice<T>(s: seq<T>, from: nat, to: nat): seq<T>
  {
    var b := if to < |s| then to else |s|;
    if from <= b then s[from..b] else []
  }

  function ReadAt(inputs: seq<Felt>, i: Option<nat>, k: nat): Option<Felt>
  {
    if i.Some? && i.value + k < |inputs| then Some(inputs[i.value + k]) else None
  }

  function Chunks<T>(s: seq<T>, size: nat): (r: seq<seq<T>>)
    requires size > 0
    ensures forall c :: c in r ==> 0 < |c| <= size
  {
    if s == [] then [] else if |s| <= size then [s] else [s[..size]] + Chunks(s[size..], size)
  }

  // What is left from an index that may lie past the end.
  function Left<T>(s: seq<T>, i: nat): seq<T>
  {
    if i <= |s| then s[i..] else []
  }

  lemma ChunkStep<T>(s: seq<T>, i: nat, size: nat)
    requires size > 0 && i < |s|
    ensures Chunks(Left(s, i), size) == [Slice(s, i, i + size)] + Chunks(Left(s, i + size), size)
  {
    var rest := s[i..];
    if |rest| <= size {
      assert Slice(s, i, i + size) == rest && Left(s, i + size) == [];
    } else {
      assert Slice(s, i, i + size) == rest[..size] && Left(s, i + size) == rest[size..];
    }
  }

  // Some chunks are cut off, and the rest of the array is still to be cut.
  ghost predicate CutSoFar<T>(items: seq<T>, size: nat, i: nat, result: seq<seq<T>>)
    requires size > 0
  {
    Chunks(items, size) == result + Chunks(Left(items, i), size)
  }

  lemma CutOne<T>(items: seq<T>, size: nat, i: nat, result: seq<seq<T>>)
    requires size > 0 && i < |items| && CutSoFar(items, size, i, result)
    ensures CutSoFar(items, size, i + size, result + [Slice(items, i, i + size)])
  {
    hide Chunks, Left, Slice;
    ChunkStep(items, i, size);
    Regroup(result, [Slice(items, i, i + size)], Chunks(Left(items, i + size), size));
  }

  lemma CutAll<T>(items: seq<T>, size: nat, i: nat, result: seq<seq<T>>)
    requires size > 0
    ensures CutSoFar(items, size, 0, [])
    ensures i >= |items| && CutSoFar(items, size, i, result) ==> result == Chunks(items, size)
  {
    assert Left(items, 0) == items;
    if i >= |items| {
      assert Left(items, i) == [];
      NoChunks<T>(size);
    }
    hide Chunks;
  }

  method SplitArrayBySize<T>(items: seq<T>, size: nat) returns (result: seq<seq<T>>)
    requires size > 0
    ensures result == Chunks(items, size)
  {
    hide CutSoFar, Chunks;
    result := [];
    var i := 0;
    CutAll(items, size, 0, []);
    while i < |items|
      invariant CutSoFar(items, size, i, result)
    {
      CutOne(items, size, i, result);
      result := result + [Slice(items, i, i + size)];
      i := i + size;
    }
    CutAll(items, size, i, result);
  }

  lemma NoChunks<T>(size: nat)
    requires size > 0
    ensures Chunks<T>([], size) == []
  {
  }

  // ---------- Cairo 1: calls one after the other, each with its arguments ----------

  // One call of the walk: where the next one starts, and the calls found so far.
  function ReadCall(inputs: seq<Felt>, i: Option<nat>, result: seq<Decoded>, sources: set<Felt>): (r: (Option<nat>, seq<Decoded>))
    ensures r.0.Some? ==> i.Some? && r.0.value >= i.value + 3
  {
    var to, selector, length := ReadAt(inputs, i, 0), ReadAt(inputs, i, 1), ReadAt(inputs, i, 2);
    var args := if length.Some? then Slice(inputs, i.value + 3, i.value + 3 + length.value) else [];
    var next := if length.Some? then Some(i.value + length.value + 3) else None;
    if to.Some? && selector.Some? && SelectorName(to.value, selector.value, sources).Some?
    then (next, result + [Decoded(SelectorName(to.value, selector.value, sources).value, to.value, selector.value, |result|, Felts(args))])
    else (next, result)
  }

  // The inner loop: n calls.
  function ReadCalls(inputs: seq<Felt>, n: nat, i: Option<nat>, result: seq<Decoded>, sources: set<Felt>): (r: (Option<nat>, seq<Decoded>))
    ensures r.0.Some? ==> i.Some? && r.0.value >= i.value + 3 * n
  {
    if n == 0 then (i, result) else
      var (j, found) := ReadCall(inputs, i, result, sources);
      ReadCalls(inputs, n - 1, j, found, sources)
  }

  // The outer loop: it starts over with the same count as long as something is left.
  function Walk(inputs: seq<Felt>, i: Option<nat>, result: seq<Decoded>, sources: set<Felt>): seq<Decoded>
    decreases if i.Some? then |inputs| - i.value else 0
  {
    if i.None? || i.value >= |inputs| || inputs[0] == 0 then result else
      var (j, found) := ReadCalls(inputs, inputs[0], i, result, sources);
      if j.None? then found else Walk(inputs, j, found, sources)
  }

  function DecodeCairo1(inputs: seq<Felt>, sources: set<Felt>): seq<Decoded>
  {
    Walk(inputs, Some(1), [], sources)
  }

  // The body of the inner loop. The index is NaN, and stays so, once a length was read past the end.
  method ReadNext(inputs: seq<Felt>, currentIndex: Option<nat>, result: seq<Decoded>, sources: set<Felt>)
    returns (next: Option<nat>, found: seq<Decoded>)
    ensures (next, found) == ReadCall(inputs, currentIndex, result, sources)
  {
    hide SelectorName, ReadAt, Slice;
    found := result;
    var calldataValueLength := ReadAt(inputs, currentIndex, 2);
    var calldataValue: seq<Felt> := [];
    if calldataValueLength.Some? {
      LengthHasIndex(inputs, currentIndex);
      calldataValue := Slice(inputs, currentIndex.value + 3, currentIndex.value + 3 + calldataValueLength.value);
    }
    var selector := ReadAt(inputs, currentIndex, 1);
    var to := ReadAt(inputs, currentIndex, 0);
    if to.Some? && selector.Some? {
      var selectorItem := SelectorName(to.value, selector.value, sources);
      if selectorItem.Some? {
        found := found + [Decoded(selectorItem.value, to.value, selector.value, |found|, Felts(calldataValue))];
      }
    }
    next := if calldataValueLength.Some? then Some(currentIndex.value + calldataValueLength.value + 3) else None;
  }

  lemma LengthHasIndex(inputs: seq<Felt>, i: Option<nat>)
    ensures ReadAt(inputs, i, 2).Some? ==> i.Some?
  {
  }

  method DecodeExecuteCalldataCairo1(inputs: seq<Felt>, sources: set<Felt>) returns (result: seq<Decoded>)
    ensures result == DecodeCairo1(inputs, sources)
  {
    hide ReadCall;
    result := [];
    var currentIndex: Option<nat> := Some(1);
    while currentIndex.Some? && currentIndex.value < |inputs|
      invariant DecodeCairo1(inputs, sources) == Walk(inputs, currentIndex, result, sources)
      decreases if currentIndex.Some? then |inputs| - currentIndex.value + 1 else 0
    {
      var length := inputs[0];
      if length <= 0 {
        break;
      }
      ghost var start, before := currentIndex, result;
      var i := 0;
      while i < length
        invariant 0 <= i <= length
        invariant ReadCalls(inputs, length, start, before, sources) == ReadCalls(inputs, length - i, currentIndex, result, sources)
        invariant currentIndex.Some? ==> currentIndex.value >= start.value + 3 * i
      {
        currentIndex, result := ReadNext(inputs, currentIndex, result, sources);
        i := i + 1;
      }
    }
  }

  function Encode1Calls(calls: seq<Call>): seq<Felt>
  {
    if calls == [] then [] else
      [calls[0].to, calls[0].selector, |calls[0].args|] + calls[0].args + Encode1Calls(calls[1..])
  }

  function Encode1(calls: seq<Call>): seq<Felt>
  {
    [|calls|] + Encode1Calls(calls)
  }

  // The calls with a known selector, in order, numbered among themselves.
  function KnownCalls(calls: seq<Call>, index: nat, sources: set<Felt>): seq<Decoded>
  {
    if calls == [] then [] else
      var c := calls[0];
      match SelectorName(c.to, c.selector, sources)
      case Some(name) => [Decoded(name, c.to, c.selector, index, Felts(c.args))] + KnownCalls(calls[1..], index + 1, sources)
      case None => KnownCalls(calls[1..], index, sources)
  }

  // The walk reads a call where it was written.
  lemma ReadsCall(pre: seq<Felt>, c: Call, rest: seq<Felt>, result: seq<Decoded>, sources: set<Felt>)
    ensures var head := [c.to, c.selector, |c.args|] + c.args;
      ReadCall(pre + (head + rest), Some(|pre|), result, sources)
        == (Some(|pre + head|), match SelectorName(c.to, c.selector, sources)
                                case Some(name) => result + [Decoded(name, c.to, c.selector, |result|, Felts(c.args))]
                                case None => result)
  {
    hide SelectorName;
    CallAt(pre, c, rest);
  }

  lemma CallAt(pre: seq<Felt>, c: Call, rest: seq<Felt>)
    ensures var head, n := [c.to, c.selector, |c.args|] + c.args, |pre|;
            var inputs := pre + (head + rest);
      && n + 3 + |c.args| <= |inputs| && |pre + head| == n + 3 + |c.args|
      && inputs[n] == c.to && inputs[n + 1] == c.selector && inputs[n + 2] == |c.args|
      && Slice(inputs, n + 3, n + 3 + |c.args|) == c.args
  {
    var head := [c.to, c.selector, |c.args|] + c.args;
    var inputs := pre + (head + rest);
    var from := inputs[|pre|..];
    assert from == head + rest;
    assert from[0] == c.to && from[1] == c.selector && from[2] == |c.args|;
    assert inputs[|pre| + 3..|pre| + 3 + |c.args|] == c.args;
  }

  lemma {:induction false} ReadsEncoded(pre: seq<Felt>, calls: seq<Call>, result: seq<Decoded>, sources: set<Felt>)
    ensures ReadCalls(pre + Encode1Calls(calls), |calls|, Some(|pre|), result, sources)
         == (Some(|pre + Encode1Calls(calls)|), result + KnownCalls(calls, |result|, sources))
    decreases |calls|
  {
    if calls == [] {
      assert result + [] == result && pre + [] == pre;
    } else {
      var c, rest := calls[0], Encode1Calls(calls[1..]);
      var head := [c.to, c.selector, |c.args|] + c.args;
      assert Encode1Calls(calls) == head + rest;
      var inputs := pre + (head + rest);
      var (j, found) := ReadCall(inputs, Some(|pre|), result, sources);
      assert ReadCalls(inputs, |calls|, Some(|pre|), result, sources) == ReadCalls(inputs, |calls[1..]|, j, found, sources);
      hide SelectorName, ReadCall, ReadCalls, Encode1Calls;
      ReadsCall(pre, c, rest, result, sources);
      KnownStep(calls, result, found, sources);
      hide KnownCalls;
      ReadsEncoded(pre + head, calls[1..], found, sources);
      Regroup(pre, head, rest);
    }
  }

  lemma KnownStep(calls: seq<Call>, result: seq<Decoded>, found: seq<Decoded>, sources: set<Felt>)
    requires calls != []
    requires found == match SelectorName(calls[0].to, calls[0].selector, sources)
                      case Some(name) => result + [Decoded(name, calls[0].to, calls[0].selector, |result|, Felts(calls[0].args))]
                      case None => result
    ensures result + KnownCalls(calls, |result|, sources) == found + KnownCalls(calls[1..], |found|, sources)
  {
    hide SelectorName;
  }

  lemma SomethingEncoded(calls: seq<Call>)
    requires calls != []
    ensures |Encode1Calls(calls)| >= 3
  {
  }

  lemma NothingEncoded(sources: set<Felt>)
    ensures Encode1([]) == [0] && KnownCalls([], 0, sources) == [] && DecodeCairo1([0], sources) == []
  {
  }

  /** Decoding inverts encoding: any list of calls comes back as its known-selector calls, in order, with exact
      arguments. */
  lemma Cairo1RoundTrip(calls: seq<Call>, sources: set<Felt>)
    ensures DecodeCairo1(Encode1(calls), sources) == KnownCalls(calls, 0, sources)
  {
    hide ReadCalls, KnownCalls, Encode1Calls;
    var inputs := Encode1(calls);
    ReadsEncoded([|calls|], calls, [], sources);
    assert [] + KnownCalls(calls, 0, sources) == KnownCalls(calls, 0, sources);
    if calls == [] {
      NothingEncoded(sources);
    } else {
      SomethingEncoded(calls);
      var known := KnownCalls(calls, 0, sources);
      assert ReadCalls(inputs, inputs[0], Some(1), [], sources) == (Some(|inputs|), known);
      assert Walk(inputs, Some(|inputs|), known, sources) == known;
    }
  }

  // ---------- Cairo 0: all call heads, then all arguments ----------

  // parseSignPendingMultisigCalldata: fails when the fee would be read past the end.
  function UnpackPending(args: seq<Felt>): Option<Args>
  {
    if args != [] && args[0] + 2 < |args| then
      var n := args[0];
      Some(Pending(JsNumber.Round(n), Slice(args, 1, n + 1), JsNumber.Round(args[n + 1]), JsNumber.Round(args[n + 2]),
                   if n + 3 < |args| then Some(JsNumber.Round(args[n + 3])) else None))
    else None
  }

  // A call with a known selector is kept if it has the arguments its name asks for.
  function Accept(to: Felt, selector: Felt, index: nat, args: seq<Felt>, sources: set<Felt>): seq<Decoded>
  {
    match SelectorName(to, selector, sources)
    case None => []
    case Some(Transfer) => if |args| == 3 then [Decoded(Transfer, to, selector, index, Felts(args))] else []
    case Some(TransferERC20) => if |args| == 5 then [Decoded(TransferERC20, to, selector, index, Felts(args))] else []
    case Some(SignPendingMultisig) =>
      if UnpackPending(args).Some? then [Decoded(SignPendingMultisig, to, selector, index, UnpackPending(args).value)] else []
  }

  // One head: the sum of the lengths so far with its own, and what is kept of the call. The arguments run from the
  // head's offset to that sum.
  function ParseHead(items: seq<Felt>, calldata: seq<Felt>, sum: Option<nat>, op: nat, sources: set<Felt>): (Option<nat>, seq<Decoded>)
    requires 0 < |items| <= 4
  {
    var end := if sum.Some? && |items| > 3 then Some(sum.value + items[3]) else None;
    var args := if end.Some? then Slice(calldata, items[2], end.value) else [];
    (end, if |items| > 1 then Accept(items[0], items[1], op, args, sources) else [])
  }

  function ParseCalls(heads: seq<seq<Felt>>, calldata: seq<Felt>, sum: Option<nat>, op: nat, sources: set<Felt>): seq<Decoded>
    requires forall h :: h in heads ==> 0 < |h| <= 4
  {
    if heads == [] then [] else
      var (end, kept) := ParseHead(heads[0], calldata, sum, op, sources);
      kept + ParseCalls(heads[1..], calldata, end, op + 1, sources)
  }

  // None: nothing to decode.
  function DecodeCairo0(inputs: seq<Felt>, sources: set<Felt>): Option<seq<Decoded>>
  {
    if inputs == [] || inputs[0] == 0 then None else
      var n := inputs[0];
      var calldata := if 1 + n * 4 < |inputs| then Slice(inputs, n * 4 + 2, n * 4 + 2 + inputs[1 + n * 4]) else [];
      Some(ParseCalls(Chunks(Slice(inputs, 1, n * 4 + 1), 4), calldata, Some(0), 0, sources))
  }

  method KeepCall(result: Decoded, selectorItem: Option<Name>, args: seq<Felt>) returns (kept: seq<Decoded>)
    requires selectorItem.Some? ==> result.name == selectorItem.value
    requires result.args == Felts(args)
    ensures forall sources :: selectorItem == SelectorName(result.to, result.selector, sources) ==>
              kept == Accept(result.to, result.selector, result.index, args, sources)
  {
    kept := [];
    if selectorItem == Some(Transfer) && |args| == 3 {
      kept := [result];
    } else if selectorItem == Some(TransferERC20) && |args| == 5 {
      kept := [result];
    } else if selectorItem == Some(SignPendingMultisig) {
      var unpacked := UnpackPending(args);
      if unpacked.Some? {
        kept := [result.(args := unpacked.value)];
      }
    }
  }

  // The body of the loop over the heads.
  method ReadHead(items: seq<Felt>, data: seq<Felt>, sum: Option<nat>, opIndex: nat, sources: set<Felt>)
    returns (index: Option<nat>, kept: seq<Decoded>)
    requires 0 < |items| <= 4
    ensures (index, kept) == ParseHead(items, data, sum, opIndex, sources)
  {
    hide SelectorName, Accept, Slice, UnpackPending;
    index := if sum.Some? && |items| > 3 then Some(sum.value + items[3]) else None;
    var args: seq<Felt> := [];
    if index.Some? {
      args := Slice(data, items[2], index.value);
    }
    kept := [];
    if |items| > 1 {
      var selectorItem := SelectorName(items[0], items[1], sources);
      var name := if selectorItem.Some? then selectorItem.value else Transfer;
      kept := KeepCall(Decoded(name, items[0], items[1], opIndex, Felts(args)), selectorItem, args);
    }
  }

  method ParseContractCallData(callArray: seq<seq<Felt>>, data: seq<Felt>, sources: set<Felt>) returns (calldata: seq<Decoded>)
    requires forall h :: h in callArray ==> 0 < |h| <= 4
    ensures calldata == ParseCalls(callArray, data, Some(0), 0, sources)
  {
    hide ParseHead;
    calldata := [];
    var index: Option<nat> := Some(0);
    var opIndex := 0;
    while opIndex < |callArray|
      invariant 0 <= opIndex <= |callArray|
      invariant ParseCalls(callArray, data, Some(0), 0, sources) == calldata + ParseCalls(callArray[opIndex..], data, index, opIndex, sources)
    {
      var items := callArray[opIndex];
      assert callArray[opIndex..][0] == items && callArray[opIndex..][1..] == callArray[opIndex + 1..];
      var kept: seq<Decoded>;
      ghost var before := calldata;
      index, kept := ReadHead(items, data, index, opIndex, sources);
      calldata := calldata + kept;
      opIndex := opIndex + 1;
      Regroup(before, kept, ParseCalls(callArray[opIndex..], data, index, opIndex, sources));
    }
  }

  method DecodeExecuteCalldataCairo0(inputs: seq<Felt>, sources: set<Felt>) returns (result: Option<seq<Decoded>>)
    ensures result == DecodeCairo0(inputs, sources)
  {
    hide ParseCalls, Slice, Chunks;
    if inputs == [] || inputs[0] <= 0 {
      return None;
    }
    var callArrayLen := inputs[0];
    var index := 1;
    var callArray := Slice(inputs, index, callArrayLen * 4 + 1);
    index := index + callArrayLen * 4;
    var calldata: seq<Felt> := [];
    if index < |inputs| {
      var calldataLen := inputs[index];
      calldata := Slice(inputs, index + 1, calldataLen + index + 1);
    }
    var heads := SplitArrayBySize(callArray, 4);
    var parsed := ParseContractCallData(heads, calldata, sources);
    return Some(parsed);
  }

  function Heads(calls: seq<Call>, offset: nat): seq<Felt>
  {
    if calls == [] then [] else
      [calls[0].to, calls[0].selector, offset, |calls[0].args|] + Heads(calls[1..], offset + |calls[0].args|)
  }

  function AllArgs(calls: seq<Call>): seq<Felt>
  {
    if calls == [] then [] else calls[0].args + AllArgs(calls[1..])
  }

  // The offsets are the running sums of the lengths.
  function Encode0(calls: seq<Call>): seq<Felt>
  {
    [|calls|] + Heads(calls, 0) + [|AllArgs(calls)|] + AllArgs(calls)
  }

  // The calls whose arguments fit their name, numbered by their place.
  function AcceptedCalls(calls: seq<Call>, op: nat, sources: set<Felt>): seq<Decoded>
  {
    if calls == [] then [] else
      Accept(calls[0].to, calls[0].selector, op, calls[0].args, sources) + AcceptedCalls(calls[1..], op + 1, sources)
  }

  lemma {:induction false} HeadsLength(calls: seq<Call>, offset: nat)
    ensures |Heads(calls, offset)| == 4 * |calls|
  {
    if calls != [] {
      HeadsLength(calls[1..], offset + |calls[0].args|);
    }
  }

  // The parser reads a head where it was written.
  lemma ParsesHead(c: Call, before: seq<Felt>, rest: seq<Felt>, op: nat, sources: set<Felt>)
    ensures ParseHead([c.to, c.selector, |before|, |c.args|], before + (c.args + rest), Some(|before|), op, sources)
         == (Some(|before + c.args|), Accept(c.to, c.selector, op, c.args, sources))
  {
    hide Accept;
    assert (before + (c.args + rest))[|before|..|before| + |c.args|] == c.args;
  }

  lemma ChunksOf(head: seq<Felt>, rest: seq<Felt>)
    requires |head| == 4
    ensures Chunks(head + rest, 4)[0] == head && Chunks(head + rest, 4)[1..] == Chunks(rest, 4) && |Chunks(head + rest, 4)| > 0
  {
    if rest == [] {
      assert head + rest == head;
    } else {
      assert (head + rest)[..4] == head && (head + rest)[4..] == rest;
    }
  }

  lemma ParsesFirst(head: seq<Felt>, tail: seq<Felt>, data: seq<Felt>, sum: Option<nat>, op: nat, sources: set<Felt>)
    requires |head| == 4
    ensures var (end, kept) := ParseHead(head, data, sum, op, sources);
      ParseCalls(Chunks(head + tail, 4), data, sum, op, sources) == kept + ParseCalls(Chunks(tail, 4), data, end, op + 1, sources)
  {
    hide ParseHead, Chunks;
    ChunksOf(head, tail);
  }

  lemma Heads0(calls: seq<Call>, offset: nat, op: nat, sources: set<Felt>)
    requires calls != []
    ensures var c := calls[0];
      && Heads(calls, offset) == [c.to, c.selector, offset, |c.args|] + Heads(calls[1..], offset + |c.args|)
      && AllArgs(calls) == c.args + AllArgs(calls[1..])
      && AcceptedCalls(calls, op, sources) == Accept(c.to, c.selector, op, c.args, sources) + AcceptedCalls(calls[1..], op + 1, sources)
  {
  }

  lemma ParsesNothing(before: seq<Felt>, op: nat, sources: set<Felt>)
    ensures ParseCalls(Chunks(Heads([], |before|), 4), before + AllArgs([]), Some(|before|), op, sources) == AcceptedCalls([], op, sources)
  {
  }

  lemma {:induction false} ParsesHeads(calls: seq<Call>, before: seq<Felt>, op: nat, sources: set<Felt>)
    ensures ParseCalls(Chunks(Heads(calls, |before|), 4), before + AllArgs(calls), Some(|before|), op, sources)
         == AcceptedCalls(calls, op, sources)
    decreases |calls|
  {
    hide Accept, ParseHead, ParseCalls, Chunks, Heads, AllArgs, AcceptedCalls;
    if calls == [] {
      ParsesNothing(before, op, sources);
    } else {
      Heads0(calls, |before|, op, sources);
      var c, rest := calls[0], AllArgs(calls[1..]);
      var head, tail := [c.to, c.selector, |before|, |c.args|], Heads(calls[1..], |before| + |c.args|);
      ParsesFirst(head, tail, before + (c.args + rest), Some(|before|), op, sources);
      ParsesHead(c, before, rest, op, sources);
      ParsesHeads(calls[1..], before + c.args, op + 1, sources);
      Regroup(before, c.args, rest);
    }
  }

  /** Decoding inverts encoding when the offsets are running sums: a list of calls comes back as those whose
      arguments fit their name, in order, with exact arguments; an empty list as nothing. */
  lemma Cairo0RoundTrip(calls: seq<Call>, sources: set<Felt>)
    ensures DecodeCairo0(Encode0(calls), sources) == if calls == [] then None else Some(AcceptedCalls(calls, 0, sources))
  {
    if calls != [] {
      var n, inputs := |calls|, Encode0(calls);
      HeadsLength(calls, 0);
      assert Slice(inputs, 1, n * 4 + 1) == Heads(calls, 0);
      assert inputs[1 + n * 4] == |AllArgs(calls)|;
      assert Slice(inputs, n * 4 + 2, n * 4 + 2 + |AllArgs(calls)|) == AllArgs(calls);
      ParsesHeads(calls, [], 0, sources);
      assert [] + AllArgs(calls) == AllArgs(calls);
    }
  }

  // ---------- both ----------

  // handleTransaction: the older decoder first, the newer one when that finds nothing.
  function DecodeAny(inputs: seq<Felt>, sources: set<Felt>): seq<Decoded>
  {
    var older := DecodeCairo0(inputs, sources);
    if older.Some? && older.value != [] then older.value else DecodeCairo1(inputs, sources)
  }

  /** Trying the older decoder first does no harm to a single transfer in the newer encoding: its arguments would lie
      past the end. */
  lemma SingleTransferDecodes(to: Felt, args: seq<Felt>, sources: set<Felt>)
    requires |args| == 3
    ensures DecodeAny(Encode1([Call(to, TRANSFER, args)]), sources) == [Decoded(Transfer, to, TRANSFER, 0, Felts(args))]
  {
    var calls := [Call(to, TRANSFER, args)];
    assert calls[1..] == [];
    assert Encode1Calls(calls[1..]) == [];
    assert Encode1(calls) == [1, to, TRANSFER, 3, args[0], args[1], args[2]];
    OlderFindsNothing(to, args[0], args[1], args[2], sources);
    Cairo1RoundTrip(calls, sources);
    hide DecodeCairo0, DecodeCairo1;
    assert KnownCalls(calls, 0, sources) == [Decoded(Transfer, to, TRANSFER, 0, Felts(args))];
  }

  // A transfer that has no two arguments is not kept.
  lemma ShortTransfer(head: seq<Felt>, calldata: seq<Felt>, sources: set<Felt>)
    requires |head| == 4 && head[1] == TRANSFER && head[2] == 3 && |calldata| <= 1
    ensures ParseCalls([head], calldata, Some(0), 0, sources) == []
  {
    assert ParseHead(head, calldata, Some(0), 0, sources).1 == [];
    var heads: seq<seq<Felt>> := [head];
    assert heads[1..] == [];
  }

  lemma OlderFindsNothing(to: Felt, a: Felt, b: Felt, c: Felt, sources: set<Felt>)
    ensures DecodeCairo0([1, to, TRANSFER, 3, a, b, c], sources) == Some([])
  {
    var inputs := [1, to, TRANSFER, 3, a, b, c];
    TransferParts(inputs, b);
    OneChunk([to, TRANSFER, 3, a]);
    ShortTransfer([to, TRANSFER, 3, a], Slice(inputs, 6, 6 + b), sources);
    hide ParseCalls, Chunks, Slice;
  }

  lemma TransferParts(inputs: seq<Felt>, b: Felt)
    requires |inputs| == 7
    ensures Slice(inputs, 1, 5) == [inputs[1], inputs[2], inputs[3], inputs[4]]
    ensures |Slice(inputs, 6, 6 + b)| <= 1
  {
  }

  lemma OneChunk(head: seq<Felt>)
    requires |head| == 4
    ensures Chunks(head, 4) == [head]
  {
  }
}
