/**
 Which calls the two decoders give back, written out: by selector, target and number of arguments. The decoders' own
 definitions of a known or an accepted call are not used in what is stated.
 */
module StarknetCalls {
  import opened Wrappers
  import opened Starknet
  import JsNumber

  // ---------- the older encoding ----------

  // A transfer of three arguments, a transferERC20 of five to a configured source, or a pending multisig long enough for its
  // own length, a nonce and a fee.
  predicate Kept(c: Call, sources: set<Felt>)
  {
    || (c.selector == 0x83afd3f4caedc6eebf44246fe54e38c95e3179a5ec9ea81740eca5b482d12e && |c.args| == 3)
    || (c.selector == 0x68bcbdba7cc8cac2832d23e2c32e9eec39a9f1d03521eff5dff800a62725fa && c.to in sources && |c.args| == 5)
    || (c.selector == 0x1a256b309f5305c9cebef13e453384c78753c556a1b339faddc674a1950d228 && |c.args| > 0 && c.args[0] + 2 < |c.args|)
  }

  // How it is given back: with its name, its place in the list, and its arguments or what they unpack to.
  function KeptAs(c: Call, place: nat, sources: set<Felt>): Decoded
    requires Kept(c, sources)
  {
    if c.selector == 0x83afd3f4caedc6eebf44246fe54e38c95e3179a5ec9ea81740eca5b482d12e then
      Decoded(Transfer, c.to, c.selector, place, Felts(c.args))
    else if c.selector == 0x68bcbdba7cc8cac2832d23e2c32e9eec39a9f1d03521eff5dff800a62725fa then
      Decoded(TransferERC20, c.to, c.selector, place, Felts(c.args))
    else
      var n := c.args[0];
      Decoded(SignPendingMultisig, c.to, c.selector, place,
              Pending(JsNumber.Round(n), c.args[1..n + 1], JsNumber.Round(c.args[n + 1]), JsNumber.Round(c.args[n + 2]),
                      if n + 3 < |c.args| then Some(JsNumber.Round(c.args[n + 3])) else None))
  }

  lemma AcceptIs(c: Call, place: nat, sources: set<Felt>)
    ensures Accept(c.to, c.selector, place, c.args, sources) == if Kept(c, sources) then [KeptAs(c, place, sources)] else []
  {
    hide JsNumber.Round;
    assert |c.args| > 0 && c.args[0] + 2 < |c.args| ==> Slice(c.args, 1, c.args[0] + 1) == c.args[1..c.args[0] + 1];
  }

  // The decoded call is one of these, under its place.
  ghost predicate KeptAmong(d: Decoded, calls: seq<Call>, from: nat, sources: set<Felt>)
  {
    exists i :: 0 <= i < |calls| && Kept(calls[i], sources) && d == KeptAs(calls[i], from + i, sources)
  }

  // In order of their places, none twice.
  predicate InOrder(result: seq<Decoded>, from: nat)
  {
    && (forall p :: 0 <= p < |result| ==> from <= result[p].index)
    && (forall p, q :: 0 <= p < q < |result| ==> result[p].index < result[q].index)
  }

  lemma AmongStep(d: Decoded, calls: seq<Call>, from: nat, sources: set<Felt>)
    requires calls != []
    ensures KeptAmong(d, calls, from, sources) <==>
      (Kept(calls[0], sources) && d == KeptAs(calls[0], from, sources)) || KeptAmong(d, calls[1..], from + 1, sources)
  {
    hide Kept, KeptAs;
    var rest := calls[1..];
    if i :| 0 <= i < |calls| && Kept(calls[i], sources) && d == KeptAs(calls[i], from + i, sources) {
      if i > 0 {
        assert rest[i - 1] == calls[i] && from + 1 + (i - 1) == from + i;
      }
    }
    if i :| 0 <= i < |rest| && Kept(rest[i], sources) && d == KeptAs(rest[i], from + 1 + i, sources) {
      assert calls[i + 1] == rest[i] && from + (i + 1) == from + 1 + i;
    }
  }

  lemma PlaceOf(c: Call, place: nat, sources: set<Felt>)
    requires Kept(c, sources)
    ensures KeptAs(c, place, sources).index == place
  {
  }

  lemma {:induction false} AcceptedAre(calls: seq<Call>, from: nat, sources: set<Felt>)
    ensures var result := AcceptedCalls(calls, from, sources);
      (forall d :: d in result <==> KeptAmong(d, calls, from, sources)) && InOrder(result, from)
  {
    var result := AcceptedCalls(calls, from, sources);
    if calls != [] {
      var first, tail := Accept(calls[0].to, calls[0].selector, from, calls[0].args, sources), AcceptedCalls(calls[1..], from + 1, sources);
      assert result == first + tail;
      AcceptedAre(calls[1..], from + 1, sources);
      AcceptIs(calls[0], from, sources);
      hide Kept, KeptAs, Accept, AcceptedCalls, KeptAmong;
      forall d
        ensures d in result <==> KeptAmong(d, calls, from, sources)
      {
        AmongStep(d, calls, from, sources);
      }
      if Kept(calls[0], sources) {
        PlaceOf(calls[0], from, sources);
      }
    }
  }

  /** Decoding the older encoding of any calls gives back exactly the ones to keep: transfers of three arguments, transferERC20s
      of five to a configured source, and pending multisigs that unpack; in order, under their places, with exact arguments. */
  lemma {:induction false} OlderDecodesKept(calls: seq<Call>, sources: set<Felt>)
    requires calls != []
    ensures var result := DecodeCairo0(Encode0(calls), sources);
      && result.Some? && InOrder(result.value, 0)
      && (forall d :: d in result.value <==>
            exists i :: 0 <= i < |calls| && Kept(calls[i], sources) && d == KeptAs(calls[i], i, sources))
  {
    hide DecodeCairo0, Kept, KeptAs;
    Cairo0RoundTrip(calls, sources);
    AcceptedAre(calls, 0, sources);
    var result := AcceptedCalls(calls, 0, sources);
    forall d
      ensures d in result <==> exists i :: 0 <= i < |calls| && Kept(calls[i], sources) && d == KeptAs(calls[i], i, sources)
    {
      assert d in result <==> KeptAmong(d, calls, 0, sources);
    }
  }

  /** A single transfer in the older encoding. */
  lemma OlderTransferDecodes(to: Felt, a: Felt, b: Felt, c: Felt, sources: set<Felt>)
    ensures DecodeAny([1, to, TRANSFER, 0, 3, 3, a, b, c], sources) == [Decoded(Transfer, to, TRANSFER, 0, Felts([a, b, c]))]
  {
    var calls := [Call(to, TRANSFER, [a, b, c])];
    OneEncoded(to, [a, b, c]);
    Cairo0RoundTrip(calls, sources);
    AcceptedAre(calls, 0, sources);
    AcceptIs(calls[0], 0, sources);
    assert calls[1..] == [];
    assert AcceptedCalls(calls[1..], 1, sources) == [];
    hide DecodeCairo0, DecodeCairo1, Encode0;
  }

  lemma OneEncoded(to: Felt, args: seq<Felt>)
    requires |args| == 3
    ensures Encode0([Call(to, TRANSFER, args)]) == [1, to, TRANSFER, 0, 3, 3, args[0], args[1], args[2]]
  {
    var calls := [Call(to, TRANSFER, args)];
    assert calls[1..] == [];
    assert Heads(calls[1..], 3) == [] && AllArgs(calls[1..]) == [];
  }

  // ---------- the newer encoding ----------

  // The name of a call with a known selector: a transferERC20 only counts when it goes to a configured source.
  function NameOf(c: Call, sources: set<Felt>): Option<Name>
  {
    if c.selector == 0x83afd3f4caedc6eebf44246fe54e38c95e3179a5ec9ea81740eca5b482d12e then Some(Transfer)
    else if c.selector == 0x68bcbdba7cc8cac2832d23e2c32e9eec39a9f1d03521eff5dff800a62725fa && c.to in sources then Some(TransferERC20)
    else if c.selector == 0x1a256b309f5305c9cebef13e453384c78753c556a1b339faddc674a1950d228 then Some(SignPendingMultisig)
    else None
  }

  lemma NamesAgree(c: Call, sources: set<Felt>)
    ensures SelectorName(c.to, c.selector, sources) == NameOf(c, sources)
  {
  }

  // The places of the calls with a known selector, in order.
  function Places(calls: seq<Call>, from: nat, sources: set<Felt>): seq<nat>
  {
    if calls == [] then [] else
      (if NameOf(calls[0], sources).Some? then [from] else []) + Places(calls[1..], from + 1, sources)
  }

  predicate IsPlace(i: nat, calls: seq<Call>, from: nat, sources: set<Felt>)
  {
    from <= i < from + |calls| && NameOf(calls[i - from], sources).Some?
  }

  lemma PlaceStep(i: nat, calls: seq<Call>, from: nat, sources: set<Felt>)
    requires calls != []
    ensures IsPlace(i, calls, from, sources) <==>
      (i == from && NameOf(calls[0], sources).Some?) || IsPlace(i, calls[1..], from + 1, sources)
  {
    hide NameOf;
    if from < i < from + |calls| {
      assert calls[1..][i - (from + 1)] == calls[i - from];
    }
  }

  predicate Increasing(places: seq<nat>)
  {
    forall p, q :: 0 <= p < q < |places| ==> places[p] < places[q]
  }

  lemma Prepended(i: nat, places: seq<nat>)
    requires Increasing(places) && forall p :: 0 <= p < |places| ==> i < places[p]
    ensures Increasing([i] + places)
    ensures forall j: nat :: j in [i] + places <==> j == i || j in places
  {
  }

  lemma {:induction false} PlacesAre(calls: seq<Call>, from: nat, sources: set<Felt>)
    ensures var places := Places(calls, from, sources);
      && (forall i: nat :: i in places <==> IsPlace(i, calls, from, sources))
      && Increasing(places)
  {
    var places := Places(calls, from, sources);
    if calls == [] {
      assert places == [];
    } else {
      var tail := Places(calls[1..], from + 1, sources);
      PlacesAre(calls[1..], from + 1, sources);
      assert places == (if NameOf(calls[0], sources).Some? then [from] + tail else tail);
      TailAfter(calls[1..], from + 1, sources, tail);
      Prepended(from, tail);
      hide NameOf, Places, IsPlace, Increasing;
      forall i: nat
        ensures i in places <==> IsPlace(i, calls, from, sources)
      {
        PlaceStep(i, calls, from, sources);
      }
    }
  }

  lemma TailAfter(calls: seq<Call>, from: nat, sources: set<Felt>, places: seq<nat>)
    requires forall i: nat :: i in places <==> IsPlace(i, calls, from, sources)
    ensures forall p :: 0 <= p < |places| ==> from <= places[p]
  {
    hide NameOf;
    forall p | 0 <= p < |places|
      ensures from <= places[p]
    {
      assert places[p] in places;
    }
  }

  // What is given back of a call with a known selector.
  function KnownAs(c: Call, index: nat, sources: set<Felt>): Decoded
    requires NameOf(c, sources).Some?
  {
    Decoded(NameOf(c, sources).value, c.to, c.selector, index, Felts(c.args))
  }

  ghost predicate HoldsAt(result: seq<Decoded>, calls: seq<Call>, places: seq<nat>, from: nat, index: nat, sources: set<Felt>)
  {
    && |result| == |places|
    && forall p :: 0 <= p < |places| ==>
         && from <= places[p] < from + |calls| && NameOf(calls[places[p] - from], sources).Some?
         && result[p] == KnownAs(calls[places[p] - from], index + p, sources)
  }

  lemma {:induction false} KnownHold(calls: seq<Call>, from: nat, index: nat, sources: set<Felt>)
    ensures HoldsAt(KnownCalls(calls, index, sources), calls, Places(calls, from, sources), from, index, sources)
  {
    if calls != [] {
      var c, rest := calls[0], calls[1..];
      NamesAgree(c, sources);
      var known := NameOf(c, sources).Some?;
      var next := if known then index + 1 else index;
      KnownHold(rest, from + 1, next, sources);
      var result, places := KnownCalls(rest, next, sources), Places(rest, from + 1, sources);
      assert KnownCalls(calls, index, sources) == if known then [KnownAs(c, index, sources)] + result else result;
      assert Places(calls, from, sources) == if known then [from] + places else places;
      hide NameOf, KnownCalls, Places, SelectorName, KnownAs;
      if known {
        HoldsOneMore(result, calls, places, from, index, sources);
      } else {
        HoldsSame(result, calls, places, from, index, sources);
      }
    }
  }

  lemma HoldsOneMore(result: seq<Decoded>, calls: seq<Call>, places: seq<nat>, from: nat, index: nat, sources: set<Felt>)
    requires calls != [] && NameOf(calls[0], sources).Some?
    requires HoldsAt(result, calls[1..], places, from + 1, index + 1, sources)
    ensures HoldsAt([KnownAs(calls[0], index, sources)] + result, calls, [from] + places, from, index, sources)
  {
    hide NameOf, KnownAs;
    var all, at := [KnownAs(calls[0], index, sources)] + result, [from] + places;
    forall p | 0 <= p < |at|
      ensures from <= at[p] < from + |calls| && NameOf(calls[at[p] - from], sources).Some?
      ensures all[p] == KnownAs(calls[at[p] - from], index + p, sources)
    {
      if p > 0 {
        assert at[p] == places[p - 1] && all[p] == result[p - 1];
        assert calls[1..][places[p - 1] - (from + 1)] == calls[at[p] - from] && index + 1 + (p - 1) == index + p;
      }
    }
  }

  lemma HoldsSame(result: seq<Decoded>, calls: seq<Call>, places: seq<nat>, from: nat, index: nat, sources: set<Felt>)
    requires calls != [] && HoldsAt(result, calls[1..], places, from + 1, index, sources)
    ensures HoldsAt(result, calls, places, from, index, sources)
  {
    hide NameOf, KnownAs;
    forall p | 0 <= p < |places|
      ensures from <= places[p] < from + |calls| && NameOf(calls[places[p] - from], sources).Some?
      ensures result[p] == KnownAs(calls[places[p] - from], index + p, sources)
    {
      assert calls[1..][places[p] - (from + 1)] == calls[places[p] - from];
    }
  }

  /** Decoding the newer encoding of any calls gives back exactly those with a known selector, in the order of their places,
      numbered among themselves, with their target and exact arguments. */
  lemma {:induction false} NewerDecodesKnown(calls: seq<Call>, sources: set<Felt>)
    ensures var result, places := DecodeCairo1(Encode1(calls), sources), Places(calls, 0, sources);
      && (forall i: nat :: i in places <==> i < |calls| && NameOf(calls[i], sources).Some?)
      && (forall p, q :: 0 <= p < q < |places| ==> places[p] < places[q])
      && |result| == |places|
      && (forall p :: 0 <= p < |places| ==> places[p] < |calls| && NameOf(calls[places[p]], sources).Some?
                                            && result[p] == KnownAs(calls[places[p]], p, sources))
  {
    hide DecodeCairo1, Encode1, Places, NameOf, KnownAs;
    assert forall i: nat :: IsPlace(i, calls, 0, sources) <==> i < |calls| && NameOf(calls[i], sources).Some?;
    Cairo1RoundTrip(calls, sources);
    PlacesAre(calls, 0, sources);
    KnownHold(calls, 0, 0, sources);
  }
}
