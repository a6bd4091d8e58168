/** JavaScript's Set of numbers: its elements in the order they were first added, without repetition. */
module JsSet {
  import opened Sequences

  function Add(xs: seq<int>, x: int): seq<int>
  {
    if x in xs then xs else xs + [x]
  }

  function AddAll(xs: seq<int>, ys: seq<int>): seq<int>
  {
    if ys == [] then xs else Add(AddAll(xs, ys[..|ys| - 1]), ys[|ys| - 1])
  }

  function Delete(xs: seq<int>, x: int): seq<int>
  {
    if xs == [] then [] else if xs[0] == x then Delete(xs[1..], x) else [xs[0]] + Delete(xs[1..], x)
  }

  function DeleteAll(xs: seq<int>, ys: seq<int>): seq<int>
  {
    if ys == [] then xs else Delete(DeleteAll(xs, ys[..|ys| - 1]), ys[|ys| - 1])
  }

  function Elements(xs: seq<int>): set<int>
  {
    set x | x in xs
  }

  // The elements that are not in `busy`, in order.
  function Except(xs: seq<int>, busy: set<int>): (r: seq<int>)
  {
    if xs == [] then [] else
      var rest := Except(xs[..|xs| - 1], busy);
      if xs[|xs| - 1] in busy then rest else rest + [xs[|xs| - 1]]
  }

  lemma {:induction false} AddAllIs(xs: seq<int>, ys: seq<int>)
    ensures Elements(AddAll(xs, ys)) == Elements(xs) + Elements(ys)
    ensures Distinct(xs) ==> Distinct(AddAll(xs, ys))
  {
    if ys != [] {
      var init, y := ys[..|ys| - 1], ys[|ys| - 1];
      AddAllIs(xs, init);
      assert ys == init + [y];
      assert Elements(ys) == Elements(init) + {y};
      var before := AddAll(xs, init);
      assert Elements(Add(before, y)) == Elements(before) + {y};
    }
  }

  lemma {:induction false} DeleteIs(xs: seq<int>, x: int)
    ensures Elements(Delete(xs, x)) == Elements(xs) - {x}
    ensures Distinct(xs) ==> Distinct(Delete(xs, x))
  {
    if xs != [] {
      DeleteIs(xs[1..], x);
      assert Elements(xs) == {xs[0]} + Elements(xs[1..]);
      var rest := Delete(xs[1..], x);
      if xs[0] != x {
        assert Elements([xs[0]] + rest) == {xs[0]} + Elements(rest);
        if Distinct(xs) {
          DistinctAfterFirst(xs);
          assert xs[0] !in Elements(rest);
        }
      }
    }
  }

  lemma DistinctAfterFirst(xs: seq<int>)
    requires xs != [] && Distinct(xs)
    ensures Distinct(xs[1..]) && xs[0] !in Elements(xs[1..])
  {
  }

  lemma {:induction false} DeleteAllIs(xs: seq<int>, ys: seq<int>)
    ensures Elements(DeleteAll(xs, ys)) == Elements(xs) - Elements(ys)
    ensures Distinct(xs) ==> Distinct(DeleteAll(xs, ys))
  {
    if ys != [] {
      var init, y := ys[..|ys| - 1], ys[|ys| - 1];
      DeleteAllIs(xs, init);
      assert ys == init + [y];
      assert Elements(ys) == Elements(init) + {y};
      DeleteIs(DeleteAll(xs, init), y);
    }
  }

  lemma {:induction false} ExceptIs(xs: seq<int>, busy: set<int>)
    ensures Elements(Except(xs, busy)) == Elements(xs) - busy
    ensures Distinct(xs) ==> Distinct(Except(xs, busy))
  {
    if xs != [] {
      var init, x := xs[..|xs| - 1], xs[|xs| - 1];
      ExceptIs(init, busy);
      assert xs == init + [x];
      assert Elements(xs) == Elements(init) + {x};
      var rest := Except(init, busy);
      assert Elements(rest + [x]) == Elements(rest) + {x};
      if Distinct(xs) {
        assert x !in Elements(init);
        assert x !in Elements(rest);
      }
    }
  }

  // One element more of a set, walked in order.
  lemma OneMore(xs: seq<int>, i: nat, busy: set<int>)
    requires i < |xs|
    ensures Except(xs[..i + 1], busy) == Except(xs[..i], busy) + (if xs[i] in busy then [] else [xs[i]])
    ensures Elements(xs[..i + 1]) == Elements(xs[..i]) + {xs[i]}
    ensures Distinct(xs) ==> xs[i] !in Elements(xs[..i])
  {
    assert xs[..i + 1][..i] == xs[..i] && xs[..i + 1][i] == xs[i];
    assert Except(xs[..i], busy) + [] == Except(xs[..i], busy);
  }

  lemma Appended(xs: seq<int>, b: int)
    ensures Elements(xs + [b]) == Elements(xs) + {b}
    ensures Distinct(xs) && b !in Elements(xs) ==> Distinct(xs + [b])
  {
  }

  // The batch is a prefix of all the idle blocks.
  lemma {:induction false} ExceptGrows(xs: seq<int>, n: nat, busy: set<int>)
    requires n <= |xs|
    ensures Except(xs[..n], busy) <= Except(xs, busy)
    decreases |xs|
  {
    if n < |xs| {
      ExceptGrows(xs[..|xs| - 1], n, busy);
      assert xs[..|xs| - 1][..n] == xs[..n];
    } else {
      assert xs[..n] == xs;
    }
  }
}
