/** Sums of a table of decimal amounts, and how a sum moves when one entry of the table changes. */
module MapSums {

  ghost function Sum<K(!new)>(m: map<K, real>): real
  {
    if m == map[] then 0.0 else
      var k :| k in m;
      m[k] + Sum(m - {k})
  }

  // Whichever key the definition picks, any key may be taken out first.
  lemma {:induction false} SumRemove<K(!new)>(m: map<K, real>, k: K)
    requires k in m
    ensures Sum(m) == m[k] + Sum(m - {k})
    decreases |m|
  {
    var j :| j in m && Sum(m) == m[j] + Sum(m - {j});
    if j != k {
      SumRemove(m - {j}, k);
      SumRemove(m - {k}, j);
      assert m - {j} - {k} == m - {k} - {j};
    }
  }

  lemma {:induction false} SumUpdate<K(!new)>(m: map<K, real>, k: K, v: real)
    ensures Sum(m[k := v]) == Sum(m) + v - (if k in m then m[k] else 0.0)
  {
    SumRemove(m[k := v], k);
    if k in m {
      SumRemove(m, k);
      assert m[k := v] - {k} == m - {k};
    } else {
      assert m[k := v] - {k} == m;
    }
  }

  // n times an amount, by repeated addition.
  ghost function Times(n: nat, amount: real): real
  {
    if n == 0 then 0.0 else Times(n - 1, amount) + amount
  }

  lemma {:induction false} TimesIs(n: nat, amount: nat)
    ensures Times(n, amount as real) == (n * amount) as real
  {
    if n > 0 {
      TimesIs(n - 1, amount);
      assert n * amount == (n - 1) * amount + amount;
    }
  }

  lemma {:induction false} TimesMonotone(n: nat, m: nat, amount: real)
    requires n <= m && amount >= 0.0
    ensures 0.0 <= Times(n, amount) <= Times(m, amount)
    decreases m
  {
    if m > 0 {
      TimesMonotone(if n < m then n else m - 1, m - 1, amount);
    }
  }

  // A table whose entries are 0 or less except on keys in `heavy`, where they are at most `bound`.
  lemma {:induction false} SumAtMost<K(!new)>(m: map<K, real>, heavy: set<K>, bound: real)
    requires bound >= 0.0
    requires forall k :: k in m ==> m[k] <= (if k in heavy then bound else 0.0)
    ensures Sum(m) <= Times(|heavy|, bound)
    decreases |m|
  {
    if m == map[] {
      TimesMonotone(0, |heavy|, bound);
    } else {
      var k :| k in m;
      SumRemove(m, k);
      var rest := heavy - {k};
      SumAtMost(m - {k}, rest, bound);
      if k in heavy {
        assert heavy == rest + {k};
      } else {
        assert rest == heavy;
      }
    }
  }

  lemma {:induction false} SumAtLeast<K(!new)>(m: map<K, real>)
    requires forall k :: k in m ==> m[k] >= 0.0
    ensures Sum(m) >= 0.0
    decreases |m|
  {
    if m != map[] {
      var k :| k in m;
      SumRemove(m, k);
      SumAtLeast(m - {k});
    }
  }
}
