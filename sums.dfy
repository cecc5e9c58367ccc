// Sums over finite sets of keys: the model's counterpart of the ORM's
// `aggregate(total=Sum(...))` over the rows a filter selects. A row that the
// filter drops contributes 0 to the summand.

module Sums {

  /** The sum of f(k) over the keys in ks (in no particular order). */
  ghost function Sum<K>(ks: set<K>, f: K -> int): int
    decreases ks
  {
    if ks == {} then 0
    else
      var k :| k in ks;
      f(k) + Sum(ks - {k}, f)
  }

  /** Any key may be taken out first: the sum does not depend on the order. */
  lemma {:induction false} SumRemove<K>(ks: set<K>, f: K -> int, k: K)
    requires k in ks
    ensures Sum(ks, f) == f(k) + Sum(ks - {k}, f)
    decreases ks
  {
    var j :| j in ks && Sum(ks, f) == f(j) + Sum(ks - {j}, f);
    if j != k {
      SumRemove(ks - {j}, f, k);
      SumRemove(ks - {k}, f, j);
      assert ks - {j} - {k} == ks - {k} - {j};
    }
  }

  /** Adding a key that is not yet present adds its summand. */
  lemma SumInsert<K>(ks: set<K>, f: K -> int, k: K)
    requires k !in ks
    ensures Sum(ks + {k}, f) == f(k) + Sum(ks, f)
  {
    SumRemove(ks + {k}, f, k);
    assert ks + {k} - {k} == ks;
  }

  /** Two summands that agree on every key give the same sum. */
  lemma {:induction false} SumCongruent<K>(ks: set<K>, f: K -> int, g: K -> int)
    requires forall k :: k in ks ==> f(k) == g(k)
    ensures Sum(ks, f) == Sum(ks, g)
    decreases ks
  {
    if ks != {} {
      var k :| k in ks;
      SumRemove(ks, f, k);
      SumRemove(ks, g, k);
      SumCongruent(ks - {k}, f, g);
    }
  }

  /** Keys whose summand is 0 can be added or dropped freely. */
  lemma {:induction false} SumZeroOutside<K>(ks: set<K>, sub: set<K>, f: K -> int)
    requires sub <= ks
    requires forall k :: k in ks && k !in sub ==> f(k) == 0
    ensures Sum(ks, f) == Sum(sub, f)
    decreases ks
  {
    if ks != sub {
      var k :| k in ks && k !in sub;
      SumRemove(ks, f, k);
      SumZeroOutside(ks - {k}, sub, f);
    }
  }

  /** A sum of non-negative summands is non-negative. */
  lemma {:induction false} SumNonNegative<K>(ks: set<K>, f: K -> int)
    requires forall k :: k in ks ==> f(k) >= 0
    ensures Sum(ks, f) >= 0
    decreases ks
  {
    if ks != {} {
      var k :| k in ks;
      SumRemove(ks, f, k);
      SumNonNegative(ks - {k}, f);
    }
  }

  /** A sum whose summands are all 0 is 0. */
  lemma SumOfZeros<K>(ks: set<K>, f: K -> int)
    requires forall k :: k in ks ==> f(k) == 0
    ensures Sum(ks, f) == 0
  {
    SumZeroOutside(ks, {}, f);
  }

  /** The sum over one key is that key's summand. */
  lemma SumSingleton<K>(k: K, f: K -> int)
    ensures Sum({k}, f) == f(k)
  {
    SumRemove({k}, f, k);
    assert {k} - {k} == {};
  }
}
