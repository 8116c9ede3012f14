/** Sums over tables. A table is a finite map from a primary key to a row, so a sum over it must not depend on
    the order in which its rows are visited. */
module Sums {

  /** SELECT SUM(value) over the whole map. */
  ghost function Sum<K(!new)>(m: map<K, int>): int
    decreases |m|
  {
    if m == map[] then 0 else
      var k :| k in m;
      m[k] + Sum(m - {k})
  }

  lemma SomeKey<K(!new), V(!new)>(m: map<K, V>) returns (k: K)
    requires m != map[]
    ensures k in m
  {
    k :| k in m;
  }

  /** Any row may be taken out first. */
  lemma {:induction false} SumRemove<K(!new)>(m: map<K, int>, k: K)
    requires k in m
    ensures Sum(m) == m[k] + Sum(m - {k})
    decreases |m|
  {
    var c :| c in m && Sum(m) == m[c] + Sum(m - {c});
    if c != k {
      SumRemove(m - {c}, k);
      SumRemove(m - {k}, c);
      assert m - {c} - {k} == m - {k} - {c};
    }
  }

  lemma {:induction false} SumInsert<K(!new)>(m: map<K, int>, k: K, v: int)
    requires k !in m
    ensures Sum(m[k := v]) == Sum(m) + v
  {
    SumRemove(m[k := v], k);
    assert m[k := v] - {k} == m;
  }

  lemma {:induction false} SumUpdate<K(!new)>(m: map<K, int>, k: K, v: int)
    requires k in m
    ensures Sum(m[k := v]) == Sum(m) - m[k] + v
  {
    SumRemove(m[k := v], k);
    SumRemove(m, k);
    assert m[k := v] - {k} == m - {k};
  }

  lemma {:induction false} SumNonNegative<K(!new)>(m: map<K, int>)
    requires forall k :: k in m ==> m[k] >= 0
    ensures Sum(m) >= 0
    ensures forall k :: k in m ==> m[k] <= Sum(m)
    decreases |m|
  {
    if m != map[] {
      forall k | k in m ensures m[k] <= Sum(m) {
        SumRemove(m, k);
        SumNonNegative(m - {k});
      }
      var k :| k in m;
      assert m[k] >= 0;
    }
  }

  /** One more row holding v. */
  function Plus<V(==)>(b: multiset<V>, v: V): multiset<V> {
    b[v := b[v] + 1]
  }

  lemma PlusCommutes<V>(b: multiset<V>, v: V, w: V)
    ensures Plus(Plus(b, v), w) == Plus(Plus(b, w), v)
  {
  }

  /** SELECT value: the bag of values of a map. */
  ghost function Bag<K(!new), V>(m: map<K, V>): multiset<V>
    decreases |m|
  {
    if m == map[] then multiset{} else
      var k :| k in m;
      Plus(Bag(m - {k}), m[k])
  }

  lemma {:induction false} BagRemove<K(!new), V>(m: map<K, V>, k: K)
    requires k in m
    ensures Bag(m) == Plus(Bag(m - {k}), m[k])
    decreases |m|
  {
    var c :| c in m && Bag(m) == Plus(Bag(m - {c}), m[c]);
    if c != k {
      BagRemove(m - {c}, k);
      BagRemove(m - {k}, c);
      assert m - {k} - {c} == m - {c} - {k};
      PlusCommutes(Bag(m - {c} - {k}), m[c], m[k]);
    }
  }

  lemma {:induction false} BagInsert<K(!new), V>(m: map<K, V>, k: K, v: V)
    requires k !in m
    ensures Bag(m[k := v]) == Plus(Bag(m), v)
  {
    BagRemove(m[k := v], k);
    assert m[k := v] - {k} == m;
  }

  /** SELECT SUM(f(value)) over a table without a key. */
  ghost function BagSum<V(!new)>(b: multiset<V>, f: V -> int): int
    decreases |b|
  {
    if b == multiset{} then 0 else
      var v :| v in b;
      f(v) + BagSum(Minus(b, v), f)
  }

  ghost function Minus<V>(b: multiset<V>, v: V): (r: multiset<V>)
    requires v in b
    ensures |r| < |b|
  {
    assert b == b - multiset{v} + multiset{v};
    b - multiset{v}
  }

  lemma BagSumPick<V(!new)>(b: multiset<V>, f: V -> int) returns (c: V)
    requires b != multiset{}
    ensures c in b && BagSum(b, f) == f(c) + BagSum(Minus(b, c), f)
  {
    c :| c in b && BagSum(b, f) == f(c) + BagSum(Minus(b, c), f);
  }

  lemma MinusSwap<V>(b: multiset<V>, v: V, w: V)
    requires v != w && v in b && w in b
    ensures w in Minus(b, v) && v in Minus(b, w)
    ensures Minus(Minus(b, v), w) == Minus(Minus(b, w), v)
  {
  }

  lemma {:induction false} BagSumRemove<V(!new)>(b: multiset<V>, v: V, f: V -> int)
    requires v in b
    ensures BagSum(b, f) == f(v) + BagSum(Minus(b, v), f)
    decreases |b|
  {
    hide BagSum;
    var c := BagSumPick(b, f);
    if c != v {
      MinusSwap(b, c, v);
      BagSumRemove(Minus(b, c), v, f);
      BagSumRemove(Minus(b, v), c, f);
    }
  }

  lemma BagSumPlus<V(!new)>(b: multiset<V>, v: V, f: V -> int)
    ensures BagSum(Plus(b, v), f) == f(v) + BagSum(b, f)
  {
    hide BagSum;
    BagSumRemove(Plus(b, v), v, f);
    assert Minus(Plus(b, v), v) == b;
  }

  ghost function Mapped<K, V>(m: map<K, V>, f: V -> int): map<K, int> {
    map k | k in m :: f(m[k])
  }

  /** Summing a keyed table and summing the bag of its values agree, on top of any rows already there. */
  lemma {:induction false} BagSumBag<K(!new), V(!new)>(b: multiset<V>, m: map<K, V>, f: V -> int)
    ensures BagSum(b + Bag(m), f) == BagSum(b, f) + Sum(Mapped(m, f))
    decreases |m|
  {
    hide BagSum;
    if m == map[] {
      assert b + Bag(m) == b;
      assert Mapped(m, f) == map[];
    } else {
      var k :| k in m;
      BagSumBag(b, m - {k}, f);
      PlusBag(b, m, k);
      BagSumPlus(b + Bag(m - {k}), m[k], f);
      SumRemove(Mapped(m, f), k);
      assert Mapped(m, f) - {k} == Mapped(m - {k}, f);
    }
  }

  lemma PlusBag<K(!new), V>(b: multiset<V>, m: map<K, V>, k: K)
    requires k in m
    ensures b + Bag(m) == Plus(b + Bag(m - {k}), m[k])
  {
    BagRemove(m, k);
  }

  /** Two keyed tables without a common key. */
  lemma {:induction false} SumDisjoint<K(!new)>(m: map<K, int>, n: map<K, int>)
    requires m.Keys !! n.Keys
    ensures Sum(m + n) == Sum(m) + Sum(n)
    decreases |n|
  {
    if n == map[] {
      assert m + n == m;
    } else {
      var k :| k in n;
      SumDisjoint(m, n - {k});
      MergeRemove(m, n, k);
      SumRemove(n, k);
      SumRemove(m + n, k);
    }
  }

  lemma MergeRemove<K>(m: map<K, int>, n: map<K, int>, k: K)
    requires m.Keys !! n.Keys && k in n
    ensures (m + n) - {k} == m + (n - {k})
  {
  }
}
