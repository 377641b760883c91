/** Sums of a natural-valued function over finite sets.
    Money in the system is an integer number of USDC base units, so every conservation law
    below is stated with these sums. */
module Sums {

  ghost function Sum<K(!new)>(keys: set<K>, value: K -> nat): nat
  {
    if keys == {} then 0
    else
      var k :| k in keys;
      value(k) + Sum(keys - {k}, value)
  }

  /** The choice of the element removed first does not matter. */
  lemma {:induction false} SumRemove<K(!new)>(keys: set<K>, value: K -> nat, k: K)
    requires k in keys
    ensures Sum(keys, value) == value(k) + Sum(keys - {k}, value)
    decreases keys
  {
    var first :| first in keys && Sum(keys, value) == value(first) + Sum(keys - {first}, value);
    if first != k {
      SumRemove(keys - {first}, value, k);
      SumRemove(keys - {k}, value, first);
      assert keys - {first} - {k} == keys - {k} - {first};
    }
  }

  lemma SumInsert<K(!new)>(keys: set<K>, value: K -> nat, k: K)
    requires k !in keys
    ensures Sum(keys + {k}, value) == Sum(keys, value) + value(k)
  {
    SumRemove(keys + {k}, value, k);
    assert keys + {k} - {k} == keys;
  }

  lemma {:induction false} SumCongruence<K(!new)>(keys: set<K>, f: K -> nat, g: K -> nat)
    requires forall k :: k in keys ==> f(k) == g(k)
    ensures Sum(keys, f) == Sum(keys, g)
    decreases keys
  {
    if keys != {} {
      var k :| k in keys;
      SumCongruence(keys - {k}, f, g);
      SumRemove(keys, f, k);
      SumRemove(keys, g, k);
    }
  }

  lemma {:induction false} SumSubset<K(!new)>(some: set<K>, all: set<K>, value: K -> nat)
    requires some <= all
    ensures Sum(some, value) <= Sum(all, value)
    decreases some
  {
    if some != {} {
      var k :| k in some;
      SumSubset(some - {k}, all - {k}, value);
      SumRemove(some, value, k);
      SumRemove(all, value, k);
    }
  }

  lemma {:induction false} SumUnion<K(!new)>(a: set<K>, b: set<K>, value: K -> nat)
    requires a !! b
    ensures Sum(a + b, value) == Sum(a, value) + Sum(b, value)
    decreases a
  {
    if a == {} {
      assert a + b == b;
    } else {
      var k :| k in a;
      SumUnion(a - {k}, b, value);
      SumRemove(a, value, k);
      SumRemove(a + b, value, k);
      assert a + b - {k} == (a - {k}) + b;
    }
  }
}
