// Sums over finite sets.
module Sums {

  ghost function SumOver<K>(keys: set<K>, f: K -> int): int {
    if keys == {} then 0
    else
      var x :| x in keys;
      f(x) + SumOver(keys - {x}, f)
  }

  // The sum does not depend on which element is taken out first.
  lemma {:induction false} TakeOut<K>(keys: set<K>, f: K -> int, k: K)
    requires k in keys
    ensures SumOver(keys, f) == f(k) + SumOver(keys - {k}, f)
  {
    var x :| x in keys && SumOver(keys, f) == f(x) + SumOver(keys - {x}, f);
    if x != k {
      TakeOut(keys - {x}, f, k);
      TakeOut(keys - {k}, f, x);
      assert keys - {x} - {k} == keys - {k} - {x};
    }
  }

  lemma {:induction false} SameSum<K>(keys: set<K>, f: K -> int, g: K -> int)
    requires forall k :: k in keys ==> f(k) == g(k)
    ensures SumOver(keys, f) == SumOver(keys, g)
  {
    if keys == {} {
    } else {
      var x :| x in keys;
      TakeOut(keys, f, x);
      TakeOut(keys, g, x);
      SameSum(keys - {x}, f, g);
    }
  }

  // Changing the summand at one place, which may be new.
  lemma {:induction false} ChangeOne<K>(before: set<K>, f: K -> int, after: set<K>, g: K -> int, k: K)
    requires after == before + {k} && forall x :: x in before && x != k ==> f(x) == g(x)
    ensures SumOver(after, g) == SumOver(before, f) + g(k) - if k in before then f(k) else 0
  {
    TakeOut(after, g, k);
    assert after - {k} == before - {k};
    SameSum(before - {k}, f, g);
    if k in before { TakeOut(before, f, k); } else { assert before - {k} == before; }
  }

  lemma {:induction false} EachIsAtMostTheSum<K>(keys: set<K>, f: K -> int, k: K)
    requires k in keys && forall x :: x in keys ==> f(x) >= 0
    ensures f(k) <= SumOver(keys, f)
  {
    TakeOut(keys, f, k);
    SumIsNotNegative(keys - {k}, f);
  }

  lemma {:induction false} SumIsNotNegative<K>(keys: set<K>, f: K -> int)
    requires forall x :: x in keys ==> f(x) >= 0
    ensures SumOver(keys, f) >= 0
  {
    if keys == {} {
    } else {
      var x :| x in keys;
      TakeOut(keys, f, x);
      SumIsNotNegative(keys - {x}, f);
    }
  }
}
