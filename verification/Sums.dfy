/** Sums of what a function gives for the elements of a list, over any associative addition. */
module Sums {
  predicate Associates<M(==)>(plus: (M, M) -> M, a: M, b: M, c: M) {
    plus(plus(a, b), c) == plus(a, plus(b, c))
  }

  predicate Neutral<M(==)>(plus: (M, M) -> M, zero: M, a: M) {
    plus(a, zero) == a && plus(zero, a) == a
  }

  ghost predicate Adds<M(!new)>(plus: (M, M) -> M, zero: M) {
    (forall a, b, c :: Associates(plus, a, b, c)) && (forall a :: Neutral(plus, zero, a))
  }

  function Sum<T, M>(plus: (M, M) -> M, zero: M, f: T -> M, items: seq<T>): M {
    if items == [] then zero else var n := |items| - 1; plus(Sum(plus, zero, f, items[..n]), f(items[n]))
  }

  lemma SumOfLast<T, M>(plus: (M, M) -> M, zero: M, f: T -> M, items: seq<T>, first: seq<T>, last: T)
    requires items == first + [last]
    ensures Sum(plus, zero, f, items) == plus(Sum(plus, zero, f, first), f(last))
  {
    assert items[..|items| - 1] == first;
  }

  lemma SumOfOne<T, M(!new)>(plus: (M, M) -> M, zero: M, f: T -> M, item: T)
    requires Adds(plus, zero)
    ensures Sum(plus, zero, f, [item]) == f(item)
  {
    SumOfLast(plus, zero, f, [item], [], item);
    assert Neutral(plus, zero, f(item));
  }

  lemma {:induction false} SumsJoin<T, M(!new)>(plus: (M, M) -> M, zero: M, f: T -> M, a: seq<T>, b: seq<T>)
    requires Adds(plus, zero)
    ensures Sum(plus, zero, f, a + b) == plus(Sum(plus, zero, f, a), Sum(plus, zero, f, b))
  {
    if b == [] {
      assert a + b == a && Neutral(plus, zero, Sum(plus, zero, f, a));
    } else {
      var first, last := b[..|b| - 1], b[|b| - 1];
      SumsJoin(plus, zero, f, a, first);
      assert b == first + [last] && a + b == (a + first) + [last];
      SumOfLast(plus, zero, f, b, first, last);
      SumOfLast(plus, zero, f, a + b, a + first, last);
      assert Associates(plus, Sum(plus, zero, f, a), Sum(plus, zero, f, first), f(last));
    }
  }
}
