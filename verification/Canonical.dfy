/** Sequences up to the order of their elements: multisets of images, and sorting by an
    injective encoding as a canonical form. */
module Canonical {
  function Map<A, B>(f: A -> B, xs: seq<A>): (ys: seq<B>) {
    seq(|xs|, i requires 0 <= i < |xs| => f(xs[i]))
  }

  /** Without the element at `i`. */
  function Without<A>(xs: seq<A>, i: nat): seq<A>
    requires i < |xs|
  {
    xs[..i] + xs[i + 1..]
  }

  lemma WithoutCounts<A>(xs: seq<A>, i: nat)
    requires i < |xs|
    ensures multiset(Without(xs, i)) == multiset(xs) - multiset{xs[i]}
    ensures multiset(xs) == multiset(Without(xs, i)) + multiset{xs[i]}
  {
    assert xs == xs[..i] + [xs[i]] + xs[i + 1..];
    InsertedCounts(xs[..i], xs[i], xs[i + 1..]);
    LessOne(multiset(xs), multiset(Without(xs, i)), xs[i]);
  }

  lemma InsertedCounts<A>(before: seq<A>, x: A, after: seq<A>)
    ensures multiset(before + [x] + after) == multiset(before + after) + multiset{x}
  {}

  lemma LessOne<A>(all: multiset<A>, rest: multiset<A>, x: A)
    requires all == rest + multiset{x}
    ensures rest == all - multiset{x}
  {}

  lemma IndexOf<A>(xs: seq<A>, x: A) returns (i: nat)
    requires x in multiset(xs)
    ensures i < |xs| && xs[i] == x
  {
    i :| i < |xs| && xs[i] == x;
  }

  /** Elementwise, equality in the first pair of sequences entails it in the second. */
  ghost predicate Entails<A, B>(xs: seq<A>, ys: seq<A>, us: seq<B>, vs: seq<B>)
    requires |xs| == |us| && |ys| == |vs|
  {
    forall i, j | 0 <= i < |xs| && 0 <= j < |ys| :: xs[i] == ys[j] ==> us[i] == vs[j]
  }

  lemma EntailsWithout<A, B>(xs: seq<A>, ys: seq<A>, us: seq<B>, vs: seq<B>, i: nat, j: nat)
    requires |xs| == |us| && |ys| == |vs| && i < |xs| && j < |ys|
    requires Entails(xs, ys, us, vs)
    ensures Entails(Without(xs, i), Without(ys, j), Without(us, i), Without(vs, j))
  {
  }

  /** Then equality as multisets carries over too. */
  lemma {:induction false} EntailsMultiset<A, B>(xs: seq<A>, ys: seq<A>, us: seq<B>, vs: seq<B>)
    requires |xs| == |us| && |ys| == |vs|
    requires Entails(xs, ys, us, vs) && multiset(xs) == multiset(ys)
    ensures multiset(us) == multiset(vs)
    decreases |xs|
  {
    assert |xs| == |multiset(xs)| == |multiset(ys)| == |ys|;
    if xs != [] {
      assert xs[0] in multiset(ys);
      var i := IndexOf(ys, xs[0]);
      assert us[0] == vs[i];
      EntailsWithout(xs, ys, us, vs, 0, i);
      WithoutCounts(xs, 0);
      WithoutCounts(ys, i);
      EntailsMultiset(Without(xs, 0), Without(ys, i), Without(us, 0), Without(vs, i));
      WithoutCounts(us, 0);
      WithoutCounts(vs, i);
    }
  }

  /** A permutation of the inputs permutes the images. */
  lemma MapKeepsMultiset<A, B>(f: A -> B, xs: seq<A>, ys: seq<A>)
    requires multiset(xs) == multiset(ys)
    ensures multiset(Map(f, xs)) == multiset(Map(f, ys))
  {
    EntailsMultiset(xs, ys, Map(f, xs), Map(f, ys));
  }

  ghost predicate SeparatedBy<A, B>(f: A -> B, xs: seq<A>, ys: seq<A>) {
    forall i, j | 0 <= i < |xs| && 0 <= j < |ys| :: f(xs[i]) == f(ys[j]) ==> xs[i] == ys[j]
  }

  // ---------- Sorting by an encoding ----------

  ghost predicate Sorted<A>(xs: seq<A>, key: A -> int) {
    forall i, j :: 0 <= i < j < |xs| ==> key(xs[i]) <= key(xs[j])
  }

  ghost predicate Below<A>(xs: seq<A>, key: A -> int, bound: int) {
    forall i :: 0 <= i < |xs| ==> key(xs[i]) <= bound
  }

  function Insert<A>(x: A, xs: seq<A>, key: A -> int): seq<A> {
    if xs == [] || key(xs[|xs| - 1]) <= key(x) then xs + [x]
    else Insert(x, xs[..|xs| - 1], key) + [xs[|xs| - 1]]
  }

  /** A stable sort. */
  function SortBy<A>(xs: seq<A>, key: A -> int): seq<A> {
    if xs == [] then [] else Insert(xs[|xs| - 1], SortBy(xs[..|xs| - 1], key), key)
  }

  lemma {:induction false} InsertBelow<A>(x: A, xs: seq<A>, key: A -> int, bound: int)
    requires Below(xs, key, bound) && key(x) <= bound
    ensures Below(Insert(x, xs, key), key, bound)
  {
    if xs != [] && key(xs[|xs| - 1]) > key(x) {
      InsertBelow(x, xs[..|xs| - 1], key, bound);
    }
  }

  lemma {:induction false} InsertSorts<A>(x: A, xs: seq<A>, key: A -> int)
    requires Sorted(xs, key)
    ensures Sorted(Insert(x, xs, key), key)
  {
    if xs != [] && key(xs[|xs| - 1]) > key(x) {
      var n := |xs| - 1;
      InsertSorts(x, xs[..n], key);
      InsertBelow(x, xs[..n], key, key(xs[n]));
    }
  }

  lemma {:induction false} InsertAdds<A>(x: A, xs: seq<A>, key: A -> int)
    ensures multiset(Insert(x, xs, key)) == multiset(xs) + multiset{x}
  {
    if xs != [] && key(xs[|xs| - 1]) > key(x) {
      var n := |xs| - 1;
      assert xs == xs[..n] + [xs[n]];
      InsertAdds(x, xs[..n], key);
    }
  }

  lemma {:induction false} SortBySorts<A>(xs: seq<A>, key: A -> int)
    ensures Sorted(SortBy(xs, key), key)
    ensures multiset(SortBy(xs, key)) == multiset(xs)
  {
    if xs != [] {
      var n := |xs| - 1;
      assert xs == xs[..n] + [xs[n]];
      SortBySorts(xs[..n], key);
      InsertSorts(xs[n], SortBy(xs[..n], key), key);
      InsertAdds(xs[n], SortBy(xs[..n], key), key);
    }
  }

  lemma LastIsGreatest<A>(xs: seq<A>, x: A, key: A -> int)
    requires Sorted(xs, key) && x in multiset(xs)
    ensures xs != [] && key(x) <= key(xs[|xs| - 1])
  {
    var i := IndexOf(xs, x);
  }

  lemma SplitLast<A>(xs: seq<A>)
    requires xs != []
    ensures multiset(xs[..|xs| - 1]) == multiset(xs) - multiset{xs[|xs| - 1]}
    ensures xs == xs[..|xs| - 1] + [xs[|xs| - 1]]
  {
    assert xs == xs[..|xs| - 1] + [xs[|xs| - 1]];
  }

  lemma PrefixesAgree<A>(xs: seq<A>, ys: seq<A>, key: A -> int)
    requires xs != [] && ys != []
    ensures Sorted(xs, key) ==> Sorted(xs[..|xs| - 1], key)
    ensures SeparatedBy(key, xs, ys) ==> SeparatedBy(key, xs[..|xs| - 1], ys[..|ys| - 1])
  {
  }

  /** Two sorted permutations of each other end alike. */
  lemma LastsAgree<A>(xs: seq<A>, ys: seq<A>, key: A -> int)
    requires Sorted(xs, key) && Sorted(ys, key) && multiset(xs) == multiset(ys)
    requires SeparatedBy(key, xs, ys) && xs != [] && ys != []
    ensures xs[|xs| - 1] == ys[|ys| - 1]
  {
    var x, y := xs[|xs| - 1], ys[|ys| - 1];
    assert x in multiset(xs) && y in multiset(ys);
    LastIsGreatest(ys, x, key);
    LastIsGreatest(xs, y, key);
  }

  lemma {:induction false} SortedIsUnique<A>(xs: seq<A>, ys: seq<A>, key: A -> int)
    requires Sorted(xs, key) && Sorted(ys, key) && multiset(xs) == multiset(ys)
    requires SeparatedBy(key, xs, ys)
    ensures xs == ys
    decreases |xs|
  {
    assert |xs| == |multiset(xs)| == |multiset(ys)| == |ys|;
    if xs != [] {
      LastsAgree(xs, ys, key);
      SplitLast(xs);
      SplitLast(ys);
      PrefixesAgree(xs, ys, key);
      PrefixesAgree(ys, xs, key);
      SortedIsUnique(xs[..|xs| - 1], ys[..|ys| - 1], key);
    }
  }

  lemma SortKeepsElements<A>(xs: seq<A>, key: A -> int, i: nat) returns (j: nat)
    requires i < |SortBy(xs, key)|
    ensures j < |xs| && xs[j] == SortBy(xs, key)[i]
  {
    SortBySorts(xs, key);
    assert SortBy(xs, key)[i] in multiset(SortBy(xs, key));
    j := IndexOf(xs, SortBy(xs, key)[i]);
  }

  lemma SeparatedSorted<A>(xs: seq<A>, ys: seq<A>, key: A -> int)
    requires SeparatedBy(key, xs, ys)
    ensures SeparatedBy(key, SortBy(xs, key), SortBy(ys, key))
  {
    var s, t := SortBy(xs, key), SortBy(ys, key);
    forall i, j | 0 <= i < |s| && 0 <= j < |t| && key(s[i]) == key(t[j]) ensures s[i] == t[j] {
      var a := SortKeepsElements(xs, key, i);
      var b := SortKeepsElements(ys, key, j);
    }
  }

  /** Sorting by an injective encoding forgets the order of a sequence and nothing else. */
  lemma SortingIsCanonical<A>(xs: seq<A>, ys: seq<A>, key: A -> int)
    requires SeparatedBy(key, xs, ys)
    ensures SortBy(xs, key) == SortBy(ys, key) <==> multiset(xs) == multiset(ys)
  {
    SortBySorts(xs, key);
    SortBySorts(ys, key);
    if multiset(xs) == multiset(ys) {
      SeparatedSorted(xs, ys, key);
      SortedIsUnique(SortBy(xs, key), SortBy(ys, key), key);
    }
  }

  /** The same with a second view of the elements: if both views tell them apart alike, the
      sorted first views agree exactly when the second views agree as multisets. */
  lemma SortedAlike<A, B>(xs: seq<A>, ys: seq<A>, us: seq<B>, vs: seq<B>, key: A -> int)
    requires |xs| == |us| && |ys| == |vs|
    requires Entails(xs, ys, us, vs) && Entails(us, vs, xs, ys) && SeparatedBy(key, xs, ys)
    ensures SortBy(xs, key) == SortBy(ys, key) <==> multiset(us) == multiset(vs)
  {
    SortingIsCanonical(xs, ys, key);
    if multiset(xs) == multiset(ys) {
      EntailsMultiset(xs, ys, us, vs);
    }
    if multiset(us) == multiset(vs) {
      EntailsMultiset(us, vs, xs, ys);
    }
  }
}
