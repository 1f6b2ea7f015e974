/**
 The stable sort the queue code relies on: ascending by a preorder, equal
 elements kept in their original order.
 */
module StableSort {

  ghost predicate TotalPreorder<T(!new)>(leq: (T, T) -> bool) {
    && (forall a, b :: leq(a, b) || leq(b, a))
    && (forall a, b, c :: leq(a, b) && leq(b, c) ==> leq(a, c))
  }

  ghost predicate SortedBy<T>(leq: (T, T) -> bool, xs: seq<T>) {
    forall i, j | 0 <= i < j < |xs| :: leq(xs[i], xs[j])
  }

  /** The elements of `xs` ranked the same as `c`, in their order. */
  ghost function RankedLike<T>(leq: (T, T) -> bool, c: T, xs: seq<T>): (r: seq<T>) {
    if xs == [] then []
    else (if leq(c, xs[0]) && leq(xs[0], c) then [xs[0]] else []) + RankedLike(leq, c, xs[1..])
  }

  function Insert<T>(leq: (T, T) -> bool, x: T, xs: seq<T>): (r: seq<T>)
    ensures |r| == |xs| + 1
    ensures multiset(r) == multiset(xs) + multiset{x}
  {
    if xs == [] || leq(x, xs[0]) then [x] + xs
    else
      assert xs == [xs[0]] + xs[1..];
      [xs[0]] + Insert(leq, x, xs[1..])
  }

  /** Insertion sort: a permutation of `xs`. */
  function Sort<T>(leq: (T, T) -> bool, xs: seq<T>): (r: seq<T>)
    ensures multiset(r) == multiset(xs)
    ensures |r| == |xs|
  {
    if xs == [] then []
    else
      assert xs == [xs[0]] + xs[1..];
      Insert(leq, xs[0], Sort(leq, xs[1..]))
  }

  lemma {:induction false} InsertKeepsSorted<T(!new)>(leq: (T, T) -> bool, x: T, xs: seq<T>)
    requires TotalPreorder(leq) && SortedBy(leq, xs)
    ensures SortedBy(leq, Insert(leq, x, xs))
  {
    if xs != [] && !leq(x, xs[0]) {
      InsertKeepsSorted(leq, x, xs[1..]);
      var rest := Insert(leq, x, xs[1..]);
      forall y | y in rest ensures leq(xs[0], y) {
        assert y in multiset(rest);
        assert y in multiset(xs[1..]) + multiset{x};
        if y != x {
          assert y in xs[1..];
        }
      }
    } else if xs != [] {
      forall y | y in xs ensures leq(x, y) {
        assert y == xs[0] || leq(xs[0], y);
      }
    }
  }

  lemma {:induction false} SortIsSorted<T(!new)>(leq: (T, T) -> bool, xs: seq<T>)
    requires TotalPreorder(leq)
    ensures SortedBy(leq, Sort(leq, xs))
  {
    if xs != [] {
      SortIsSorted(leq, xs[1..]);
      InsertKeepsSorted(leq, xs[0], Sort(leq, xs[1..]));
    }
  }

  lemma RankedCons<T(!new)>(leq: (T, T) -> bool, c: T, x: T, xs: seq<T>)
    ensures RankedLike(leq, c, [x] + xs)
         == (if leq(c, x) && leq(x, c) then [x] else []) + RankedLike(leq, c, xs)
  {
    assert ([x] + xs)[1..] == xs;
  }

  lemma {:induction false} InsertIsStable<T(!new)>(leq: (T, T) -> bool, c: T, x: T, xs: seq<T>)
    requires TotalPreorder(leq)
    ensures RankedLike(leq, c, Insert(leq, x, xs)) == RankedLike(leq, c, [x] + xs)
  {
    if xs != [] && !leq(x, xs[0]) {
      InsertIsStable(leq, c, x, xs[1..]);
      RankedCons(leq, c, x, xs);
      RankedCons(leq, c, x, xs[1..]);
      RankedCons(leq, c, xs[0], Insert(leq, x, xs[1..]));
    }
  }

  /** Elements of equal rank keep their original order. */
  lemma {:induction false} SortIsStable<T(!new)>(leq: (T, T) -> bool, c: T, xs: seq<T>)
    requires TotalPreorder(leq)
    ensures RankedLike(leq, c, Sort(leq, xs)) == RankedLike(leq, c, xs)
  {
    if xs != [] {
      SortIsStable(leq, c, xs[1..]);
      var rest := Sort(leq, xs[1..]);
      InsertIsStable(leq, c, xs[0], rest);
      assert ([xs[0]] + rest)[1..] == rest;
    }
  }

  lemma SortMembers<T>(leq: (T, T) -> bool, xs: seq<T>, x: T)
    ensures x in Sort(leq, xs) <==> x in xs
  {
    assert x in multiset(Sort(leq, xs)) <==> x in multiset(xs);
  }

  /** No element occurs at two positions. */
  ghost predicate NoDup<T>(xs: seq<T>) {
    forall i, j | 0 <= i < j < |xs| :: xs[i] != xs[j]
  }

  lemma {:induction false} NoDupByCount<T>(xs: seq<T>)
    ensures NoDup(xs) <==> forall x | x in xs :: multiset(xs)[x] == 1
  {
    if xs != [] {
      var rest := xs[1..];
      NoDupByCount(rest);
      assert xs == [xs[0]] + rest;
      assert multiset(xs) == multiset{xs[0]} + multiset(rest);
      if NoDup(xs) {
        assert NoDup(rest);
        assert xs[0] !in rest;
        assert multiset(rest)[xs[0]] == 0;
      }
      if forall x | x in xs :: multiset(xs)[x] == 1 {
        assert multiset(xs)[xs[0]] == 1;
        assert multiset(rest)[xs[0]] == 0;
        assert xs[0] !in multiset(rest);
        assert xs[0] !in rest;
        forall x | x in rest ensures multiset(rest)[x] == 1 {
          assert x in xs;
        }
        forall i, j | 0 <= i < j < |xs| ensures xs[i] != xs[j] {
          assert xs[j] == rest[j - 1];
          if i > 0 {
            assert xs[i] == rest[i - 1];
          }
        }
      }
    }
  }

  lemma SortKeepsNoDup<T>(leq: (T, T) -> bool, xs: seq<T>)
    requires NoDup(xs)
    ensures NoDup(Sort(leq, xs))
  {
    NoDupByCount(xs);
    NoDupByCount(Sort(leq, xs));
    forall x | x in Sort(leq, xs) ensures multiset(Sort(leq, xs))[x] == 1 {
      SortMembers(leq, xs, x);
    }
  }
}
