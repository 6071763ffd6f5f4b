/** Stable sorting by a `less` predicate, and the uniqueness of its result. */
module Sorting {

  /** `less` is a strict weak order. */
  ghost predicate Ordering<T(!new)>(less: (T, T) -> bool) {
    && (forall a, b :: !(less(a, b) && less(b, a)))
    && (forall a, b, c :: !less(b, a) && !less(c, b) ==> !less(c, a))
  }

  ghost predicate Sorted<T>(less: (T, T) -> bool, xs: seq<T>) {
    forall i, j :: 0 <= i < j < |xs| ==> !less(xs[j], xs[i])
  }

  function Insert<T>(less: (T, T) -> bool, x: T, ys: seq<T>): seq<T> {
    if |ys| == 0 then [x]
    else if less(ys[0], x) then [ys[0]] + Insert(less, x, ys[1..])
    else [x] + ys
  }

  /** Equal elements keep their order: an earlier element is inserted before its equals. */
  function Sort<T>(less: (T, T) -> bool, xs: seq<T>): seq<T> {
    if |xs| == 0 then [] else Insert(less, xs[0], Sort(less, xs[1..]))
  }

  lemma OrderingSteps<T(!new)>(less: (T, T) -> bool, a: T, b: T, c: T)
    requires Ordering(less)
    ensures !(less(a, b) && less(b, a))
    ensures !less(b, a) && !less(c, b) ==> !less(c, a)
  {
  }

  lemma {:induction false} InsertCorrect<T(!new)>(less: (T, T) -> bool, x: T, ys: seq<T>)
    requires Ordering(less) && Sorted(less, ys)
    ensures Sorted(less, Insert(less, x, ys))
    ensures multiset(Insert(less, x, ys)) == multiset(ys) + multiset{x}
  {
    hide Ordering;
    if |ys| > 0 {
      assert ys == [ys[0]] + ys[1..];
      if less(ys[0], x) {
        var rest := Insert(less, x, ys[1..]);
        InsertCorrect(less, x, ys[1..]);
        OrderingSteps(less, ys[0], x, x);
        forall j | 0 <= j < |rest| ensures !less(rest[j], ys[0]) {
          assert rest[j] in multiset(rest);
          if rest[j] != x {
            assert rest[j] in ys[1..];
          }
        }
      } else {
        forall j | 0 <= j < |ys| ensures !less(ys[j], x) {
          if j > 0 { OrderingSteps(less, x, ys[0], ys[j]); }
        }
      }
    }
  }

  lemma {:induction false} SortCorrect<T(!new)>(less: (T, T) -> bool, xs: seq<T>)
    requires Ordering(less)
    ensures Sorted(less, Sort(less, xs))
    ensures multiset(Sort(less, xs)) == multiset(xs)
  {
    hide Ordering, Insert;
    if |xs| > 0 {
      SortCorrect(less, xs[1..]);
      InsertCorrect(less, xs[0], Sort(less, xs[1..]));
      assert xs == [xs[0]] + xs[1..];
    }
  }

  /** Where `less` separates different elements there is only one sorted arrangement, so every
      sorting algorithm, stable or not, and every input order give the same result. */
  lemma {:induction false} SortedUnique<T(!new)>(less: (T, T) -> bool, xs: seq<T>, ys: seq<T>)
    requires Sorted(less, xs) && Sorted(less, ys) && multiset(xs) == multiset(ys)
    requires forall a, b :: a in xs && b in xs && !less(a, b) && !less(b, a) ==> a == b
    ensures xs == ys
  {
    assert |multiset(xs)| == |xs| && |multiset(ys)| == |ys|;
    if |xs| > 0 {
      HeadsAgree(less, xs, ys);
      TailsAgree(xs, ys);
      SortedUnique(less, xs[1..], ys[1..]);
      assert xs == [xs[0]] + xs[1..] && ys == [ys[0]] + ys[1..];
    }
  }

  lemma HeadsAgree<T(!new)>(less: (T, T) -> bool, xs: seq<T>, ys: seq<T>)
    requires |xs| > 0 && |ys| > 0
    requires Sorted(less, xs) && Sorted(less, ys) && multiset(xs) == multiset(ys)
    requires forall a, b :: a in xs && b in xs && !less(a, b) && !less(b, a) ==> a == b
    ensures xs[0] == ys[0]
  {
    assert xs[0] in multiset(ys) && ys[0] in multiset(xs);
    var i :| 0 <= i < |ys| && ys[i] == xs[0];
    var j :| 0 <= j < |xs| && xs[j] == ys[0];
    if i > 0 && j > 0 {
      assert !less(ys[i], ys[0]) && !less(xs[j], xs[0]);
    }
  }

  lemma TailsAgree<T>(xs: seq<T>, ys: seq<T>)
    requires |xs| > 0 && |ys| > 0 && xs[0] == ys[0] && multiset(xs) == multiset(ys)
    ensures multiset(xs[1..]) == multiset(ys[1..])
  {
    assert xs == [xs[0]] + xs[1..] && ys == [ys[0]] + ys[1..];
    assert multiset(xs[1..]) == multiset(xs) - multiset{xs[0]};
    assert multiset(ys[1..]) == multiset(ys) - multiset{ys[0]};
  }

  lemma SortOfPermutation<T(!new)>(less: (T, T) -> bool, xs: seq<T>, ys: seq<T>)
    requires Ordering(less) && multiset(xs) == multiset(ys)
    requires forall a, b :: a in xs && b in xs && !less(a, b) && !less(b, a) ==> a == b
    ensures Sort(less, xs) == Sort(less, ys)
  {
    SortCorrect(less, xs);
    SortCorrect(less, ys);
    forall a | a in Sort(less, xs) ensures a in xs {
      assert a in multiset(Sort(less, xs));
    }
    SortedUnique(less, Sort(less, xs), Sort(less, ys));
  }

  ghost predicate Distinct<T>(xs: seq<T>) {
    forall i, j :: 0 <= i < j < |xs| ==> xs[i] != xs[j]
  }

  lemma {:induction false} DistinctCounts<T>(xs: seq<T>)
    ensures Distinct(xs) <==> forall x :: multiset(xs)[x] <= 1
  {
    if |xs| > 0 {
      var n := |xs| - 1;
      DistinctCounts(xs[..n]);
      assert xs == xs[..n] + [xs[n]];
      if Distinct(xs) {
        assert xs[n] !in xs[..n];
        forall x ensures multiset(xs)[x] <= 1 {
          assert multiset(xs)[x] == multiset(xs[..n])[x] + if x == xs[n] then 1 else 0;
        }
      } else {
        var i, j :| 0 <= i < j < |xs| && xs[i] == xs[j];
        if j < n {
          assert xs[..n][i] == xs[..n][j];
          var x :| multiset(xs[..n])[x] > 1;
          assert multiset(xs)[x] > 1;
        } else {
          assert xs[..n][i] == xs[n];
          assert multiset(xs)[xs[n]] > 1;
        }
      }
    }
  }

  lemma PermutedDistinct<T>(xs: seq<T>, ys: seq<T>)
    requires Distinct(xs) && multiset(xs) == multiset(ys)
    ensures Distinct(ys)
  {
    DistinctCounts(xs);
    DistinctCounts(ys);
  }

  lemma SameMembers<T>(xs: seq<T>, ys: seq<T>)
    requires Distinct(xs) && Distinct(ys) && forall x :: x in xs <==> x in ys
    ensures multiset(xs) == multiset(ys)
  {
    DistinctCounts(xs);
    DistinctCounts(ys);
    forall x ensures multiset(xs)[x] == multiset(ys)[x] {
      assert x in xs <==> x in multiset(xs);
      assert x in ys <==> x in multiset(ys);
    }
  }
}
