/**
 Finite sequences: filtering, totals, stable sorting (what `Array.prototype.sort` does) and
 grouping by a key in order of first occurrence (what a JavaScript `Map` does).
 */
module Sequences {
  import opened Options

  function Last<T>(xs: seq<T>): T
    requires xs != []
  {
    xs[|xs| - 1]
  }

  function Front<T>(xs: seq<T>): seq<T>
    requires xs != []
  {
    xs[..|xs| - 1]
  }

  lemma FrontLast<T>(xs: seq<T>, x: T)
    ensures Front(xs + [x]) == xs && Last(xs + [x]) == x
  {
  }

  // ---------- Totals ----------

  function Total<T>(xs: seq<T>, f: T -> int): int {
    if xs == [] then 0 else Total(Front(xs), f) + f(Last(xs))
  }

  lemma {:induction false} TotalUpdate<T>(xs: seq<T>, i: nat, x: T, f: T -> int)
    requires i < |xs|
    ensures Total(xs[i := x], f) == Total(xs, f) - f(xs[i]) + f(x)
  {
    if i == |xs| - 1 {
      assert Front(xs[i := x]) == Front(xs);
    } else {
      assert Front(xs[i := x]) == Front(xs)[i := x];
      TotalUpdate(Front(xs), i, x, f);
    }
  }

  lemma {:induction false} TotalNonNegative<T>(xs: seq<T>, f: T -> int)
    requires forall k :: 0 <= k < |xs| ==> f(xs[k]) >= 0
    ensures Total(xs, f) >= 0
    ensures forall k :: 0 <= k < |xs| ==> f(xs[k]) <= Total(xs, f)
  {
    if xs != [] {
      TotalNonNegative(Front(xs), f);
      forall k | 0 <= k < |xs|
        ensures f(xs[k]) <= Total(xs, f)
      {
        if k < |xs| - 1 {
          assert xs[k] == Front(xs)[k];
        }
      }
    }
  }

  lemma {:induction false} TotalConcat<T>(xs: seq<T>, ys: seq<T>, f: T -> int)
    ensures Total(xs + ys, f) == Total(xs, f) + Total(ys, f)
  {
    if ys == [] {
      assert xs + ys == xs;
    } else {
      assert xs + ys == (xs + Front(ys)) + [Last(ys)];
      FrontLast(xs + Front(ys), Last(ys));
      TotalConcat(xs, Front(ys), f);
    }
  }

  function Sum<T>(xs: seq<T>, f: T -> real): real {
    if xs == [] then 0.0 else Sum(Front(xs), f) + f(Last(xs))
  }

  lemma {:induction false} SumUpdate<T>(xs: seq<T>, i: nat, x: T, f: T -> real)
    requires i < |xs|
    ensures Sum(xs[i := x], f) == Sum(xs, f) - f(xs[i]) + f(x)
  {
    if i == |xs| - 1 {
      assert Front(xs[i := x]) == Front(xs);
    } else {
      assert Front(xs[i := x]) == Front(xs)[i := x];
      SumUpdate(Front(xs), i, x, f);
    }
  }

  lemma SumSnoc<T>(xs: seq<T>, x: T, f: T -> real)
    ensures Sum(xs + [x], f) == Sum(xs, f) + f(x)
  {
    FrontLast(xs, x);
  }

  lemma {:induction false} SumConcat<T>(xs: seq<T>, ys: seq<T>, f: T -> real)
    ensures Sum(xs + ys, f) == Sum(xs, f) + Sum(ys, f)
  {
    if ys == [] {
      assert xs + ys == xs;
    } else {
      assert xs + ys == (xs + Front(ys)) + [Last(ys)];
      SumSnoc(xs + Front(ys), Last(ys), f);
      SumConcat(xs, Front(ys), f);
    }
  }

  /** `xs` without its element at `i`. */
  function Without<T>(xs: seq<T>, i: nat): seq<T>
    requires i < |xs|
  {
    xs[..i] + xs[i + 1..]
  }

  lemma WithoutMultiset<T>(xs: seq<T>, i: nat)
    requires i < |xs|
    ensures multiset(xs) == multiset(Without(xs, i)) + multiset{xs[i]}
  {
    assert xs == xs[..i] + [xs[i]] + xs[i + 1..];
  }

  /** A total does not depend on the order of the terms. */
  lemma {:induction false} SumPermute<T>(xs: seq<T>, ys: seq<T>, f: T -> real)
    requires multiset(xs) == multiset(ys)
    ensures Sum(xs, f) == Sum(ys, f)
    decreases xs
  {
    if xs == [] {
      assert |multiset(ys)| == 0;
    } else {
      var i := Locate(xs, ys);
      SumPermute(Front(xs), Without(ys, i), f);
      assert ys == (ys[..i] + [ys[i]]) + ys[i + 1..];
      SumConcat(ys[..i] + [ys[i]], ys[i + 1..], f);
      SumSnoc(ys[..i], ys[i], f);
      SumConcat(ys[..i], ys[i + 1..], f);
    }
  }

  /** Where a permutation of `xs` keeps the last element of `xs`. */
  lemma Locate<T>(xs: seq<T>, ys: seq<T>) returns (i: nat)
    requires xs != [] && multiset(xs) == multiset(ys)
    ensures i < |ys| && ys[i] == Last(xs) && multiset(Front(xs)) == multiset(Without(ys, i))
  {
    assert Last(xs) in multiset(ys);
    i :| i < |ys| && ys[i] == Last(xs);
    WithoutMultiset(ys, i);
    assert xs == Front(xs) + [Last(xs)];
    assert multiset(xs) == multiset(Front(xs)) + multiset{Last(xs)};
    assert multiset(Without(ys, i)) == multiset(ys) - multiset{ys[i]};
    assert multiset(Front(xs)) == multiset(xs) - multiset{Last(xs)};
  }

  // ---------- Filtering ----------

  function Filter<T>(xs: seq<T>, p: T -> bool): seq<T> {
    if xs == [] then []
    else Filter(Front(xs), p) + (if p(Last(xs)) then [Last(xs)] else [])
  }

  /** Where the first element with the property stands. */
  function FindFirst<T>(xs: seq<T>, p: T -> bool): (r: Option<nat>)
    ensures r.Some? ==> r.value < |xs| && p(xs[r.value]) && forall i :: 0 <= i < r.value ==> !p(xs[i])
    ensures r.None? ==> forall i :: 0 <= i < |xs| ==> !p(xs[i])
  {
    if xs == [] then None
    else
      var prior := FindFirst(Front(xs), p);
      if prior.Some? then prior else if p(Last(xs)) then Some(|xs| - 1) else None
  }

  lemma FilterSnoc<T>(xs: seq<T>, x: T, p: T -> bool)
    ensures Filter(xs + [x], p) == Filter(xs, p) + (if p(x) then [x] else [])
  {
    FrontLast(xs, x);
  }

  lemma {:induction false} FilterMembers<T>(xs: seq<T>, p: T -> bool)
    ensures |Filter(xs, p)| <= |xs|
    ensures forall x :: x in Filter(xs, p) <==> x in xs && p(x)
  {
    if xs != [] {
      FilterMembers(Front(xs), p);
      assert xs == Front(xs) + [Last(xs)];
    }
  }

  lemma FilterKeeps<T>(xs: seq<T>, p: T -> bool, x: T)
    ensures x in Filter(xs, p) <==> x in xs && p(x)
  {
    FilterMembers(xs, p);
  }

  lemma {:induction false} FilterAll<T>(xs: seq<T>, p: T -> bool)
    requires forall x :: x in xs ==> p(x)
    ensures Filter(xs, p) == xs
  {
    if xs != [] {
      FilterAll(Front(xs), p);
      assert xs == Front(xs) + [Last(xs)];
    }
  }

  lemma {:induction false} FilterTwice<T>(xs: seq<T>, p: T -> bool, q: T -> bool, both: T -> bool)
    requires forall x :: x in xs ==> (both(x) <==> p(x) && q(x))
    ensures Filter(Filter(xs, p), q) == Filter(xs, both)
  {
    if xs != [] {
      assert Last(xs) in xs && forall x :: x in Front(xs) ==> x in xs;
      FilterTwice(Front(xs), p, q, both);
      FilterSnoc(Filter(Front(xs), p), Last(xs), q);
      assert Filter(Front(xs), p) + [] == Filter(Front(xs), p);
    }
  }

  /** Leaving elements out, or letting their terms be zero, gives the same total. */
  lemma {:induction false} TotalFilter<T>(xs: seq<T>, p: T -> bool, f: T -> int, ys: seq<T>, g: T -> int)
    requires |ys| == |xs| && forall i :: 0 <= i < |xs| ==> g(ys[i]) == if p(xs[i]) then f(xs[i]) else 0
    ensures Total(Filter(xs, p), f) == Total(ys, g)
  {
    if xs != [] {
      assert Last(xs) == xs[|xs| - 1] && Last(ys) == ys[|xs| - 1];
      TotalFilter(Front(xs), p, f, Front(ys), g);
      FrontLast(Filter(Front(xs), p), Last(xs));
      assert Filter(Front(xs), p) + [] == Filter(Front(xs), p);
    }
  }

  /** Splitting by a property and its negation loses and repeats nothing. */
  lemma {:induction false} Partition<T>(xs: seq<T>, p: T -> bool, q: T -> bool)
    requires forall x :: x in xs ==> p(x) != q(x)
    ensures multiset(Filter(xs, p)) + multiset(Filter(xs, q)) == multiset(xs)
  {
    if xs != [] {
      var front, x := Front(xs), Last(xs);
      assert xs == front + [x];
      assert x in xs && forall y :: y in front ==> y in xs;
      Partition(front, p, q);
      FilterSnoc(front, x, p);
      FilterSnoc(front, x, q);
      hide Filter;
      SnocMultiset(front, x);
      SnocMultiset(Filter(front, p), x);
      SnocMultiset(Filter(front, q), x);
      assert Filter(front, p) + [] == Filter(front, p) && Filter(front, q) + [] == Filter(front, q);
    }
  }

  lemma {:induction false} FilterCounts<T>(xs: seq<T>, p: T -> bool, x: T)
    ensures multiset(Filter(xs, p))[x] == if p(x) then multiset(xs)[x] else 0
  {
    if xs != [] {
      var front, last := Front(xs), Last(xs);
      FilterCounts(front, p, x);
      assert xs == front + [last];
      FilterSnoc(front, last, p);
      hide Filter;
      SnocMultiset(front, last);
      SnocMultiset(Filter(front, p), last);
      assert Filter(front, p) + [] == Filter(front, p);
    }
  }

  /** An element at two places is counted twice. */
  lemma CountTwo<T>(xs: seq<T>, i: nat, j: nat)
    requires i < j < |xs| && xs[i] == xs[j]
    ensures multiset(xs)[xs[i]] >= 2
  {
    assert xs == xs[..j] + xs[j..];
    assert xs[..j][i] in multiset(xs[..j]) && xs[j..][0] in multiset(xs[j..]);
  }

  lemma UpdateMultiset<T>(xs: seq<T>, i: nat, x: T)
    requires i < |xs|
    ensures multiset(xs[i := x]) == multiset(xs) - multiset{xs[i]} + multiset{x}
  {
    WithoutMultiset(xs, i);
    WithoutMultiset(xs[i := x], i);
    assert Without(xs[i := x], i) == Without(xs, i);
  }

  lemma SnocMultiset<T>(xs: seq<T>, x: T)
    ensures multiset(xs + [x]) == multiset(xs) + multiset{x}
  {
  }

  lemma SnocCancel<T>(xs: seq<T>, ys: seq<T>, x: T)
    requires multiset(xs + [x]) == multiset(ys + [x])
    ensures multiset(xs) == multiset(ys)
  {
    SnocMultiset(xs, x);
    SnocMultiset(ys, x);
    assert multiset(xs) == multiset(xs + [x]) - multiset{x};
    assert multiset(ys) == multiset(ys + [x]) - multiset{x};
  }

  // ---------- Stable sorting ----------

  ghost predicate TotalPreorder<T(!new)>(le: (T, T) -> bool) {
    && (forall x, y :: le(x, y) || le(y, x))
    && (forall x, y, z :: le(x, y) && le(y, z) ==> le(x, z))
  }

  ghost predicate Sorted<T>(xs: seq<T>, le: (T, T) -> bool) {
    forall i, j :: 0 <= i < j < |xs| ==> le(xs[i], xs[j])
  }

  /** Puts `x` behind the last element that is not after it. */
  function Insert<T>(xs: seq<T>, x: T, le: (T, T) -> bool): seq<T> {
    if xs == [] || le(Last(xs), x) then xs + [x]
    else Insert(Front(xs), x, le) + [Last(xs)]
  }

  function StableSort<T>(xs: seq<T>, le: (T, T) -> bool): seq<T> {
    if xs == [] then [] else Insert(StableSort(Front(xs), le), Last(xs), le)
  }

  lemma {:induction false} InsertMembers<T>(xs: seq<T>, x: T, le: (T, T) -> bool)
    ensures multiset(Insert(xs, x, le)) == multiset(xs) + multiset{x}
    ensures |Insert(xs, x, le)| == |xs| + 1
    ensures forall y :: y in Insert(xs, x, le) <==> y in xs || y == x
  {
    if xs != [] && !le(Last(xs), x) {
      InsertMembers(Front(xs), x, le);
      assert xs == Front(xs) + [Last(xs)];
      SnocMultiset(Front(xs), Last(xs));
      SnocMultiset(Insert(Front(xs), x, le), Last(xs));
    } else {
      SnocMultiset(xs, x);
    }
  }

  lemma {:induction false} InsertSorted<T(!new)>(xs: seq<T>, x: T, le: (T, T) -> bool)
    requires TotalPreorder(le) && Sorted(xs, le)
    ensures Sorted(Insert(xs, x, le), le)
  {
    if xs != [] && !le(Last(xs), x) {
      var front, ys := Front(xs), Insert(Front(xs), x, le);
      InsertSorted(front, x, le);
      InsertMembers(front, x, le);
      forall i | 0 <= i < |ys|
        ensures le(ys[i], Last(xs))
      {
        assert ys[i] in ys;
        if ys[i] in front {
          var k :| 0 <= k < |front| && front[k] == ys[i];
          assert xs[k] == ys[i];
        }
      }
    } else if xs != [] {
      forall i | 0 <= i < |xs|
        ensures le(xs[i], x)
      {
        assert i == |xs| - 1 || le(xs[i], Last(xs));
      }
    }
  }

  /** Sorting rearranges, and orders. */
  lemma {:induction false} SortPermutes<T>(xs: seq<T>, le: (T, T) -> bool)
    ensures multiset(StableSort(xs, le)) == multiset(xs)
    ensures |StableSort(xs, le)| == |xs|
    ensures forall x :: x in StableSort(xs, le) <==> x in xs
  {
    if xs != [] {
      SortPermutes(Front(xs), le);
      InsertMembers(StableSort(Front(xs), le), Last(xs), le);
      assert xs == Front(xs) + [Last(xs)];
      SnocMultiset(Front(xs), Last(xs));
    }
  }

  lemma {:induction false} SortSorts<T(!new)>(xs: seq<T>, le: (T, T) -> bool)
    requires TotalPreorder(le)
    ensures Sorted(StableSort(xs, le), le)
  {
    if xs != [] {
      SortSorts(Front(xs), le);
      InsertSorted(StableSort(Front(xs), le), Last(xs), le);
    }
  }

  lemma {:induction false} SortedIsFixed<T>(xs: seq<T>, le: (T, T) -> bool)
    requires Sorted(xs, le)
    ensures StableSort(xs, le) == xs
  {
    if xs != [] {
      SortedIsFixed(Front(xs), le);
      assert xs == Front(xs) + [Last(xs)];
      if |xs| > 1 {
        assert le(xs[|xs| - 2], xs[|xs| - 1]);
      }
    }
  }

  /** Sorting a sorted sequence with one more element at its end is inserting that element. */
  lemma SortSnoc<T>(xs: seq<T>, x: T, le: (T, T) -> bool)
    requires Sorted(xs, le)
    ensures StableSort(xs + [x], le) == Insert(xs, x, le)
  {
    FrontLast(xs, x);
    SortedIsFixed(xs, le);
  }

  /** Filtering commutes with inserting into a sorted sequence. */
  lemma {:induction false} FilterInsert<T(!new)>(xs: seq<T>, x: T, le: (T, T) -> bool, p: T -> bool)
    requires TotalPreorder(le) && Sorted(xs, le)
    ensures Filter(Insert(xs, x, le), p) == if p(x) then Insert(Filter(xs, p), x, le) else Filter(xs, p)
  {
    if xs == [] || le(Last(xs), x) {
      FilterSnoc(xs, x, p);
      LastKeptNotAfter(xs, x, le, p);
    } else {
      var front, last := Front(xs), Last(xs);
      FilterInsert(front, x, le, p);
      FilterSnoc(Insert(front, x, le), last, p);
      hide TotalPreorder, Sorted;
      assert Filter(front, p) + [] == Filter(front, p);
      if p(last) {
        FrontLast(Filter(front, p), last);
      }
    }
  }

  /** If nothing in a sorted list is after `x`, nothing that is kept of it is. */
  lemma LastKeptNotAfter<T(!new)>(xs: seq<T>, x: T, le: (T, T) -> bool, p: T -> bool)
    requires TotalPreorder(le) && Sorted(xs, le) && (xs != [] ==> le(Last(xs), x))
    ensures Filter(xs, p) != [] ==> le(Last(Filter(xs, p)), x)
  {
    FilterMembers(xs, p);
    hide Filter;
    if Filter(xs, p) != [] {
      var y := Last(Filter(xs, p));
      assert y in Filter(xs, p);
      var k :| 0 <= k < |xs| && xs[k] == y;
      assert k == |xs| - 1 || le(xs[k], Last(xs));
    }
  }

  /** Elements that tie with each other keep their order. */
  lemma {:induction false} SortIsStable<T(!new)>(xs: seq<T>, le: (T, T) -> bool, p: T -> bool)
    requires TotalPreorder(le) && forall x, y :: p(x) && p(y) ==> le(x, y)
    ensures Filter(StableSort(xs, le), p) == Filter(xs, p)
  {
    if xs != [] {
      var sorted, x := StableSort(Front(xs), le), Last(xs);
      SortIsStable(Front(xs), le, p);
      SortSorts(Front(xs), le);
      FilterInsert(sorted, x, le, p);
      FilterMembers(sorted, p);
      if p(x) && Filter(sorted, p) != [] {
        assert Last(Filter(sorted, p)) in Filter(sorted, p);
      }
    }
  }

  lemma {:induction false} FilterSorted<T>(xs: seq<T>, le: (T, T) -> bool, p: T -> bool)
    requires Sorted(xs, le)
    ensures Sorted(Filter(xs, p), le)
  {
    if xs != [] {
      FilterSorted(Front(xs), le, p);
      FilterMembers(Front(xs), p);
      forall i | 0 <= i < |Filter(Front(xs), p)|
        ensures le(Filter(Front(xs), p)[i], Last(xs))
      {
        var y := Filter(Front(xs), p)[i];
        FilterKeeps(Front(xs), p, y);
        var k :| 0 <= k < |Front(xs)| && Front(xs)[k] == y;
        assert xs[k] == y;
      }
    }
  }

  lemma {:induction false} FilterSwap<T>(xs: seq<T>, p: T -> bool, q: T -> bool)
    ensures Filter(Filter(xs, p), q) == Filter(Filter(xs, q), p)
  {
    if xs != [] {
      FilterSwap(Front(xs), p, q);
      FilterSnoc(Filter(Front(xs), p), Last(xs), q);
      FilterSnoc(Filter(Front(xs), q), Last(xs), p);
      assert forall ys: seq<T> :: ys + [] == ys;
    }
  }

  lemma SortedLast<T>(xs: seq<T>, ys: seq<T>, le: (T, T) -> bool)
    requires multiset(xs) == multiset(ys) && Sorted(xs, le) && xs != []
    ensures ys != [] && (Last(ys) == Last(xs) || le(Last(ys), Last(xs)))
    ensures Last(ys) in xs
  {
    assert |multiset(xs)| == |multiset(ys)|;
    assert Last(ys) in multiset(xs);
    var j :| 0 <= j < |xs| && xs[j] == Last(ys);
    assert j == |xs| - 1 || le(xs[j], Last(xs));
  }

  /** Two sorted arrangements of the same elements are equal when no two of them tie. */
  lemma {:induction false} SortedUnique<T>(xs: seq<T>, ys: seq<T>, le: (T, T) -> bool)
    requires multiset(xs) == multiset(ys) && Sorted(xs, le) && Sorted(ys, le)
    requires forall x, y :: x in xs && y in xs && le(x, y) && le(y, x) ==> x == y
    ensures xs == ys
  {
    if xs == [] {
      assert |multiset(ys)| == 0;
    } else {
      SortedLast(xs, ys, le);
      SortedLast(ys, xs, le);
      var x := Last(xs);
      assert x in xs && x == Last(ys);
      assert xs == Front(xs) + [x] && ys == Front(ys) + [x];
      SnocCancel(Front(xs), Front(ys), x);
      assert forall y :: y in Front(xs) ==> y in xs;
      SortedUnique(Front(xs), Front(ys), le);
    }
  }
}
