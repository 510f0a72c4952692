/** Collecting a sequence into groups by a key, in order of first occurrence, as a loop over a
    JavaScript `Map` does. */
module Grouping {
  import opened Sequences

  /** The keys in order of first occurrence. */
  function Keys<T>(xs: seq<T>, key: T -> string): seq<string> {
    if xs == [] then []
    else
      var ks := Keys(Front(xs), key);
      if key(Last(xs)) in ks then ks else ks + [key(Last(xs))]
  }

  function Having<T>(key: T -> string, k: string): T -> bool { (x: T) => key(x) == k }

  function Members<T>(xs: seq<T>, key: T -> string, k: string): seq<T> {
    Filter(xs, Having(key, k))
  }

  function MembersOf<T>(xs: seq<T>, key: T -> string): string -> seq<T> { (k: string) => Members(xs, key, k) }

  /** All that `f` gives for the elements of `gs`, one after the other. */
  function FlatMap<G, T>(gs: seq<G>, f: G -> seq<T>): seq<T> {
    if gs == [] then [] else FlatMap(Front(gs), f) + f(Last(gs))
  }

  lemma MembersSnoc<T>(xs: seq<T>, x: T, key: T -> string, k: string)
    ensures Members(xs + [x], key, k) == Members(xs, key, k) + (if key(x) == k then [x] else [])
  {
    FilterSnoc(xs, x, Having(key, k));
  }

  lemma KeysSnoc<T>(xs: seq<T>, x: T, key: T -> string)
    ensures Keys(xs + [x], key) == if key(x) in Keys(xs, key) then Keys(xs, key) else Keys(xs, key) + [key(x)]
  {
    FrontLast(xs, x);
  }

  ghost predicate Distinct(ks: seq<string>) {
    forall i, j :: 0 <= i < j < |ks| ==> ks[i] != ks[j]
  }

  /** The keys are those of the elements, each once, and no group is empty. */
  lemma {:induction false} KeysComplete<T>(xs: seq<T>, key: T -> string)
    ensures Distinct(Keys(xs, key))
    ensures forall k :: k in Keys(xs, key) <==> Members(xs, key, k) != []
  {
    if xs != [] {
      KeysComplete(Front(xs), key);
    }
  }

  /** An element is in the group of its own key and in no other. */
  lemma MemberKey<T>(xs: seq<T>, key: T -> string, k: string, x: T)
    ensures x in Members(xs, key, k) <==> x in xs && key(x) == k
  {
    FilterMembers(xs, Having(key, k));
  }

  lemma {:induction false} FlatMapSame<T>(ks: seq<string>, f: string -> seq<T>, g: string -> seq<T>)
    requires forall k :: k in ks ==> f(k) == g(k)
    ensures FlatMap(ks, f) == FlatMap(ks, g)
  {
    if ks != [] {
      assert forall k :: k in Front(ks) ==> k in ks;
      FlatMapSame(Front(ks), f, g);
    }
  }

  /** One group gains `x`, the others stay. */
  lemma {:induction false} FlatMapGain<T>(ks: seq<string>, f: string -> seq<T>, g: string -> seq<T>, k: string, x: T)
    requires Distinct(ks) && k in ks && g(k) == f(k) + [x]
    requires forall k' :: k' in ks && k' != k ==> g(k') == f(k')
    ensures multiset(FlatMap(ks, g)) == multiset(FlatMap(ks, f)) + multiset{x}
  {
    var front, last := Front(ks), Last(ks);
    assert ks == front + [last];
    assert forall k' :: k' in front ==> k' in ks;
    if last == k {
      assert k !in front;
      FlatMapSame(front, f, g);
      assert FlatMap(ks, g) == (FlatMap(front, f) + f(k)) + [x];
      SnocMultiset(FlatMap(front, f) + f(k), x);
    } else {
      FlatMapGain(front, f, g, k, x);
      assert g(last) == f(last);
    }
  }

  /** A key that has no group yet opens one with `x` alone. */
  lemma FlatMapOpen<T>(ks: seq<string>, f: string -> seq<T>, g: string -> seq<T>, k: string, x: T)
    requires k !in ks && g(k) == [x]
    requires forall k' :: k' in ks ==> g(k') == f(k')
    ensures multiset(FlatMap(ks + [k], g)) == multiset(FlatMap(ks, f)) + multiset{x}
  {
    FlatMapSame(ks, f, g);
    FrontLast(ks, k);
    SnocMultiset(FlatMap(ks, f), x);
  }

  /** Grouping loses and repeats nothing. */
  lemma {:induction false} GroupingPermutes<T>(xs: seq<T>, key: T -> string)
    ensures multiset(FlatMap(Keys(xs, key), MembersOf(xs, key))) == multiset(xs)
  {
    if xs != [] {
      var front, x := Front(xs), Last(xs);
      GroupingPermutes(front, key);
      assert xs == front + [x];
      SnocMultiset(front, x);
      GroupingStep(front, x, key);
    }
  }

  lemma GroupingStep<T>(xs: seq<T>, x: T, key: T -> string)
    ensures multiset(FlatMap(Keys(xs + [x], key), MembersOf(xs + [x], key))) ==
            multiset(FlatMap(Keys(xs, key), MembersOf(xs, key))) + multiset{x}
  {
    hide FlatMap;
    var ks, k := Keys(xs, key), key(x);
    var f, g := MembersOf(xs, key), MembersOf(xs + [x], key);
    KeysComplete(xs, key);
    KeysSnoc(xs, x, key);
    forall k'
      ensures g(k') == f(k') + (if k' == k then [x] else [])
    {
      MembersSnoc(xs, x, key, k');
    }
    if k in ks {
      FlatMapGain(ks, f, g, k, x);
    } else {
      assert f(k) == [];
      FlatMapOpen(ks, f, g, k, x);
    }
  }

  /** Groups with the same contents, up to order, have the same contents together. */
  lemma {:induction false} FlatMapAlike<G, H, T>(gs: seq<G>, f: G -> seq<T>, hs: seq<H>, g: H -> seq<T>)
    requires |gs| == |hs| && forall i :: 0 <= i < |gs| ==> multiset(f(gs[i])) == multiset(g(hs[i]))
    ensures multiset(FlatMap(gs, f)) == multiset(FlatMap(hs, g))
  {
    if gs != [] {
      assert forall i :: 0 <= i < |Front(gs)| ==> Front(gs)[i] == gs[i] && Front(hs)[i] == hs[i];
      FlatMapAlike(Front(gs), f, Front(hs), g);
      assert Last(gs) == gs[|gs| - 1] && Last(hs) == hs[|gs| - 1];
    }
  }

  lemma {:induction false} FlatMapConcat<G, T>(gs: seq<G>, hs: seq<G>, f: G -> seq<T>)
    ensures FlatMap(gs + hs, f) == FlatMap(gs, f) + FlatMap(hs, f)
  {
    if hs == [] {
      assert gs + hs == gs;
    } else {
      assert gs + hs == (gs + Front(hs)) + [Last(hs)];
      FrontLast(gs + Front(hs), Last(hs));
      FlatMapConcat(gs, Front(hs), f);
    }
  }

  lemma {:induction false} FlatMapIdentity<T>(xs: seq<T>, f: T -> seq<T>)
    requires forall i :: 0 <= i < |xs| ==> f(xs[i]) == [xs[i]]
    ensures FlatMap(xs, f) == xs
  {
    if xs != [] {
      FlatMapIdentity(Front(xs), f);
      assert xs == Front(xs) + [Last(xs)];
    }
  }

  lemma FlatMapSnoc<G, T>(gs: seq<G>, g: G, f: G -> seq<T>)
    ensures FlatMap(gs + [g], f) == FlatMap(gs, f) + f(g)
  {
    FrontLast(gs, g);
  }

  lemma FlatMapMiddle<T>(before: seq<T>, x: T, after: seq<T>, f: T -> seq<T>)
    requires FlatMap(before, f) == before && FlatMap(after, f) == after
    ensures FlatMap(before + [x] + after, f) == before + f(x) + after
  {
    hide FlatMap;
    FlatMapConcat(before + [x], after, f);
    FlatMapSnoc(before, x, f);
  }

  /** Only the element at `n` is changed. */
  lemma FlatMapAt<T>(xs: seq<T>, n: nat, f: T -> seq<T>)
    requires n < |xs| && forall i :: 0 <= i < |xs| && i != n ==> f(xs[i]) == [xs[i]]
    ensures FlatMap(xs, f) == xs[..n] + f(xs[n]) + xs[n + 1..]
  {
    hide FlatMap;
    FlatMapIdentity(xs[..n], f);
    FlatMapIdentity(xs[n + 1..], f);
    FlatMapMiddle(xs[..n], xs[n], xs[n + 1..], f);
    assert xs == xs[..n] + [xs[n]] + xs[n + 1..];
  }

  lemma {:induction false} FlatMapUndo<T>(xs: seq<T>, f: T -> seq<T>, g: T -> seq<T>)
    requires forall i :: 0 <= i < |xs| ==> FlatMap(f(xs[i]), g) == [xs[i]]
    ensures FlatMap(FlatMap(xs, f), g) == xs
  {
    if xs != [] {
      FlatMapUndo(Front(xs), f, g);
      FlatMapConcat(FlatMap(Front(xs), f), f(Last(xs)), g);
      assert xs == Front(xs) + [Last(xs)];
    }
  }

  /** The order of the groups does not matter for their contents together. */
  lemma {:induction false} FlatMapPermute<G, T>(gs: seq<G>, hs: seq<G>, f: G -> seq<T>)
    requires multiset(gs) == multiset(hs)
    ensures multiset(FlatMap(gs, f)) == multiset(FlatMap(hs, f))
    decreases gs
  {
    if gs == [] {
      assert |multiset(hs)| == 0;
    } else {
      var i := Locate(gs, hs);
      FlatMapPermute(Front(gs), Without(hs, i), f);
      assert hs == (hs[..i] + [hs[i]]) + hs[i + 1..];
      FlatMapConcat(hs[..i] + [hs[i]], hs[i + 1..], f);
      FrontLast(hs[..i], hs[i]);
      FlatMapConcat(hs[..i], hs[i + 1..], f);
    }
  }

  /** The first element of the group of `k`. */
  function First<T>(xs: seq<T>, key: T -> string, k: string): T
    requires Members(xs, key, k) != []
  {
    Members(xs, key, k)[0]
  }

  ghost predicate FirstsOrdered<T>(xs: seq<T>, key: T -> string, le: (T, T) -> bool)
    requires forall k :: k in Keys(xs, key) ==> Members(xs, key, k) != []
  {
    var ks := Keys(xs, key);
    forall i, j :: 0 <= i < j < |ks| ==> le(First(xs, key, ks[i]), First(xs, key, ks[j]))
  }

  /** In a sorted sequence the groups come in the order of their first elements. */
  lemma {:induction false} FirstsInOrder<T(!new)>(xs: seq<T>, key: T -> string, le: (T, T) -> bool)
    requires Sorted(xs, le)
    ensures forall k :: k in Keys(xs, key) ==> Members(xs, key, k) != []
    ensures FirstsOrdered(xs, key, le)
  {
    KeysComplete(xs, key);
    if xs != [] {
      var front, x := Front(xs), Last(xs);
      var ks, ks' := Keys(front, key), Keys(xs, key);
      assert xs == front + [x];
      KeysComplete(front, key);
      FirstsInOrder(front, key, le);
      forall i, j | 0 <= i < j < |ks'|
        ensures le(First(xs, key, ks'[i]), First(xs, key, ks'[j]))
      {
        assert ks'[i] == ks[i] && ks[i] in ks;
        MembersSnoc(front, x, key, ks'[i]);
        MembersSnoc(front, x, key, ks'[j]);
        var a := First(front, key, ks[i]);
        assert First(xs, key, ks'[i]) == a;
        if j < |ks| {
          assert ks'[j] == ks[j] && ks[j] in ks;
          assert First(xs, key, ks'[j]) == First(front, key, ks[j]);
        } else {
          assert First(xs, key, ks'[j]) == x;
          MemberKey(front, key, ks[i], a);
          var n :| 0 <= n < |front| && front[n] == a;
          assert le(xs[n], xs[|xs| - 1]);
        }
      }
    }
  }

  // ---------- Building the groups with a map ----------

  /** `keys` and `groups` are the insertion-ordered map that a loop over `xs` has built, with the value
      `make(members)` for each key. */
  ghost predicate Built<T, G>(xs: seq<T>, key: T -> string, make: seq<T> -> G, keys: seq<string>, groups: map<string, G>) {
    && keys == Keys(xs, key)
    && (forall k :: k in groups <==> k in keys)
    && (forall k :: k in keys ==> groups[k] == make(Members(xs, key, k)))
  }

  /** What the members of the next element's key are before and after it. */
  lemma NextMembers<T, G>(xs: seq<T>, x: T, key: T -> string, make: seq<T> -> G, keys: seq<string>, groups: map<string, G>)
    requires Built(xs, key, make, keys, groups)
    ensures Members(xs + [x], key, key(x)) == Members(xs, key, key(x)) + [x]
    ensures key(x) in groups ==> Members(xs, key, key(x)) != [] && groups[key(x)] == make(Members(xs, key, key(x)))
    ensures key(x) !in groups ==> Members(xs, key, key(x)) == []
  {
    MembersSnoc(xs, x, key, key(x));
    KeysComplete(xs, key);
  }

  /** Setting the entry of the next element's key keeps the map right. */
  lemma BuiltStep<T, G>(xs: seq<T>, x: T, key: T -> string, make: seq<T> -> G, keys: seq<string>, groups: map<string, G>, g: G)
    requires Built(xs, key, make, keys, groups)
    requires g == make(Members(xs + [x], key, key(x)))
    ensures Built(xs + [x], key, make, if key(x) in groups then keys else keys + [key(x)], groups[key(x) := g])
  {
    KeysSnoc(xs, x, key);
    forall k | k != key(x)
      ensures Members(xs + [x], key, k) == Members(xs, key, k)
    {
      MembersSnoc(xs, x, key, k);
    }
  }
}
