/**
 Comparing two draft lines, `sameSelection` in apps/waiter-app/src/store/waiter.store.ts: the sorted
 modifier ids are joined with a bar and compared as strings, next to the item and the trimmed notes.
 `UniqueSorted` is `normalizeIds` of apps/customer-app/src/store/lib/cart-utils.ts.
 */
module Selections {
  import opened Options
  import opened Sequences
  import Text

  // ---------- Sorting and joining ids ----------

  /** The order of strings: by the first character in which they differ. */
  predicate StringLe(a: string, b: string) {
    if a == "" then true
    else if b == "" then false
    else if a[0] != b[0] then a[0] < b[0]
    else StringLe(a[1..], b[1..])
  }

  const ByString: (string, string) -> bool := (a: string, b: string) => StringLe(a, b)

  lemma {:induction false} StringLeTotal(a: string, b: string)
    ensures StringLe(a, b) || StringLe(b, a)
    ensures StringLe(a, b) && StringLe(b, a) ==> a == b
  {
    if a != "" && b != "" && a[0] == b[0] {
      StringLeTotal(a[1..], b[1..]);
      assert a == [a[0]] + a[1..] && b == [b[0]] + b[1..];
    }
  }

  lemma {:induction false} StringLeTransitive(a: string, b: string, c: string)
    requires StringLe(a, b) && StringLe(b, c)
    ensures StringLe(a, c)
  {
    if a != "" && b != "" && c != "" && a[0] == b[0] == c[0] {
      StringLeTransitive(a[1..], b[1..], c[1..]);
    }
  }

  /** The strings agree up to place `n`, where `a` ends or has the smaller character. */
  predicate Precedes(a: string, b: string, n: nat) {
    n <= |a| && n <= |b| && a[..n] == b[..n] && (n == |a| || (n < |b| && a[n] < b[n]))
  }

  lemma {:induction false} StringLeIff(a: string, b: string)
    ensures StringLe(a, b) <==> exists n: nat :: Precedes(a, b, n)
  {
    if a == "" {
      assert Precedes(a, b, 0);
    } else if b != "" && a[0] == b[0] {
      StringLeIff(a[1..], b[1..]);
      if n: nat :| Precedes(a[1..], b[1..], n) {
        assert a[..n + 1] == [a[0]] + a[1..][..n] && b[..n + 1] == [b[0]] + b[1..][..n];
        assert Precedes(a, b, n + 1);
      }
      if n: nat :| Precedes(a, b, n) {
        assert n > 0;
        assert a[1..][..n - 1] == a[..n][1..] && b[1..][..n - 1] == b[..n][1..];
        assert Precedes(a[1..], b[1..], n - 1);
      }
    } else if b != "" && a[0] < b[0] {
      assert Precedes(a, b, 0);
    } else if n: nat :| Precedes(a, b, n) {
      assert n > 0 ==> a[..n][0] == b[..n][0];
    }
  }

  lemma ByStringIsOrder()
    ensures TotalPreorder(ByString)
    ensures forall a, b :: ByString(a, b) && ByString(b, a) ==> a == b
  {
    forall a: string, b: string
      ensures ByString(a, b) || ByString(b, a)
      ensures ByString(a, b) && ByString(b, a) ==> a == b
    {
      StringLeTotal(a, b);
    }
    forall a: string, b: string, c: string | ByString(a, b) && ByString(b, c)
      ensures ByString(a, c)
    {
      StringLeTransitive(a, b, c);
    }
  }

  function SortIds(ids: seq<string>): seq<string> { StableSort(ids, ByString) }

  /** Sorting is canonical: it forgets the order of the ids and nothing else. */
  lemma SortedIdsEqualIff(a: seq<string>, b: seq<string>)
    ensures SortIds(a) == SortIds(b) <==> multiset(a) == multiset(b)
  {
    ByStringIsOrder();
    SortPermutes(a, ByString);
    SortPermutes(b, ByString);
    if multiset(a) == multiset(b) {
      SortSorts(a, ByString);
      SortSorts(b, ByString);
      SortedUnique(SortIds(a), SortIds(b), ByString);
    }
  }

  const BAR: string := "|"

  function Join(ids: seq<string>): string {
    if ids == [] then ""
    else if |ids| == 1 then ids[0]
    else Join(Front(ids)) + BAR + Last(ids)
  }

  predicate PlainId(id: string) { id != "" && '|' !in id }

  ghost predicate PlainIds(ids: seq<string>) { forall i :: 0 <= i < |ids| ==> PlainId(ids[i]) }

  lemma LastBar(x: string, a: string, y: string, b: string)
    requires x + BAR + a == y + BAR + b && '|' !in a && '|' !in b
    ensures x == y && a == b
  {
    var s := x + BAR + a;
    assert s[|x|] == '|' && s[|y|] == '|';
    assert |a| == |b|;
    assert x == s[..|x|] && y == s[..|y|];
    assert a == s[|x| + 1..] && b == s[|y| + 1..];
  }

  lemma JoinHasBar(ids: seq<string>)
    requires |ids| >= 2
    ensures '|' in Join(ids)
  {
    assert Join(ids)[|Join(Front(ids))|] == '|';
  }

  /** For ids that are not empty and contain no bar, joining loses nothing. */
  lemma {:induction false} JoinInjective(a: seq<string>, b: seq<string>)
    requires PlainIds(a) && PlainIds(b) && Join(a) == Join(b)
    ensures a == b
  {
    if |a| >= 2 && |b| >= 2 {
      assert PlainId(Last(a)) && PlainId(Last(b));
      LastBar(Join(Front(a)), Last(a), Join(Front(b)), Last(b));
      JoinInjective(Front(a), Front(b));
      assert a == Front(a) + [Last(a)] && b == Front(b) + [Last(b)];
    } else {
      if |a| >= 2 {
        JoinHasBar(a);
      }
      if |b| >= 2 {
        JoinHasBar(b);
      }
      assert |a| == 1 ==> PlainId(a[0]);
      assert |b| == 1 ==> PlainId(b[0]);
    }
  }

  // ---------- Draft lines ----------

  datatype DraftLine = DraftLine(cartLineId: string, menuItemId: string, quantity: int, notes: Option<string>,
                                 modifierOptionIds: Option<seq<string>>)

  function Modifiers(l: DraftLine): seq<string> { if l.modifierOptionIds.Some? then l.modifierOptionIds.value else [] }

  function TrimmedNotes(l: DraftLine): string { Text.Trim(if l.notes.Some? then l.notes.value else "") }

  predicate SameSelection(left: DraftLine, right: DraftLine) {
    && left.menuItemId == right.menuItemId
    && Join(SortIds(Modifiers(left))) == Join(SortIds(Modifiers(right)))
    && TrimmedNotes(left) == TrimmedNotes(right)
  }

  /** For plain modifier ids the string comparison means what it should: the same item, the same trimmed
      notes, and the same modifiers in any order. */
  lemma SameSelectionIff(left: DraftLine, right: DraftLine)
    requires PlainIds(Modifiers(left)) && PlainIds(Modifiers(right))
    ensures SameSelection(left, right) <==>
              && left.menuItemId == right.menuItemId
              && Text.Trim(if left.notes.Some? then left.notes.value else "") == Text.Trim(if right.notes.Some? then right.notes.value else "")
              && multiset(if left.modifierOptionIds.Some? then left.modifierOptionIds.value else []) ==
                 multiset(if right.modifierOptionIds.Some? then right.modifierOptionIds.value else [])
  {
    var a, b := Modifiers(left), Modifiers(right);
    SortedIdsEqualIff(a, b);
    SortPermutes(a, ByString);
    SortPermutes(b, ByString);
    forall i | 0 <= i < |SortIds(a)|
      ensures PlainId(SortIds(a)[i])
    {
      assert SortIds(a)[i] in a;
    }
    forall i | 0 <= i < |SortIds(b)|
      ensures PlainId(SortIds(b)[i])
    {
      assert SortIds(b)[i] in b;
    }
    if Join(SortIds(a)) == Join(SortIds(b)) {
      JoinInjective(SortIds(a), SortIds(b));
    }
  }

  // ---------- Which ids are confused ----------

  /** Different modifiers that the comparison takes for the same. */
  ghost predicate Confused(xs: seq<string>, ys: seq<string>) {
    multiset(xs) != multiset(ys) && Join(SortIds(xs)) == Join(SortIds(ys))
  }

  predicate Splits(id: string, a: string, b: string) { id == a + BAR + b && StringLe(a, b) }

  lemma SortedPair(a: string, b: string)
    requires StringLe(a, b)
    ensures SortIds([a, b]) == [a, b] && Join([a, b]) == a + BAR + b
  {
    SortedIsFixed([a, b], ByString);
    assert Front([a, b]) == [a] && Last([a, b]) == b;
  }

  lemma SingleId(id: string)
    ensures SortIds([id]) == [id] && Join([id]) == id && SortIds([]) == [] && Join([]) == ""
  {
    SortedIsFixed([id], ByString);
  }

  /** Joining starts with the first id, however many follow. */
  lemma {:induction false} JoinFirst(ids: seq<string>)
    requires |ids| >= 2
    ensures Join(ids) == ids[0] + BAR + Join(ids[1..])
  {
    if |ids| == 2 {
      assert Front(ids) == [ids[0]] && ids[1..] == [ids[1]];
    } else {
      JoinFirst(Front(ids));
      assert Front(ids)[1..] == Front(ids[1..]) && Last(ids[1..]) == Last(ids);
      assert Join(ids) == ids[0] + BAR + Join(Front(ids[1..])) + BAR + Last(ids);
      assert ids[0] + BAR + Join(Front(ids[1..])) + BAR + Last(ids) == ids[0] + BAR + (Join(Front(ids[1..])) + BAR + Last(ids));
    }
  }

  lemma {:induction false} PrefixLe(a: string, b: string)
    requires a <= b
    ensures StringLe(a, b)
  {
    if a != "" {
      assert a[1..] <= b[1..];
      PrefixLe(a[1..], b[1..]);
    }
  }

  /** Sorted ids, two at least, join to an id that splits. */
  lemma JoinedSplits(ids: seq<string>)
    requires |ids| >= 2 && Sorted(ids, ByString)
    ensures Splits(Join(ids), ids[0], Join(ids[1..]))
  {
    hide StringLe, Join;
    JoinFirst(ids);
    FirstLeJoin(ids[1..]);
    assert ByString(ids[0], ids[1]);
    StringLeTransitive(ids[0], ids[1], Join(ids[1..]));
  }

  lemma FirstLeJoin(ids: seq<string>)
    requires ids != []
    ensures StringLe(ids[0], Join(ids))
  {
    hide StringLe;
    if |ids| >= 2 {
      JoinFirst(ids);
      assert Join(ids) == ids[0] + (BAR + Join(ids[1..]));
    }
    PrefixLe(ids[0], Join(ids));
  }

  /** With fewer than two ids, nothing but the empty id is confused. */
  lemma SingleOrNone(ys: seq<string>, id: string)
    requires Confused(ys, [id]) && |SortIds(ys)| < 2
    ensures id == ""
  {
    hide StableSort;
    SingleId(id);
    SortPermutes(ys, ByString);
  }

  /** One modifier id can be confused with other modifiers exactly if it is empty, or is two strings with a bar
      between them of which the first is not after the second. */
  lemma ConfusableIff(id: string)
    ensures (exists ys :: Confused(ys, [id])) <==> (id == "" || exists a, b :: Splits(id, a, b))
  {
    hide StableSort, StringLe;
    SingleId(id);
    if ys :| Confused(ys, [id]) {
      ByStringIsOrder();
      SortSorts(ys, ByString);
      SortPermutes(ys, ByString);
      var sorted := SortIds(ys);
      if |sorted| >= 2 {
        JoinedSplits(sorted);
      } else {
        SingleOrNone(ys, id);
      }
    }
    if id == "" {
      assert |multiset([id])| == 1;
      assert Confused([], [id]);
    }
    if a, b :| Splits(id, a, b) {
      SortedPair(a, b);
      assert |multiset([a, b])| == 2 && |multiset([id])| == 1;
      assert Confused([a, b], [id]);
    }
  }

  /** So two lines with a bar inside an id can be merged although their modifiers differ. */
  lemma BarsConfuse(item: string, notes: Option<string>, a: string, b: string)
    requires StringLe(a, b)
    ensures SameSelection(DraftLine("1", item, 1, notes, Some([a + BAR + b])), DraftLine("2", item, 1, notes, Some([a, b])))
    ensures multiset([a + BAR + b]) != multiset([a, b])
  {
    hide StableSort, Text.Trim;
    SortedPair(a, b);
    SingleId(a + BAR + b);
    assert |multiset([a + BAR + b])| == 1 && |multiset([a, b])| == 2;
  }

  // ---------- normalizeIds ----------

  /** `[...new Set(ids)]`: first occurrences. */
  function Unique(ids: seq<string>): seq<string> {
    if ids == [] then []
    else
      var u := Unique(Front(ids));
      if Last(ids) in u then u else u + [Last(ids)]
  }

  const NotEmpty: string -> bool := (id: string) => id != ""

  function UniqueSorted(ids: Option<seq<string>>): seq<string> {
    SortIds(Unique(Filter(if ids.Some? then ids.value else [], NotEmpty)))
  }

  ghost predicate NoRepeats(ids: seq<string>) { forall i, j :: 0 <= i < j < |ids| ==> ids[i] != ids[j] }

  lemma {:induction false} UniqueMembers(ids: seq<string>)
    ensures NoRepeats(Unique(ids))
    ensures forall id :: id in Unique(ids) <==> id in ids
  {
    if ids != [] {
      UniqueMembers(Front(ids));
      assert ids == Front(ids) + [Last(ids)];
    }
  }

  lemma {:induction false} UniqueIsFixed(ids: seq<string>)
    requires NoRepeats(ids)
    ensures Unique(ids) == ids
  {
    if ids != [] {
      var front, last := Front(ids), Last(ids);
      assert forall i :: 0 <= i < |front| ==> front[i] == ids[i] && ids[i] != ids[|front|];
      assert ids == front + [last] && last !in front;
      hide NoRepeats, Unique;
      assert NoRepeats(front) by {
        NoRepeatsFront(ids);
      }
      UniqueIsFixed(front);
      UniqueSnoc(ids);
    }
  }

  lemma NoRepeatsFront(ids: seq<string>)
    requires ids != [] && NoRepeats(ids)
    ensures NoRepeats(Front(ids))
  {
    assert forall i :: 0 <= i < |Front(ids)| ==> Front(ids)[i] == ids[i];
  }

  lemma UniqueSnoc(ids: seq<string>)
    requires ids != []
    ensures Unique(ids) == if Last(ids) in Unique(Front(ids)) then Unique(Front(ids)) else Unique(Front(ids)) + [Last(ids)]
  {
  }

  lemma SortKeepsNoRepeats(ids: seq<string>)
    requires NoRepeats(ids)
    ensures NoRepeats(SortIds(ids))
  {
    SortPermutes(ids, ByString);
    var sorted := SortIds(ids);
    forall i, j | 0 <= i < j < |sorted|
      ensures sorted[i] != sorted[j]
    {
      if sorted[i] == sorted[j] {
        CountTwo(sorted, i, j);
        NoRepeatsCount(ids, sorted[i]);
      }
    }
  }

  lemma {:induction false} NoRepeatsCount(ids: seq<string>, id: string)
    requires NoRepeats(ids)
    ensures multiset(ids)[id] <= 1
  {
    if ids != [] {
      assert ids == Front(ids) + [Last(ids)];
      SnocMultiset(Front(ids), Last(ids));
      if id == Last(ids) {
        assert id !in Front(ids);
      } else {
        NoRepeatsCount(Front(ids), id);
      }
    }
  }

  /** Normalized ids: the non-empty ids, each once, in order. */
  lemma UniqueSortedMembers(ids: Option<seq<string>>)
    ensures Sorted(UniqueSorted(ids), ByString) && NoRepeats(UniqueSorted(ids))
    ensures forall id :: id in UniqueSorted(ids) <==> id != "" && ids.Some? && id in ids.value
  {
    var given := if ids.Some? then ids.value else [];
    FilterMembers(given, NotEmpty);
    UniqueMembers(Filter(given, NotEmpty));
    SortPermutes(Unique(Filter(given, NotEmpty)), ByString);
    ByStringIsOrder();
    SortSorts(Unique(Filter(given, NotEmpty)), ByString);
    SortKeepsNoRepeats(Unique(Filter(given, NotEmpty)));
  }

  /** Normalizing twice is normalizing once. */
  lemma NormalizeIdsTwice(ids: Option<seq<string>>)
    ensures UniqueSorted(Some(UniqueSorted(ids))) == UniqueSorted(ids)
  {
    var n := UniqueSorted(ids);
    UniqueSortedMembers(ids);
    FilterAll(n, NotEmpty);
    UniqueIsFixed(n);
    SortedIsFixed(n, ByString);
  }

  /** What normalizing forgets: two lists normalize alike exactly when they have the same non-empty ids. */
  lemma NormalizedEqualIff(a: seq<string>, b: seq<string>)
    ensures UniqueSorted(Some(a)) == UniqueSorted(Some(b)) <==> (forall id :: id != "" ==> (id in a <==> id in b))
  {
    var m, n := UniqueSorted(Some(a)), UniqueSorted(Some(b));
    UniqueSortedMembers(Some(a));
    UniqueSortedMembers(Some(b));
    if forall id :: id != "" ==> (id in a <==> id in b) {
      forall id
        ensures multiset(m)[id] == multiset(n)[id]
      {
        NoRepeatsCount(m, id);
        NoRepeatsCount(n, id);
        assert id in m <==> id in multiset(m);
        assert id in n <==> id in multiset(n);
      }
      ByStringIsOrder();
      SortedUnique(m, n, ByString);
    } else {
      var id :| id != "" && (id in a) != (id in b);
      assert (id in m) != (id in n);
    }
  }
}
