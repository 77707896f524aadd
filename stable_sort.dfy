/** JavaScript's `Array.prototype.sort`, which is stable: an element list is
    ordered by a comparator (negative, zero or positive), and elements the
    comparator calls equal keep their input order. The sort works on
    (item, index) pairs, as the ordering code itself does, and is proved to
    return the one permutation of those pairs that is strictly increasing
    under (comparator, index). */
module StableSort {

  /** What a consistent comparator satisfies: every element equals itself,
      `cmp(a, b) < 0` exactly when `cmp(b, a) > 0`, and "not after" is
      transitive. */
  ghost predicate TotalPreorder<T(!new)>(cmp: (T, T) -> int)
  {
    && (forall a :: cmp(a, a) == 0)
    && (forall a, b :: cmp(a, b) < 0 <==> cmp(b, a) > 0)
    && (forall a, b, c :: cmp(a, b) <= 0 && cmp(b, c) <= 0 ==> cmp(a, c) <= 0)
  }

  /** An element together with its position in the input list. */
  datatype Meta<T> = Meta(item: T, index: nat)

  /** The order a stable sort produces: by comparator, then by input position. */
  predicate Before<T>(cmp: (T, T) -> int, x: Meta<T>, y: Meta<T>)
  {
    cmp(x.item, y.item) < 0 || (cmp(x.item, y.item) == 0 && x.index < y.index)
  }

  predicate Sorted<T>(cmp: (T, T) -> int, xs: seq<T>)
  {
    forall i, j :: 0 <= i < j < |xs| ==> cmp(xs[i], xs[j]) <= 0
  }

  predicate StrictlySorted<T>(cmp: (T, T) -> int, ms: seq<Meta<T>>)
  {
    forall i, j :: 0 <= i < j < |ms| ==> Before(cmp, ms[i], ms[j])
  }

  /** `xs.map((item, index) => ({ item, index }))`. */
  function Enumerate<T>(xs: seq<T>): (ms: seq<Meta<T>>)
    ensures |ms| == |xs|
    ensures forall i :: 0 <= i < |xs| ==> ms[i] == Meta(xs[i], i)
  {
    seq(|xs|, i requires 0 <= i < |xs| => Meta(xs[i], i))
  }

  /** `ms.map(m => m.item)`. */
  function Items<T>(ms: seq<Meta<T>>): (xs: seq<T>)
    ensures |xs| == |ms|
    ensures forall i :: 0 <= i < |ms| ==> xs[i] == ms[i].item
  {
    seq(|ms|, i requires 0 <= i < |ms| => ms[i].item)
  }

  /** Inserts `e` after every element it does not come before. */
  function Insert<T>(cmp: (T, T) -> int, e: Meta<T>, s: seq<Meta<T>>): seq<Meta<T>>
  {
    if s == [] then [e]
    else if Before(cmp, e, s[0]) then [e] + s
    else [s[0]] + Insert(cmp, e, s[1..])
  }

  /** Insertion sort, taking the elements in input order. */
  function SortMeta<T>(cmp: (T, T) -> int, ms: seq<Meta<T>>): seq<Meta<T>>
  {
    if ms == [] then [] else Insert(cmp, ms[|ms| - 1], SortMeta(cmp, ms[..|ms| - 1]))
  }

  /** The stable sort of a list: `xs.slice(0).sort(cmp)`. */
  function Sort<T>(cmp: (T, T) -> int, xs: seq<T>): seq<T>
  {
    Items(SortMeta(cmp, Enumerate(xs)))
  }

  lemma BeforeTransitive<T(!new)>(cmp: (T, T) -> int, x: Meta<T>, y: Meta<T>, z: Meta<T>)
    requires TotalPreorder(cmp)
    requires Before(cmp, x, y) && Before(cmp, y, z)
    ensures Before(cmp, x, z)
  {
    assert cmp(x.item, z.item) <= 0;
    if cmp(x.item, z.item) == 0 {
      assert cmp(z.item, x.item) <= 0;
      assert cmp(y.item, x.item) <= 0;
    }
  }

  lemma BeforeAsymmetric<T(!new)>(cmp: (T, T) -> int, x: Meta<T>, y: Meta<T>)
    requires TotalPreorder(cmp)
    requires Before(cmp, x, y)
    ensures !Before(cmp, y, x)
  {
  }

  lemma BeforeTotal<T(!new)>(cmp: (T, T) -> int, x: Meta<T>, y: Meta<T>)
    requires TotalPreorder(cmp)
    requires x.index != y.index
    ensures Before(cmp, x, y) || Before(cmp, y, x)
  {
  }

  lemma ItemsConcat<T>(a: seq<Meta<T>>, b: seq<Meta<T>>)
    ensures Items(a + b) == Items(a) + Items(b)
  {
  }

  /** Insertion adds exactly the inserted element. */
  lemma {:induction false} InsertContents<T>(cmp: (T, T) -> int, e: Meta<T>, s: seq<Meta<T>>)
    ensures multiset(Insert(cmp, e, s)) == multiset(s) + multiset{e}
  {
    if s != [] && !Before(cmp, e, s[0]) {
      InsertContents(cmp, e, s[1..]);
      assert s == [s[0]] + s[1..];
    }
  }

  /** The items after insertion are the old items and the inserted one. */
  lemma {:induction false} InsertItems<T>(cmp: (T, T) -> int, e: Meta<T>, s: seq<Meta<T>>)
    ensures multiset(Items(Insert(cmp, e, s))) == multiset(Items(s)) + multiset{e.item}
    ensures forall x :: x in Insert(cmp, e, s) <==> x == e || x in s
  {
    if s == [] {
      assert Items([e]) == [e.item];
    } else if Before(cmp, e, s[0]) {
      ItemsConcat([e], s);
      assert Items([e]) == [e.item];
    } else {
      var tail := Insert(cmp, e, s[1..]);
      InsertItems(cmp, e, s[1..]);
      assert s == [s[0]] + s[1..];
      ItemsConcat([s[0]], tail);
      ItemsConcat([s[0]], s[1..]);
      assert Items([s[0]]) == [s[0].item];
    }
  }

  /** Inserting an element with a later position than all others keeps the
      pairs strictly sorted. */
  lemma {:induction false} InsertSorted<T(!new)>(cmp: (T, T) -> int, e: Meta<T>, s: seq<Meta<T>>)
    requires TotalPreorder(cmp)
    requires StrictlySorted(cmp, s)
    requires forall k :: 0 <= k < |s| ==> s[k].index < e.index
    ensures StrictlySorted(cmp, Insert(cmp, e, s))
  {
    if s == [] {
    } else if Before(cmp, e, s[0]) {
      InsertSortedFront(cmp, e, s);
    } else {
      BeforeTotal(cmp, e, s[0]);
      InsertSorted(cmp, e, s[1..]);
      InsertItems(cmp, e, s[1..]);
      ConsSorted(cmp, s[0], Insert(cmp, e, s[1..]));
    }
  }

  /** An element before the head of a strictly sorted list extends it. */
  lemma InsertSortedFront<T(!new)>(cmp: (T, T) -> int, e: Meta<T>, s: seq<Meta<T>>)
    requires TotalPreorder(cmp)
    requires StrictlySorted(cmp, s)
    requires s != [] && Before(cmp, e, s[0])
    ensures StrictlySorted(cmp, [e] + s)
  {
    var r := [e] + s;
    forall i, j | 0 <= i < j < |r|
      ensures Before(cmp, r[i], r[j])
    {
      if i == 0 && j > 1 {
        BeforeTransitive(cmp, e, s[0], s[j - 1]);
      }
    }
  }

  /** A head before every element of a strictly sorted tail extends it. */
  lemma ConsSorted<T>(cmp: (T, T) -> int, h: Meta<T>, tail: seq<Meta<T>>)
    requires StrictlySorted(cmp, tail)
    requires forall x :: x in tail ==> Before(cmp, h, x)
    ensures StrictlySorted(cmp, [h] + tail)
  {
    var r := [h] + tail;
    forall i, j | 0 <= i < j < |r|
      ensures Before(cmp, r[i], r[j])
    {
      if i == 0 {
        assert r[j] in tail;
      } else {
        assert r[i] == tail[i - 1] && r[j] == tail[j - 1];
      }
    }
  }

  /** Insertion sort returns the input pairs, strictly sorted. */
  lemma {:induction false} SortMetaCorrect<T(!new)>(cmp: (T, T) -> int, ms: seq<Meta<T>>)
    requires TotalPreorder(cmp)
    requires forall i, j :: 0 <= i < j < |ms| ==> ms[i].index < ms[j].index
    ensures StrictlySorted(cmp, SortMeta(cmp, ms))
    ensures multiset(SortMeta(cmp, ms)) == multiset(ms)
    ensures multiset(Items(SortMeta(cmp, ms))) == multiset(Items(ms))
  {
    SortMetaPermutes(cmp, ms);
    if ms != [] {
      var n := |ms| - 1;
      var front := ms[..n];
      SortMetaCorrect(cmp, front);
      var sorted := SortMeta(cmp, front);
      IndicesBelow(front, sorted, ms[n].index);
      InsertSorted(cmp, ms[n], sorted);
    }
  }

  /** Insertion sort rearranges the pairs and their items. */
  lemma {:induction false} SortMetaPermutes<T>(cmp: (T, T) -> int, ms: seq<Meta<T>>)
    ensures multiset(SortMeta(cmp, ms)) == multiset(ms)
    ensures multiset(Items(SortMeta(cmp, ms))) == multiset(Items(ms))
  {
    if ms != [] {
      var n := |ms| - 1;
      var front := ms[..n];
      SortMetaPermutes(cmp, front);
      var sorted := SortMeta(cmp, front);
      InsertContents(cmp, ms[n], sorted);
      InsertItems(cmp, ms[n], sorted);
      assert ms == front + [ms[n]];
      ItemsConcat(front, [ms[n]]);
      assert Items([ms[n]]) == [ms[n].item];
    }
  }

  /** A rearrangement of pairs whose positions are all below `bound`. */
  lemma IndicesBelow<T>(front: seq<Meta<T>>, sorted: seq<Meta<T>>, bound: nat)
    requires multiset(sorted) == multiset(front)
    requires forall k :: 0 <= k < |front| ==> front[k].index < bound
    ensures forall k :: 0 <= k < |sorted| ==> sorted[k].index < bound
  {
    forall k | 0 <= k < |sorted|
      ensures sorted[k].index < bound
    {
      assert sorted[k] in multiset(front);
    }
  }

  /** On pairs that are already strictly sorted, insertion sort changes nothing. */
  lemma {:induction false} SortMetaOfSorted<T(!new)>(cmp: (T, T) -> int, ms: seq<Meta<T>>)
    requires TotalPreorder(cmp)
    requires StrictlySorted(cmp, ms)
    ensures SortMeta(cmp, ms) == ms
  {
    if ms != [] {
      var n := |ms| - 1;
      SortMetaOfSorted(cmp, ms[..n]);
      forall k | 0 <= k < n
        ensures !Before(cmp, ms[n], ms[..n][k])
      {
        BeforeAsymmetric(cmp, ms[k], ms[n]);
      }
      InsertAtEnd(cmp, ms[n], ms[..n]);
      assert ms == ms[..n] + [ms[n]];
    }
  }

  lemma {:induction false} InsertAtEnd<T>(cmp: (T, T) -> int, e: Meta<T>, s: seq<Meta<T>>)
    requires forall k :: 0 <= k < |s| ==> !Before(cmp, e, s[k])
    ensures Insert(cmp, e, s) == s + [e]
  {
    if s != [] {
      InsertAtEnd(cmp, e, s[1..]);
      assert s == [s[0]] + s[1..];
    }
  }

  /** Two strictly sorted arrangements of the same pairs are equal: the
      result of a stable sort does not depend on the sorting algorithm. */
  lemma {:induction false} StrictlySortedUnique<T(!new)>(cmp: (T, T) -> int, a: seq<Meta<T>>, b: seq<Meta<T>>)
    requires TotalPreorder(cmp)
    requires StrictlySorted(cmp, a) && StrictlySorted(cmp, b)
    requires multiset(a) == multiset(b)
    ensures a == b
  {
    if a == [] {
      assert |b| == |multiset(b)| == 0;
    } else {
      SameHead(cmp, a, b);
      SameTail(a, b);
      StrictlySortedUnique(cmp, a[1..], b[1..]);
    }
  }

  /** Two strictly sorted arrangements of the same pairs start alike. */
  lemma SameHead<T(!new)>(cmp: (T, T) -> int, a: seq<Meta<T>>, b: seq<Meta<T>>)
    requires TotalPreorder(cmp)
    requires StrictlySorted(cmp, a) && StrictlySorted(cmp, b)
    requires multiset(a) == multiset(b) && a != []
    ensures b != [] && b[0] == a[0]
  {
    assert |b| == |multiset(b)| > 0;
    assert a[0] in multiset(b);
    var k :| 0 <= k < |b| && b[k] == a[0];
    assert b[0] in multiset(a);
    var m :| 0 <= m < |a| && a[m] == b[0];
    if k > 0 {
      if m > 0 {
        BeforeAsymmetric(cmp, a[0], a[m]);
      }
      assert false;
    }
  }

  /** Equal heads of equal multisets leave equal multisets of tails. */
  lemma SameTail<T>(a: seq<T>, b: seq<T>)
    requires a != [] && b != [] && a[0] == b[0]
    requires multiset(a) == multiset(b)
    ensures multiset(a[1..]) == multiset(b[1..])
  {
    assert a == [a[0]] + a[1..];
    assert b == [b[0]] + b[1..];
    assert multiset(a[1..]) == multiset(a) - multiset{a[0]};
    assert multiset(b[1..]) == multiset(b) - multiset{b[0]};
  }

  /** The pairs of a list are strictly sorted exactly when the list is sorted. */
  lemma EnumerateSorted<T>(cmp: (T, T) -> int, xs: seq<T>)
    ensures StrictlySorted(cmp, Enumerate(xs)) <==> Sorted(cmp, xs)
  {
    var ms := Enumerate(xs);
    if Sorted(cmp, xs) {
      forall i, j | 0 <= i < j < |ms|
        ensures Before(cmp, ms[i], ms[j])
      {
      }
    }
    if StrictlySorted(cmp, ms) {
      forall i, j | 0 <= i < j < |xs|
        ensures cmp(xs[i], xs[j]) <= 0
      {
        assert Before(cmp, ms[i], ms[j]);
      }
    }
  }

  /** The items of strictly sorted pairs are sorted. */
  lemma ItemsSorted<T>(cmp: (T, T) -> int, ms: seq<Meta<T>>)
    requires StrictlySorted(cmp, ms)
    ensures Sorted(cmp, Items(ms))
  {
    forall i, j | 0 <= i < j < |ms|
      ensures cmp(Items(ms)[i], Items(ms)[j]) <= 0
    {
      assert Before(cmp, ms[i], ms[j]);
    }
  }

  /** The stable sort of a list: a sorted permutation of it. */
  lemma SortCorrect<T(!new)>(cmp: (T, T) -> int, xs: seq<T>)
    requires TotalPreorder(cmp)
    ensures Sorted(cmp, Sort(cmp, xs))
    ensures multiset(Sort(cmp, xs)) == multiset(xs)
    ensures StrictlySorted(cmp, SortMeta(cmp, Enumerate(xs)))
    ensures multiset(SortMeta(cmp, Enumerate(xs))) == multiset(Enumerate(xs))
  {
    var ms := Enumerate(xs);
    SortMetaCorrect(cmp, ms);
    ItemsSorted(cmp, SortMeta(cmp, ms));
    assert Items(ms) == xs;
  }

  /** Any arrangement of a list's (item, index) pairs that is strictly
      ordered by (comparator, index) is the one `Sort` returns: every stable
      sort agrees with this one. */
  lemma StableSortUnique<T(!new)>(cmp: (T, T) -> int, xs: seq<T>, ms: seq<Meta<T>>)
    requires TotalPreorder(cmp)
    requires StrictlySorted(cmp, ms) && multiset(ms) == multiset(Enumerate(xs))
    ensures ms == SortMeta(cmp, Enumerate(xs))
    ensures Items(ms) == Sort(cmp, xs)
  {
    SortCorrect(cmp, xs);
    StrictlySortedUnique(cmp, ms, SortMeta(cmp, Enumerate(xs)));
  }

  /** Sorting a sorted list returns it unchanged, with every pair in place. */
  lemma SortOfSorted<T(!new)>(cmp: (T, T) -> int, xs: seq<T>)
    requires TotalPreorder(cmp)
    requires Sorted(cmp, xs)
    ensures SortMeta(cmp, Enumerate(xs)) == Enumerate(xs)
    ensures Sort(cmp, xs) == xs
  {
    EnumerateSorted(cmp, xs);
    SortMetaOfSorted(cmp, Enumerate(xs));
  }

  /** Every sorted pair names its element's position in the input. */
  lemma SortedPairsInRange<T(!new)>(cmp: (T, T) -> int, xs: seq<T>)
    requires TotalPreorder(cmp)
    ensures var meta := SortMeta(cmp, Enumerate(xs));
      |meta| == |xs| &&
      forall k :: 0 <= k < |meta| ==> meta[k].index < |xs| && meta[k].item == xs[meta[k].index]
  {
    var ms := Enumerate(xs);
    SortMetaCorrect(cmp, ms);
    var meta := SortMeta(cmp, ms);
    assert |meta| == |multiset(meta)| == |multiset(ms)| == |xs|;
    forall k | 0 <= k < |meta|
      ensures meta[k].index < |xs| && meta[k].item == xs[meta[k].index]
    {
      assert meta[k] in multiset(ms);
    }
  }
}
