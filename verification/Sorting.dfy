/** Sorting by a strict order, and keeping the first item for each key. */
module Sorting {
  ghost predicate StrictOrder<T(!new)>(less: (T, T) -> bool) {
    && (forall a :: !less(a, a))
    && forall a, b, c :: less(a, b) && less(b, c) ==> less(a, c)
  }

  predicate Ascending<T>(items: seq<T>, less: (T, T) -> bool) {
    forall i, j | 0 <= i < j < |items| :: less(items[i], items[j])
  }

  /** The order decides between any two of the items. */
  predicate Comparable<T>(items: seq<T>, less: (T, T) -> bool) {
    forall i, j | 0 <= i < j < |items| :: less(items[i], items[j]) || less(items[j], items[i])
  }

  function Inserted<T>(sorted: seq<T>, item: T, less: (T, T) -> bool): seq<T> {
    if sorted == [] then [item]
    else
      var last := sorted[|sorted| - 1];
      if less(item, last) then Inserted(sorted[..|sorted| - 1], item, less) + [last] else sorted + [item]
  }

  function Sorted<T>(items: seq<T>, less: (T, T) -> bool): seq<T> {
    if items == [] then [] else Inserted(Sorted(items[..|items| - 1], less), items[|items| - 1], less)
  }

  lemma AscendingSnoc<T>(front: seq<T>, last: T, less: (T, T) -> bool)
    requires Ascending(front, less) && forall x | x in front :: less(x, last)
    ensures Ascending(front + [last], less)
  {
  }

  lemma AscendingSplit<T>(sorted: seq<T>, front: seq<T>, last: T, less: (T, T) -> bool)
    requires Ascending(sorted, less) && sorted != [] && front == sorted[..|sorted| - 1] && last == sorted[|sorted| - 1]
    ensures Ascending(front, less) && sorted == front + [last] && forall x | x in front :: less(x, last)
  {
  }

  lemma {:induction false} InsertedHolds<T>(sorted: seq<T>, item: T, less: (T, T) -> bool)
    ensures multiset(Inserted(sorted, item, less)) == multiset(sorted) + multiset{item}
    ensures forall x :: x in Inserted(sorted, item, less) <==> x in sorted || x == item
    decreases |sorted|
  {
    if sorted != [] {
      var front, last := sorted[..|sorted| - 1], sorted[|sorted| - 1];
      assert sorted == front + [last];
      InsertedHolds(front, item, less);
    }
  }

  lemma {:induction false} InsertedIs<T(!new)>(sorted: seq<T>, item: T, less: (T, T) -> bool)
    requires StrictOrder(less) && Ascending(sorted, less)
    requires forall x | x in sorted :: less(x, item) || less(item, x)
    ensures Ascending(Inserted(sorted, item, less), less)
    decreases |sorted|
  {
    if sorted != [] {
      var front, last := sorted[..|sorted| - 1], sorted[|sorted| - 1];
      AscendingSplit(sorted, front, last, less);
      if less(item, last) {
        InsertedIs(front, item, less);
        InsertedHolds(front, item, less);
        AscendingSnoc(Inserted(front, item, less), last, less);
      } else {
        AscendingSnoc(sorted, item, less);
      }
    }
  }

  /** Sorting arranges the items in ascending order. */
  lemma {:induction false} SortedIs<T(!new)>(items: seq<T>, less: (T, T) -> bool)
    requires StrictOrder(less) && Comparable(items, less)
    ensures Ascending(Sorted(items, less), less) && multiset(Sorted(items, less)) == multiset(items)
    decreases |items|
  {
    if items != [] {
      var front, last := items[..|items| - 1], items[|items| - 1];
      assert items == front + [last];
      SortedIs(front, less);
      forall x | x in Sorted(front, less)
        ensures less(x, last) || less(last, x)
      {
        assert x in multiset(front);
        var i :| 0 <= i < |front| && front[i] == x;
        assert items[i] == x;
      }
      InsertedIs(Sorted(front, less), last, less);
      InsertedHolds(Sorted(front, less), last, less);
    }
  }

  lemma SameLast<T(!new)>(a: seq<T>, b: seq<T>, less: (T, T) -> bool)
    requires StrictOrder(less) && Ascending(a, less) && Ascending(b, less) && multiset(a) == multiset(b)
    requires a != [] && b != []
    ensures a[|a| - 1] == b[|b| - 1]
  {
    var (la, lb) := (a[|a| - 1], b[|b| - 1]);
    assert la in multiset(b) && lb in multiset(a);
    var i :| 0 <= i < |b| && b[i] == la;
    var j :| 0 <= j < |a| && a[j] == lb;
    assert la == lb || (less(la, lb) && less(lb, la));
  }

  lemma FrontMultiset<T>(a: seq<T>)
    requires a != []
    ensures multiset(a[..|a| - 1]) == multiset(a) - multiset{a[|a| - 1]}
  {
    assert a == a[..|a| - 1] + [a[|a| - 1]];
  }

  /** An ascending arrangement of the same items is the only one. */
  lemma {:induction false} AscendingUnique<T(!new)>(a: seq<T>, b: seq<T>, less: (T, T) -> bool)
    requires StrictOrder(less) && Ascending(a, less) && Ascending(b, less) && multiset(a) == multiset(b)
    ensures a == b
    decreases |a|
  {
    assert |multiset(a)| == |a| && |multiset(b)| == |b|;
    if a != [] {
      SameLast(a, b, less);
      FrontMultiset(a);
      FrontMultiset(b);
      AscendingSplit(a, a[..|a| - 1], a[|a| - 1], less);
      AscendingSplit(b, b[..|b| - 1], b[|b| - 1], less);
      AscendingUnique(a[..|a| - 1], b[..|b| - 1], less);
    }
  }

  /** So sorting does not depend on the order in which the items come. */
  lemma SortedIgnoresOrder<T(!new)>(a: seq<T>, b: seq<T>, less: (T, T) -> bool)
    requires StrictOrder(less) && Comparable(a, less) && Comparable(b, less) && multiset(a) == multiset(b)
    ensures Sorted(a, less) == Sorted(b, less)
  {
    SortedIs(a, less);
    SortedIs(b, less);
    AscendingUnique(Sorted(a, less), Sorted(b, less), less);
  }

  /** What is in order stays as it is. */
  lemma {:induction false} AscendingStays<T(!new)>(items: seq<T>, less: (T, T) -> bool)
    requires StrictOrder(less) && Ascending(items, less)
    ensures Sorted(items, less) == items
  {
    if items != [] {
      var front, last := items[..|items| - 1], items[|items| - 1];
      AscendingStays(front, less);
      assert items == front + [last];
      if front != [] {
        assert less(front[|front| - 1], last);
      }
    }
  }

  // ---- The first item for each key ----

  datatype Parted<T> = Parted(kept: seq<T>, dropped: seq<T>)

  predicate HasKeyOf<T, K(==)>(items: seq<T>, item: T, key: T -> K) {
    exists i | 0 <= i < |items| :: key(items[i]) == key(item)
  }

  /** The items taken one after another: kept, or dropped when one with the same key was kept before. */
  function FirstPerKey<T, K(==)>(items: seq<T>, key: T -> K): Parted<T> {
    if items == [] then Parted([], [])
    else
      var before := FirstPerKey(items[..|items| - 1], key);
      var item := items[|items| - 1];
      if HasKeyOf(before.kept, item, key) then before.(dropped := before.dropped + [item])
      else before.(kept := before.kept + [item])
  }

  predicate KeysDiffer<T, K(==)>(items: seq<T>, key: T -> K) {
    forall i, j | 0 <= i < j < |items| :: key(items[i]) != key(items[j])
  }

  lemma {:induction false} FirstPerKeyParts<T, K>(items: seq<T>, key: T -> K)
    ensures var r := FirstPerKey(items, key);
            multiset(items) == multiset(r.kept) + multiset(r.dropped) && KeysDiffer(r.kept, key)
  {
    if items != [] {
      var front, item := items[..|items| - 1], items[|items| - 1];
      FirstPerKeyParts(front, key);
      assert items == front + [item];
      OneMore(FirstPerKey(front, key), item, key);
    }
  }

  lemma OneMore<T, K>(before: Parted<T>, item: T, key: T -> K)
    requires KeysDiffer(before.kept, key)
    ensures !HasKeyOf(before.kept, item, key) ==> KeysDiffer(before.kept + [item], key)
  {
  }

  /** What is dropped is represented by what is kept: the item with its key that comes first. */
  ghost predicate Precedes<T>(items: seq<T>, a: T, b: T) {
    exists i, j | 0 <= i < j < |items| :: items[i] == a && items[j] == b
  }

  ghost predicate RepresentedBy<T, K>(items: seq<T>, kept: seq<T>, item: T, key: T -> K) {
    exists k | 0 <= k < |kept| :: key(kept[k]) == key(item) && Precedes(items, kept[k], item)
  }

  lemma PrecedesGrows<T>(items: seq<T>, front: seq<T>, a: T, b: T)
    requires items != [] && front == items[..|items| - 1]
    requires Precedes(front, a, b) || (a in front && b == items[|items| - 1])
    ensures Precedes(items, a, b)
  {
    if Precedes(front, a, b) {
      var i, j :| 0 <= i < j < |front| && front[i] == a && front[j] == b;
      assert items[i] == a && items[j] == b;
    } else {
      var i :| 0 <= i < |front| && front[i] == a;
      assert items[i] == a && items[|items| - 1] == b;
    }
  }

  lemma {:induction false} DroppedAreRepresented<T, K>(items: seq<T>, key: T -> K)
    ensures var r := FirstPerKey(items, key);
            forall k | 0 <= k < |r.dropped| :: RepresentedBy(items, r.kept, r.dropped[k], key)
  {
    if items != [] {
      var front, item := items[..|items| - 1], items[|items| - 1];
      var before, r := FirstPerKey(front, key), FirstPerKey(items, key);
      DroppedAreRepresented(front, key);
      FirstPerKeyParts(front, key);
      forall k | 0 <= k < |r.dropped|
        ensures RepresentedBy(items, r.kept, r.dropped[k], key)
      {
        var l: nat;
        if k < |before.dropped| {
          assert RepresentedBy(front, before.kept, before.dropped[k], key);
          l :| 0 <= l < |before.kept| && key(before.kept[l]) == key(r.dropped[k])
            && Precedes(front, before.kept[l], r.dropped[k]);
        } else {
          l :| 0 <= l < |before.kept| && key(before.kept[l]) == key(item);
          assert before.kept[l] in multiset(front);
        }
        PrecedesGrows(items, front, before.kept[l], r.dropped[k]);
        assert r.kept[l] == before.kept[l];
      }
    }
  }

  /** The loop of the source, with its set of keys. */
  method KeepFirst<T, K(==)>(items: seq<T>, key: T -> K) returns (r: Parted<T>)
    ensures r == FirstPerKey(items, key)
  {
    var kept, dropped := [], [];
    var seen: set<K> := {};
    for i := 0 to |items|
      invariant Parted(kept, dropped) == FirstPerKey(items[..i], key)
      invariant forall j | 0 <= j < |kept| :: key(kept[j]) in seen
      invariant forall k | k in seen :: exists j | 0 <= j < |kept| :: key(kept[j]) == k
    {
      var item := items[i];
      assert items[..i + 1][..i] == items[..i] && items[..i + 1][i] == item;
      if key(item) in seen {
        dropped := dropped + [item];
      } else {
        ghost var before := kept;
        seen, kept := seen + {key(item)}, kept + [item];
        assert forall j | 0 <= j < |before| :: kept[j] == before[j];
        assert kept[|before|] == item;
      }
    }
    assert items[..|items|] == items;
    r := Parted(kept, dropped);
  }

  /** Every item is kept, or another one with its key. */
  lemma {:induction false} EveryKeyIsKept<T, K>(items: seq<T>, key: T -> K)
    ensures forall i | 0 <= i < |items| :: HasKeyOf(FirstPerKey(items, key).kept, items[i], key)
  {
    if items != [] {
      var front, last := items[..|items| - 1], items[|items| - 1];
      var before, kept := FirstPerKey(front, key).kept, FirstPerKey(items, key).kept;
      EveryKeyIsKept(front, key);
      forall i | 0 <= i < |items|
        ensures HasKeyOf(kept, items[i], key)
      {
        if i < |front| || HasKeyOf(before, last, key) {
          assert items[i] == if i < |front| then front[i] else last;
          var k :| 0 <= k < |before| && key(before[k]) == key(items[i]);
          assert kept[k] == before[k];
        } else {
          assert kept[|before|] == last;
        }
      }
    }
  }

  predicate KeyBefore<T, K(==)>(items: seq<T>, j: nat, key: T -> K)
    requires j < |items|
  {
    exists i | 0 <= i < j :: key(items[i]) == key(items[j])
  }

  /** An item is dropped exactly when one with its key comes before it. */
  lemma {:induction false} DroppedIff<T, K>(items: seq<T>, j: nat, key: T -> K)
    requires j < |items| && forall i, k | 0 <= i < k < |items| :: items[i] != items[k]
    ensures items[j] in FirstPerKey(items, key).dropped <==> KeyBefore(items, j, key)
  {
    var front, last := items[..|items| - 1], items[|items| - 1];
    var before, r := FirstPerKey(front, key), FirstPerKey(items, key);
    FirstPerKeyParts(front, key);
    if j < |front| {
      assert items[j] == front[j];
      DroppedIff(front, j, key);
      assert KeyBefore(front, j, key) <==> KeyBefore(items, j, key) by {
        assert forall i | 0 <= i < |front| :: front[i] == items[i];
      }
    } else {
      assert last !in front;
      assert last !in before.dropped by {
        assert forall x | x in before.dropped :: x in multiset(front);
      }
      LastIsDropped(items, front, before.kept, key);
    }
  }

  lemma LastIsDropped<T, K>(items: seq<T>, front: seq<T>, kept: seq<T>, key: T -> K)
    requires items != [] && front == items[..|items| - 1] && kept == FirstPerKey(front, key).kept
    ensures HasKeyOf(kept, items[|items| - 1], key) <==> KeyBefore(items, |items| - 1, key)
  {
    var last := items[|items| - 1];
    EveryKeyIsKept(front, key);
    FirstPerKeyParts(front, key);
    if HasKeyOf(kept, last, key) {
      var k :| 0 <= k < |kept| && key(kept[k]) == key(last);
      assert kept[k] in multiset(front);
      var i :| 0 <= i < |front| && front[i] == kept[k];
      assert key(items[i]) == key(last);
    }
    if KeyBefore(items, |items| - 1, key) {
      var i :| 0 <= i < |items| - 1 && key(items[i]) == key(last);
      assert HasKeyOf(kept, front[i], key);
      var k :| 0 <= k < |kept| && key(kept[k]) == key(front[i]);
      assert key(kept[k]) == key(last);
    }
  }

  // ---- Parts of items with different keys ----

  lemma TwiceAt<T>(items: seq<T>, i: nat, j: nat)
    requires i < j < |items| && items[i] == items[j]
    ensures multiset(items)[items[i]] >= 2
  {
    var front, rest := items[..j], items[j..];
    assert items == front + rest;
    assert front[i] == items[i] && rest[0] == items[j];
    assert multiset(front)[items[i]] >= 1 && multiset(rest)[items[i]] >= 1;
  }

  lemma {:induction false} OnceOnly<T, K>(items: seq<T>, x: T, key: T -> K)
    requires KeysDiffer(items, key)
    ensures multiset(items)[x] <= 1
  {
    if items != [] {
      var front, last := items[..|items| - 1], items[|items| - 1];
      assert items == front + [last];
      assert forall i | 0 <= i < |front| :: front[i] == items[i];
      OnceOnly(front, x, key);
      forall i | 0 <= i < |front|
        ensures front[i] != last
      {
        assert key(items[i]) != key(items[|items| - 1]);
      }
    }
  }

  /** Some of the items, in whatever order, have different keys too. */
  lemma PartDiffers<T, K>(items: seq<T>, part: seq<T>, key: T -> K)
    requires KeysDiffer(items, key) && multiset(part) <= multiset(items)
    ensures KeysDiffer(part, key)
  {
    forall i, j | 0 <= i < j < |part|
      ensures key(part[i]) != key(part[j])
    {
      assert part[i] in multiset(part) && part[j] in multiset(part);
      assert part[i] in multiset(items) && part[j] in multiset(items);
      var k :| 0 <= k < |items| && items[k] == part[i];
      var l :| 0 <= l < |items| && items[l] == part[j];
      if k == l {
        TwiceAt(part, i, j);
        OnceOnly(items, part[i], key);
      } else {
        assert key(items[if k < l then k else l]) != key(items[if k < l then l else k]);
      }
    }
  }

  // ---- Changing every item ----

  function Mapped<T, U>(items: seq<T>, f: T -> U): (r: seq<U>)
    ensures |r| == |items| && forall i | 0 <= i < |items| :: r[i] == f(items[i])
  {
    if items == [] then [] else Mapped(items[..|items| - 1], f) + [f(items[|items| - 1])]
  }

  function Without<T>(items: seq<T>, i: nat): seq<T>
    requires i < |items|
  {
    var front, last := items[..|items| - 1], items[|items| - 1];
    if i == |front| then front else Without(front, i) + [last]
  }

  lemma {:induction false} WithoutMultiset<T>(items: seq<T>, i: nat)
    requires i < |items|
    ensures multiset(Without(items, i)) == multiset(items) - multiset{items[i]}
    ensures items[i] in multiset(items)
  {
    var front := items[..|items| - 1];
    assert items == front + [items[|items| - 1]];
    if i < |front| {
      WithoutMultiset(front, i);
    }
  }

  lemma {:induction false} MappedWithout<T, U>(items: seq<T>, i: nat, f: T -> U)
    requires i < |items|
    ensures Mapped(Without(items, i), f) == Without(Mapped(items, f), i)
  {
    var front, last := items[..|items| - 1], items[|items| - 1];
    assert Mapped(items, f)[..|front|] == Mapped(front, f);
    if i < |front| {
      MappedWithout(front, i, f);
      assert (Without(front, i) + [last])[..|Without(front, i)|] == Without(front, i);
    }
  }

  lemma SameWithout<U>(a: multiset<U>, b: multiset<U>, x: U)
    requires x in a && x in b && a - multiset{x} == b - multiset{x}
    ensures a == b
  {
    assert a == a - multiset{x} + multiset{x} && b == b - multiset{x} + multiset{x};
  }

  lemma {:induction false} MappedPermuted<T, U>(a: seq<T>, b: seq<T>, f: T -> U)
    requires multiset(a) == multiset(b)
    ensures multiset(Mapped(a, f)) == multiset(Mapped(b, f))
    decreases |a|
  {
    if a == [] {
      assert |multiset(b)| == |b|;
    } else {
      var i := |a| - 1;
      assert a[i] in multiset(b);
      var j :| 0 <= j < |b| && b[j] == a[i];
      WithoutMultiset(a, i);
      WithoutMultiset(b, j);
      MappedPermuted(Without(a, i), Without(b, j), f);
      MappedWithout(a, i, f);
      MappedWithout(b, j, f);
      WithoutMultiset(Mapped(a, f), i);
      WithoutMultiset(Mapped(b, f), j);
      SameWithout(multiset(Mapped(a, f)), multiset(Mapped(b, f)), f(a[i]));
    }
  }
}
