/**
 * The sort step of the catalog listing (HomePage.tsx): `result.sort(cmp)` on the filtered
 * array, which JavaScript performs in place and stably. The comparators are
 * `a.price - b.price`, `b.price - a.price` and `b.rating - a.rating`.
 */
module ProductSort {
  import opened Types

  datatype SortKey = Featured | PriceLowToHigh | PriceHighToLow | TopRated

  /** The `sortBy` select's value; any text but the three sort labels leaves catalog order. */
  function ParseSortKey(s: string): (k: SortKey)
    ensures k == PriceLowToHigh <==> s == "Price: Low to High"
    ensures k == PriceHighToLow <==> s == "Price: High to Low"
    ensures k == TopRated <==> s == "Top Rated"
  {
    if s == "Price: Low to High" then PriceLowToHigh
    else if s == "Price: High to Low" then PriceHighToLow
    else if s == "Top Rated" then TopRated
    else Featured
  }

  /** The number the key sorts on. */
  function KeyValue(k: SortKey, p: Product): real {
    if k == TopRated then p.rating else p.price
  }

  /** `a` may stay before `b`: the comparator's value for (a, b) is at most 0. */
  predicate InOrder(k: SortKey, a: Product, b: Product) {
    match k
    case Featured => true
    case PriceLowToHigh => a.price - b.price <= 0.0
    case PriceHighToLow => b.price - a.price <= 0.0
    case TopRated => b.rating - a.rating <= 0.0
  }

  predicate SortedBy(k: SortKey, s: seq<Product>) {
    forall i, j :: 0 <= i < j < |s| ==> InOrder(k, s[i], s[j])
  }

  function Pick(k: SortKey, e: Product, v: real): seq<Product> {
    if KeyValue(k, e) == v then [e] else []
  }

  /** The products of `s` whose sort value is `v`, in `s`'s order. */
  function EqualKey(k: SortKey, s: seq<Product>, v: real): seq<Product>
    decreases |s|
  {
    if s == [] then [] else EqualKey(k, s[..|s| - 1], v) + Pick(k, s[|s| - 1], v)
  }

  lemma EqualKeySnoc(k: SortKey, s: seq<Product>, e: Product, v: real)
    ensures EqualKey(k, s + [e], v) == EqualKey(k, s, v) + Pick(k, e, v)
  {
    assert (s + [e])[..|s|] == s;
  }

  /**
   * Stable insertion of `x` into `t`: `x` goes after every element it does not precede,
   * so it lands after the elements with an equal sort value.
   */
  function Insert(k: SortKey, t: seq<Product>, x: Product): seq<Product>
    decreases |t|
  {
    if t == [] || InOrder(k, t[|t| - 1], x) then t + [x]
    else Insert(k, t[..|t| - 1], x) + [t[|t| - 1]]
  }

  /** The stable sort that `Array.prototype.sort` performs, written as repeated insertion. */
  function StableSort(k: SortKey, s: seq<Product>): seq<Product>
    decreases |s|
  {
    if s == [] then [] else Insert(k, StableSort(k, s[..|s| - 1]), s[|s| - 1])
  }

  /** The comparators of the three sort keys are total preorders. */
  lemma InOrderTotal(k: SortKey, a: Product, b: Product)
    ensures InOrder(k, a, b) || InOrder(k, b, a)
  {
  }

  lemma InOrderTransitive(k: SortKey, a: Product, b: Product, c: Product)
    requires InOrder(k, a, b) && InOrder(k, b, c)
    ensures InOrder(k, a, c)
  {
  }

  lemma SortedSnoc(k: SortKey, t: seq<Product>, x: Product)
    requires SortedBy(k, t)
    requires forall e :: e in t ==> InOrder(k, e, x)
    ensures SortedBy(k, t + [x])
  {
    forall i, j | 0 <= i < j < |t + [x]|
      ensures InOrder(k, (t + [x])[i], (t + [x])[j])
    {
      if j == |t| {
        assert t[i] in t;
      }
    }
  }

  /** Insertion adds exactly `x` and keeps a sorted sequence sorted. */
  lemma {:induction false} InsertPermutes(k: SortKey, t: seq<Product>, x: Product)
    ensures multiset(Insert(k, t, x)) == multiset(t) + multiset{x}
    decreases |t|
  {
    if !(t == [] || InOrder(k, t[|t| - 1], x)) {
      var init, last := t[..|t| - 1], t[|t| - 1];
      assert t == init + [last];
      InsertPermutes(k, init, x);
    }
  }

  lemma {:induction false} InsertSorted(k: SortKey, t: seq<Product>, x: Product)
    requires SortedBy(k, t)
    ensures SortedBy(k, Insert(k, t, x))
    decreases |t|
  {
    if t == [] || InOrder(k, t[|t| - 1], x) {
      forall e | e in t
        ensures InOrder(k, e, x)
      {
        var i :| 0 <= i < |t| && t[i] == e;
        if i < |t| - 1 {
          InOrderTransitive(k, e, t[|t| - 1], x);
        }
      }
      SortedSnoc(k, t, x);
    } else {
      var init, last := t[..|t| - 1], t[|t| - 1];
      assert SortedBy(k, init) by {
        forall i, j | 0 <= i < j < |init|
          ensures InOrder(k, init[i], init[j])
        {
          assert init[i] == t[i] && init[j] == t[j];
        }
      }
      InsertSorted(k, init, x);
      InsertPermutes(k, init, x);
      var r := Insert(k, init, x);
      InOrderTotal(k, last, x);
      forall e | e in r
        ensures InOrder(k, e, last)
      {
        assert e in multiset(r);
        if e != x {
          var i :| 0 <= i < |init| && init[i] == e;
          assert t[i] == e;
        }
      }
      SortedSnoc(k, r, last);
    }
  }

  lemma {:induction false} StableSortSorts(k: SortKey, s: seq<Product>)
    ensures multiset(StableSort(k, s)) == multiset(s)
    ensures SortedBy(k, StableSort(k, s))
    decreases |s|
  {
    if s != [] {
      var init, last := s[..|s| - 1], s[|s| - 1];
      assert s == init + [last];
      StableSortSorts(k, init);
      InsertPermutes(k, StableSort(k, init), last);
      InsertSorted(k, StableSort(k, init), last);
    }
  }

  lemma {:induction false} InsertKeepsEqualKeyOrder(k: SortKey, t: seq<Product>, x: Product, v: real)
    ensures EqualKey(k, Insert(k, t, x), v) == EqualKey(k, t, v) + Pick(k, x, v)
    decreases |t|
  {
    if t == [] || InOrder(k, t[|t| - 1], x) {
      EqualKeySnoc(k, t, x, v);
    } else {
      var init, last := t[..|t| - 1], t[|t| - 1];
      assert t == init + [last];
      assert Insert(k, t, x) == Insert(k, init, x) + [last];
      assert KeyValue(k, last) != KeyValue(k, x);
      InsertKeepsEqualKeyOrder(k, init, x, v);
      EqualKeySnoc(k, Insert(k, init, x), last, v);
      EqualKeySnoc(k, init, last, v);
    }
  }

  /** Stability: products with equal sort values keep their relative order. */
  lemma {:induction false} StableSortIsStable(k: SortKey, s: seq<Product>, v: real)
    ensures EqualKey(k, StableSort(k, s), v) == EqualKey(k, s, v)
    decreases |s|
  {
    if s != [] {
      var init, last := s[..|s| - 1], s[|s| - 1];
      assert s == init + [last];
      assert StableSort(k, s) == Insert(k, StableSort(k, init), last);
      StableSortIsStable(k, init, v);
      InsertKeepsEqualKeyOrder(k, StableSort(k, init), last, v);
      EqualKeySnoc(k, init, last, v);
    }
  }

  /** Under 'Featured' nothing is reordered. */
  lemma {:induction false} FeaturedKeepsOrder(s: seq<Product>)
    ensures StableSort(Featured, s) == s
    decreases |s|
  {
    if s != [] {
      FeaturedKeepsOrder(s[..|s| - 1]);
      assert s == s[..|s| - 1] + [s[|s| - 1]];
    }
  }

  /** One step of the insertion loop: `o[j - 1]` goes after `x`, so it joins the moved tail. */
  lemma InsertLoopStep(k: SortKey, o: seq<Product>, i: int, j: int, x: Product)
    requires 0 < j <= i <= |o| && !InOrder(k, o[j - 1], x)
    requires Insert(k, o[..i], x) == Insert(k, o[..j], x) + o[j..i]
    ensures Insert(k, o[..i], x) == Insert(k, o[..j - 1], x) + o[j - 1..i]
  {
    assert o[..j][..j - 1] == o[..j - 1];
    assert o[j - 1..i] == [o[j - 1]] + o[j..i];
  }

  lemma StableSortPrefix(k: SortKey, s: seq<Product>, i: int)
    requires 0 <= i < |s|
    ensures StableSort(k, s[..i + 1]) == Insert(k, StableSort(k, s[..i]), s[i])
  {
    assert s[..i + 1][..i] == s[..i];
  }

  /** The array contents while `o[i]` is lifted out and `o[j..i]` has moved one slot right. */
  ghost function Shifted(o: seq<Product>, j: int, i: int): seq<Product>
    requires 0 <= j <= i < |o|
  {
    o[..j + 1] + o[j..i] + o[i + 1..]
  }

  lemma ShiftedStart(o: seq<Product>, i: int)
    requires 0 <= i < |o|
    ensures Shifted(o, i, i) == o
  {
    assert o[..i + 1] + o[i + 1..] == o;
  }

  lemma ShiftStep(o: seq<Product>, j: int, i: int)
    requires 0 < j <= i < |o|
    ensures |Shifted(o, j, i)| == |o| && Shifted(o, j, i)[j - 1] == o[j - 1]
    ensures Shifted(o, j, i)[j := o[j - 1]] == Shifted(o, j - 1, i)
  {
    var s := Shifted(o, j, i);
    var t := Shifted(o, j - 1, i);
    assert |s| == |t| == |o|;
    forall m | 0 <= m < |o|
      ensures s[j := o[j - 1]][m] == t[m]
    {
      if m <= j {
      } else if m <= i {
        assert s[m] == o[m - 1] && t[m] == o[m - 1];
      } else {
        assert s[m] == o[m] && t[m] == o[m];
      }
    }
  }

  /** When the insertion loop stops, writing `x` into the gap yields the inserted prefix. */
  lemma ShiftDone(k: SortKey, o: seq<Product>, j: int, i: int, x: Product)
    requires 0 <= j <= i < |o| && (j == 0 || InOrder(k, o[j - 1], x))
    requires Insert(k, o[..i], x) == Insert(k, o[..j], x) + o[j..i]
    ensures Shifted(o, j, i)[j := x][..i + 1] == Insert(k, o[..i], x)
    ensures Shifted(o, j, i)[j := x][i + 1..] == o[i + 1..]
  {
    assert Insert(k, o[..j], x) == o[..j] + [x];
  }

  /** One pass of insertion: `a[i]` moves left past the elements it must precede. */
  method InsertAt(a: array<Product>, i: int, k: SortKey)
    requires 0 <= i < a.Length
    modifies a
    ensures a[..i + 1] == Insert(k, old(a[..i]), old(a[i]))
    ensures a[i + 1..] == old(a[i + 1..])
  {
    ghost var o := a[..];
    var x := a[i];
    var j := i;
    ShiftedStart(o, i);
    assert o[i..i] == [];
    while j > 0 && !InOrder(k, a[j - 1], x)
      invariant 0 <= j <= i
      invariant a[..] == Shifted(o, j, i)
      invariant Insert(k, o[..i], x) == Insert(k, o[..j], x) + o[j..i]
    {
      ShiftStep(o, j, i);
      InsertLoopStep(k, o, i, j, x);
      a[j] := a[j - 1];
      j := j - 1;
    }
    if j > 0 {
      ShiftStep(o, j, i);
    }
    ShiftDone(k, o, j, i, x);
    a[j] := x;
  }

  /** One round of the outer loop: after inserting `orig[i]`, the prefix of length `i + 1` is sorted. */
  lemma SortStep(k: SortKey, orig: seq<Product>, prev: seq<Product>, cur: seq<Product>, i: int)
    requires 0 <= i < |orig| == |prev| == |cur|
    requires prev[..i] == StableSort(k, orig[..i]) && prev[i..] == orig[i..]
    requires cur[..i + 1] == Insert(k, prev[..i], prev[i]) && cur[i + 1..] == prev[i + 1..]
    ensures cur[..i + 1] == StableSort(k, orig[..i + 1]) && cur[i + 1..] == orig[i + 1..]
  {
    assert prev[i] == prev[i..][0] == orig[i];
    assert prev[i + 1..] == prev[i..][1..] && orig[i + 1..] == orig[i..][1..];
    StableSortPrefix(k, orig, i);
  }

  /** `result.sort(cmp)`: sorts the array in place, stably, by the key's comparator. */
  method SortInPlace(a: array<Product>, k: SortKey)
    modifies a
    ensures a[..] == StableSort(k, old(a[..]))
  {
    ghost var orig := a[..];
    var i := 0;
    while i < a.Length
      invariant 0 <= i <= a.Length
      invariant a[..i] == StableSort(k, orig[..i])
      invariant a[i..] == orig[i..]
    {
      ghost var prev := a[..];
      InsertAt(a, i, k);
      SortStep(k, orig, prev, a[..], i);
      i := i + 1;
    }
    assert a[..] == a[..a.Length] && orig == orig[..a.Length];
  }
}
