/** Orders and sorting: what Go's `sort` package promises of a comparison. */
module Ordering {

  ghost predicate StrictWeakOrder<T(!new)>(less: (T, T) -> bool) {
    && (forall a :: !less(a, a))
    && (forall a, b, c :: less(a, b) && less(b, c) ==> less(a, c))
    && (forall a, b, c :: less(a, c) ==> less(a, b) || less(b, c))
  }

  ghost predicate Sorted<T>(s: seq<T>, less: (T, T) -> bool) {
    forall i, j :: 0 <= i < j < |s| ==> !less(s[j], s[i])
  }

  // ---- Strings, compared as Go compares them ----

  predicate StringLess(a: string, b: string) {
    b != "" && (a == "" || a[0] < b[0] || (a[0] == b[0] && StringLess(a[1..], b[1..])))
  }

  lemma {:induction false} StringLessTransitive(a: string, b: string, c: string)
    requires StringLess(a, b) && StringLess(b, c)
    ensures StringLess(a, c)
  {
    if a != "" && a[0] == b[0] == c[0] {
      StringLessTransitive(a[1..], b[1..], c[1..]);
    }
  }

  lemma {:induction false} StringLessTotal(a: string, b: string)
    ensures StringLess(a, b) || a == b || StringLess(b, a)
    ensures !(StringLess(a, b) && (a == b || StringLess(b, a)))
  {
    if a != "" && b != "" && a[0] == b[0] {
      StringLessTotal(a[1..], b[1..]);
      assert a == [a[0]] + a[1..] && b == [b[0]] + b[1..];
    }
  }

  /** a stands before b where they first differ, or is a proper prefix of it. */
  ghost predicate DiffersAt(a: string, b: string, k: nat) {
    && k <= |a| && k < |b| && a[..k] == b[..k] && (k < |a| ==> a[k] < b[k])
  }

  lemma {:induction false} StringLessExactly(a: string, b: string)
    ensures StringLess(a, b) <==> exists k: nat :: DiffersAt(a, b, k)
  {
    if b != "" {
      if a == "" || a[0] < b[0] {
        assert DiffersAt(a, b, 0);
      } else if a[0] == b[0] {
        StringLessExactly(a[1..], b[1..]);
        if StringLess(a, b) {
          var k: nat :| DiffersAt(a[1..], b[1..], k);
          assert a[..k + 1] == [a[0]] + a[1..][..k] && b[..k + 1] == [b[0]] + b[1..][..k];
          assert DiffersAt(a, b, k + 1);
        }
        if exists k: nat :: DiffersAt(a, b, k) {
          var k: nat :| DiffersAt(a, b, k);
          assert a[1..][..k - 1] == a[..k][1..] && b[1..][..k - 1] == b[..k][1..];
          assert DiffersAt(a[1..], b[1..], k - 1);
        }
      } else {
        forall k: nat
          ensures !DiffersAt(a, b, k)
        {
          assert 0 < k <= |a| && k < |b| ==> a[..k][0] == a[0] && b[..k][0] == b[0];
        }
      }
    }
  }

  // ---- Stable sorting ----

  /** Put x before everything it does not have to follow. */
  function Insert<T>(x: T, s: seq<T>, less: (T, T) -> bool): seq<T> {
    if s != [] && less(s[0], x) then [s[0]] + Insert(x, s[1..], less) else [x] + s
  }

  /** `sort.SliceStable`, for a strict weak order. */
  function StableSort<T>(s: seq<T>, less: (T, T) -> bool): seq<T> {
    if s == [] then [] else Insert(s[0], StableSort(s[1..], less), less)
  }

  lemma {:induction false} InsertPermutes<T>(x: T, s: seq<T>, less: (T, T) -> bool)
    ensures multiset(Insert(x, s, less)) == multiset{x} + multiset(s)
  {
    if s != [] && less(s[0], x) {
      InsertPermutes(x, s[1..], less);
      assert s == [s[0]] + s[1..];
    }
  }

  lemma {:induction false} StableSortPermutes<T>(s: seq<T>, less: (T, T) -> bool)
    ensures multiset(StableSort(s, less)) == multiset(s)
  {
    if s != [] {
      StableSortPermutes(s[1..], less);
      InsertPermutes(s[0], StableSort(s[1..], less), less);
      assert s == [s[0]] + s[1..];
    }
  }

  lemma {:induction false} InsertSorts<T(!new)>(x: T, s: seq<T>, less: (T, T) -> bool)
    requires StrictWeakOrder(less) && Sorted(s, less)
    ensures Sorted(Insert(x, s, less), less)
  {
    var r := Insert(x, s, less);
    if s != [] && less(s[0], x) {
      InsertSorts(x, s[1..], less);
      InsertPermutes(x, s[1..], less);
      forall j | 0 < j < |r|
        ensures !less(r[j], s[0])
      {
        assert r[j] == Insert(x, s[1..], less)[j - 1];
        assert r[j] in multiset(Insert(x, s[1..], less));
        assert r[j] == x || r[j] in s[1..];
      }
    } else {
      forall j | 0 < j < |r|
        ensures !less(r[j], x)
      {
        assert r[j] == s[j - 1];
      }
    }
  }

  lemma {:induction false} StableSortSorts<T(!new)>(s: seq<T>, less: (T, T) -> bool)
    requires StrictWeakOrder(less)
    ensures Sorted(StableSort(s, less), less)
  {
    if s != [] {
      StableSortSorts(s[1..], less);
      InsertSorts(s[0], StableSort(s[1..], less), less);
    }
  }

  /** The elements the order does not tell from x, in their order of appearance. */
  function Ties<T>(x: T, s: seq<T>, less: (T, T) -> bool): seq<T> {
    if s == [] then []
    else (if !less(x, s[0]) && !less(s[0], x) then [s[0]] else []) + Ties(x, s[1..], less)
  }

  lemma {:induction false} InsertKeepsTies<T(!new)>(x: T, y: T, s: seq<T>, less: (T, T) -> bool)
    requires StrictWeakOrder(less)
    ensures Ties(y, Insert(x, s, less), less) == Ties(y, [x] + s, less)
  {
    assert ([x] + s)[1..] == s;
    if s != [] && less(s[0], x) {
      InsertKeepsTies(x, y, s[1..], less);
      assert ([x] + s[1..])[1..] == s[1..];
      assert Insert(x, s, less)[1..] == Insert(x, s[1..], less);
      assert !(!less(y, x) && !less(x, y) && !less(y, s[0]) && !less(s[0], y));
    }
  }

  /** Sorting keeps equal elements in their original order. */
  lemma {:induction false} StableSortIsStable<T(!new)>(y: T, s: seq<T>, less: (T, T) -> bool)
    requires StrictWeakOrder(less)
    ensures Ties(y, StableSort(s, less), less) == Ties(y, s, less)
  {
    if s != [] {
      StableSortIsStable(y, s[1..], less);
      InsertKeepsTies(s[0], y, StableSort(s[1..], less), less);
      assert ([s[0]] + StableSort(s[1..], less))[1..] == StableSort(s[1..], less);
    }
  }

  /** Comparisons that agree on the elements sort alike. */
  lemma {:induction false} StableSortAgrees<T>(s: seq<T>, less: (T, T) -> bool, less': (T, T) -> bool)
    requires forall x, y :: x in s && y in s ==> less(x, y) == less'(x, y)
    ensures StableSort(s, less) == StableSort(s, less')
  {
    if s != [] {
      StableSortAgrees(s[1..], less, less');
      StableSortPermutes(s[1..], less);
      var rest := StableSort(s[1..], less);
      forall y | y in rest
        ensures y in s
      {
        assert y in multiset(rest);
      }
      InsertAgrees(s[0], rest, less, less');
    }
  }

  lemma {:induction false} InsertAgrees<T>(x: T, s: seq<T>, less: (T, T) -> bool, less': (T, T) -> bool)
    requires forall y :: y in s ==> less(y, x) == less'(y, x)
    ensures Insert(x, s, less) == Insert(x, s, less')
  {
    if s != [] && less(s[0], x) {
      InsertAgrees(x, s[1..], less, less');
    }
  }

  // ---- Comparisons that are an order only on the elements at hand ----

  ghost predicate StrictWeakOrderOn<T(!new)>(s: seq<T>, less: (T, T) -> bool) {
    && (forall a :: a in s ==> !less(a, a))
    && (forall a, b, c :: a in s && b in s && c in s && less(a, b) && less(b, c) ==> less(a, c))
    && (forall a, b, c :: a in s && b in s && c in s && less(a, c) ==> less(a, b) || less(b, c))
  }

  /** Everything else ties, after all of s. */
  ghost function Extended<T>(s: seq<T>, less: (T, T) -> bool): (T, T) -> bool {
    (a, b) => a in s && (b !in s || less(a, b))
  }

  lemma ExtendedIsWeak<T(!new)>(s: seq<T>, less: (T, T) -> bool)
    requires StrictWeakOrderOn(s, less)
    ensures StrictWeakOrder(Extended(s, less))
  {
  }

  lemma {:induction false} TiesAgree<T>(y: T, s: seq<T>, less: (T, T) -> bool, less': (T, T) -> bool)
    requires forall x :: x in s ==> less(x, y) == less'(x, y) && less(y, x) == less'(y, x)
    ensures Ties(y, s, less) == Ties(y, s, less')
  {
    if s != [] {
      TiesAgree(y, s[1..], less, less');
    }
  }

  /** The stable sort needs an order on its elements only. */
  lemma StableSortOn<T(!new)>(s: seq<T>, less: (T, T) -> bool)
    requires StrictWeakOrderOn(s, less)
    ensures Sorted(StableSort(s, less), less)
    ensures forall y :: y in s ==> Ties(y, StableSort(s, less), less) == Ties(y, s, less)
  {
    var less' := Extended(s, less);
    var r := StableSort(s, less);
    ExtendedIsWeak(s, less);
    StableSortAgrees(s, less, less');
    StableSortSorts(s, less');
    StableSortPermutes(s, less);
    forall x | x in r
      ensures x in s
    {
      assert x in multiset(r);
    }
    forall y | y in s
      ensures Ties(y, r, less) == Ties(y, s, less)
    {
      StableSortIsStable(y, s, less');
      TiesAgree(y, r, less, less');
      TiesAgree(y, s, less, less');
    }
  }

  /** For a strict weak order the stable sort is the only sorted arrangement that keeps ties in order. */
  lemma {:induction false} StableSortIsUnique<T(!new)>(s: seq<T>, r: seq<T>, less: (T, T) -> bool)
    requires StrictWeakOrder(less) && Sorted(r, less)
    requires multiset(r) == multiset(s) && forall y :: Ties(y, r, less) == Ties(y, s, less)
    ensures r == StableSort(s, less)
  {
    StableSortPermutes(s, less);
    StableSortSorts(s, less);
    var t := StableSort(s, less);
    forall y
      ensures Ties(y, r, less) == Ties(y, t, less)
    {
      StableSortIsStable(y, s, less);
    }
    SortedWithTies(r, t, less);
  }

  lemma {:induction false} SortedWithTies<T(!new)>(r: seq<T>, t: seq<T>, less: (T, T) -> bool)
    requires StrictWeakOrder(less) && Sorted(r, less) && Sorted(t, less)
    requires multiset(r) == multiset(t) && forall y :: Ties(y, r, less) == Ties(y, t, less)
    ensures r == t
  {
    assert |t| == |multiset(t)| == |multiset(r)| == |r|;
    if r != [] {
      SmallestFirst(r, t, less);
      SameHead(r, t, less);
      SameTails(r, t, less);
      SortedWithTies(r[1..], t[1..], less);
      assert r == [r[0]] + r[1..] && t == [t[0]] + t[1..];
    }
  }

  lemma SameTails<T(!new)>(r: seq<T>, t: seq<T>, less: (T, T) -> bool)
    requires r != [] && t != [] && r[0] == t[0]
    requires multiset(r) == multiset(t) && forall y :: Ties(y, r, less) == Ties(y, t, less)
    ensures multiset(r[1..]) == multiset(t[1..]) && forall y :: Ties(y, r[1..], less) == Ties(y, t[1..], less)
  {
    assert r == [r[0]] + r[1..] && t == [t[0]] + t[1..];
    assert multiset(r[1..]) == multiset(r) - multiset{r[0]};
    assert multiset(t[1..]) == multiset(t) - multiset{t[0]};
    forall y
      ensures Ties(y, r[1..], less) == Ties(y, t[1..], less)
    {
      TiesTail(y, r, less);
      TiesTail(y, t, less);
    }
  }

  lemma SmallestFirst<T(!new)>(r: seq<T>, t: seq<T>, less: (T, T) -> bool)
    requires StrictWeakOrder(less) && Sorted(r, less) && Sorted(t, less)
    requires r != [] && t != [] && multiset(r) == multiset(t)
    ensures !less(r[0], t[0]) && !less(t[0], r[0])
  {
    assert r[0] in multiset(t) && t[0] in multiset(r);
    var i :| 0 <= i < |t| && t[i] == r[0];
    var j :| 0 <= j < |r| && r[j] == t[0];
    assert i == 0 || !less(t[i], t[0]);
    assert j == 0 || !less(r[j], r[0]);
  }

  lemma SameHead<T(!new)>(r: seq<T>, t: seq<T>, less: (T, T) -> bool)
    requires StrictWeakOrder(less) && r != [] && t != []
    requires !less(r[0], t[0]) && !less(t[0], r[0])
    requires Ties(r[0], r, less) == Ties(r[0], t, less)
    ensures r[0] == t[0]
  {
    assert Ties(r[0], r, less)[0] == r[0];
    assert Ties(r[0], t, less)[0] == t[0];
  }

  lemma TiesTail<T>(y: T, s: seq<T>, less: (T, T) -> bool)
    requires s != []
    ensures Ties(y, s[1..], less)
         == if !less(y, s[0]) && !less(s[0], y) then Ties(y, s, less)[1..] else Ties(y, s, less)
  {
  }
}
