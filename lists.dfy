/**
 * The sequence operations the front-end lists are built from:
 * `Array.prototype.filter`, a stable sort by an integer key,
 * `Array.prototype.slice` and the page count `Math.ceil(n / size)`.
 */
module Lists {

  // ---------------------------------------------------------------------
  // Filtering

  /** `s` with its elements in order, some of them dropped. */
  predicate IsSubsequence<T(==,!new)>(r: seq<T>, s: seq<T>)
    decreases |s|
  {
    if r == [] then true
    else if s == [] then false
    else if r[0] == s[0] then IsSubsequence(r[1..], s[1..])
    else IsSubsequence(r, s[1..])
  }

  /** `s.filter(p)`. */
  function Filter<T(==,!new)>(s: seq<T>, p: T -> bool): (r: seq<T>)
    ensures |r| <= |s|
    ensures forall x :: x in r <==> x in s && p(x)
  {
    if s == [] then []
    else
      assert s == [s[0]] + s[1..];
      (if p(s[0]) then [s[0]] else []) + Filter(s[1..], p)
  }

  /** The filtered list keeps the order of the original. */
  lemma {:induction false} FilterIsSubsequence<T(!new)>(s: seq<T>, p: T -> bool)
    ensures IsSubsequence(Filter(s, p), s)
  {
    if s != [] {
      FilterIsSubsequence(s[1..], p);
      var r := Filter(s, p);
      if p(s[0]) {
        assert r[0] == s[0] && r[1..] == Filter(s[1..], p);
      } else {
        assert r == Filter(s[1..], p);
        assert s[0] !in r;
      }
    }
  }

  /** A predicate every element satisfies filters nothing out. */
  lemma {:induction false} FilterAll<T(!new)>(s: seq<T>, p: T -> bool)
    requires forall i :: 0 <= i < |s| ==> p(s[i])
    ensures Filter(s, p) == s
  {
    if s != [] {
      FilterAll(s[1..], p);
    }
  }

  /** Every element that satisfies the predicate is kept, as many times as
      it occurs. */
  lemma {:induction false} FilterCounts<T(!new)>(s: seq<T>, p: T -> bool, x: T)
    ensures multiset(Filter(s, p))[x] == if p(x) then multiset(s)[x] else 0
  {
    if s != [] {
      FilterCounts(s[1..], p, x);
      assert s == [s[0]] + s[1..];
      assert multiset(s) == multiset{s[0]} + multiset(s[1..]);
    }
  }

  /** Filtering twice is filtering once by the conjunction. */
  lemma {:induction false} FilterFilter<T(!new)>(s: seq<T>, p: T -> bool, q: T -> bool, pq: T -> bool)
    requires forall x :: pq(x) == (p(x) && q(x))
    ensures Filter(Filter(s, p), q) == Filter(s, pq)
  {
    if s != [] {
      FilterFilter(s[1..], p, q, pq);
      var f := Filter(s, p);
      if p(s[0]) {
        assert f[0] == s[0] && f[1..] == Filter(s[1..], p);
      } else {
        assert f == Filter(s[1..], p);
      }
    }
  }

  // ---------------------------------------------------------------------
  // Sorting

  datatype Direction = Asc | Desc

  predicate InOrder(dir: Direction, a: int, b: int) {
    if dir == Asc then a <= b else a >= b
  }

  function Flip(dir: Direction): (d: Direction)
    ensures d != dir
  {
    if dir == Asc then Desc else Asc
  }

  predicate SortedBy<T>(s: seq<T>, key: T -> int, dir: Direction) {
    forall i, j :: 0 <= i < j < |s| ==> InOrder(dir, key(s[i]), key(s[j]))
  }

  /** Insert `x` before the first element it may precede. */
  function Insert<T>(x: T, s: seq<T>, key: T -> int, dir: Direction): (r: seq<T>)
    requires SortedBy(s, key, dir)
    ensures SortedBy(r, key, dir)
    ensures multiset(r) == multiset(s) + multiset{x}
    ensures |r| == |s| + 1
    ensures forall i :: 0 <= i < |r| ==> r[i] == x || r[i] in s
  {
    if s == [] || InOrder(dir, key(x), key(s[0])) then
      [x] + s
    else
      var rest := Insert(x, s[1..], key, dir);
      assert s == [s[0]] + s[1..];
      [s[0]] + rest
  }

  /** `Array.prototype.sort` with the comparator `key(a) - key(b)` (or its
      reverse): a stable sort, written as an insertion sort. */
  function SortBy<T>(s: seq<T>, key: T -> int, dir: Direction): (r: seq<T>)
    ensures SortedBy(r, key, dir)
    ensures multiset(r) == multiset(s)
    ensures |r| == |s|
  {
    if s == [] then []
    else
      assert s == [s[0]] + s[1..];
      Insert(s[0], SortBy(s[1..], key, dir), key, dir)
  }

  /** The elements of `s` whose key is `k`, in order. */
  function WithKey<T>(s: seq<T>, key: T -> int, k: int): seq<T> {
    if s == [] then [] else (if key(s[0]) == k then [s[0]] else []) + WithKey(s[1..], key, k)
  }

  lemma {:induction false} WithKeyAppend<T>(a: seq<T>, b: seq<T>, key: T -> int, k: int)
    ensures WithKey(a + b, key, k) == WithKey(a, key, k) + WithKey(b, key, k)
  {
    if a == [] {
      assert a + b == b;
    } else {
      WithKeyAppend(a[1..], b, key, k);
      assert (a + b)[0] == a[0];
      assert (a + b)[1..] == a[1..] + b;
    }
  }

  lemma {:induction false} WithKeyInsert<T>(x: T, s: seq<T>, key: T -> int, dir: Direction, k: int)
    requires SortedBy(s, key, dir)
    ensures WithKey(Insert(x, s, key, dir), key, k)
         == (if key(x) == k then [x] else []) + WithKey(s, key, k)
  {
    var r := Insert(x, s, key, dir);
    if s == [] || InOrder(dir, key(x), key(s[0])) {
      assert r == [x] + s;
      WithKeyAppend([x], s, key, k);
      assert WithKey([x], key, k) == (if key(x) == k then [x] else []) by {
        assert [x][1..] == [];
      }
    } else {
      var rest := Insert(x, s[1..], key, dir);
      assert r == [s[0]] + rest;
      WithKeyInsert(x, s[1..], key, dir, k);
      assert WithKey(r, key, k) == (if key(s[0]) == k then [s[0]] else []) + WithKey(rest, key, k) by {
        assert r[0] == s[0] && r[1..] == rest;
      }
      assert WithKey(s, key, k) == (if key(s[0]) == k then [s[0]] else []) + WithKey(s[1..], key, k);
      assert key(s[0]) != key(x);
    }
  }

  /** Stability: elements with equal keys keep their original relative order. */
  lemma {:induction false} SortByIsStable<T>(s: seq<T>, key: T -> int, dir: Direction, k: int)
    ensures WithKey(SortBy(s, key, dir), key, k) == WithKey(s, key, k)
  {
    if s != [] {
      SortByIsStable(s[1..], key, dir, k);
      WithKeyInsert(s[0], SortBy(s[1..], key, dir), key, dir, k);
    }
  }

  /** With distinct keys there is only one sorted order, so any comparator
      that orders the keys the same way yields `SortBy`'s result. */
  lemma {:induction false} SortedPermutationUnique<T>(a: seq<T>, b: seq<T>, key: T -> int, dir: Direction)
    requires SortedBy(a, key, dir) && SortedBy(b, key, dir)
    requires multiset(a) == multiset(b)
    requires DistinctKeys(a, key)
    ensures a == b
    decreases |a|
  {
    assert |a| == |multiset(a)| == |b|;
    if a != [] {
      SortedHeadsAgree(a, b, key, dir);
      var a', b' := a[1..], b[1..];
      assert a == [a[0]] + a' && b == [b[0]] + b';
      assert multiset(a') == multiset(a) - multiset{a[0]};
      assert multiset(b') == multiset(b) - multiset{b[0]};
      assert SortedBy(a', key, dir) && SortedBy(b', key, dir) && DistinctKeys(a', key) by {
        forall i, j | 0 <= i < j < |a'| ensures InOrder(dir, key(a'[i]), key(a'[j])) && key(a'[i]) != key(a'[j]) {
          assert a'[i] == a[i + 1] && a'[j] == a[j + 1];
        }
        forall i, j | 0 <= i < j < |b'| ensures InOrder(dir, key(b'[i]), key(b'[j])) {
          assert b'[i] == b[i + 1] && b'[j] == b[j + 1];
        }
      }
      SortedPermutationUnique(a', b', key, dir);
    }
  }

  predicate DistinctKeys<T>(s: seq<T>, key: T -> int) {
    forall i, j :: 0 <= i < j < |s| ==> key(s[i]) != key(s[j])
  }

  lemma SortedHeadsAgree<T>(a: seq<T>, b: seq<T>, key: T -> int, dir: Direction)
    requires a != [] && |a| == |b|
    requires SortedBy(a, key, dir) && SortedBy(b, key, dir)
    requires multiset(a) == multiset(b)
    requires DistinctKeys(a, key)
    ensures a[0] == b[0]
  {
    assert a[0] in multiset(b);
    assert b[0] in multiset(a);
    var i :| 0 <= i < |a| && a[i] == b[0];
    var j :| 0 <= j < |b| && b[j] == a[0];
    assert InOrder(dir, key(a[0]), key(a[i]));
    assert InOrder(dir, key(b[0]), key(b[j]));
    assert i == 0;
  }

  // ---------------------------------------------------------------------
  // Slicing and pages

  /** `Array.prototype.slice(start, end)`: negative indices count from the
      end, and both are clamped to the list. */
  function Clamp(i: int, n: nat): (r: nat)
    ensures r <= n
    ensures 0 <= i <= n ==> r == i
  {
    if i < 0 then (if n + i < 0 then 0 else n + i) else if i > n then n else i
  }

  function JsSlice<T>(s: seq<T>, start: int, end: int): (r: seq<T>)
    ensures 0 <= start <= end <= |s| ==> r == s[start..end]
    ensures |r| <= |s|
  {
    var from := Clamp(start, |s|);
    var to := Clamp(end, |s|);
    if from < to then s[from..to] else []
  }

  /** `Math.ceil(n / size)`. */
  function PageCount(n: nat, size: nat): (pages: nat)
    requires size > 0
    ensures (pages - 1) * size < n <= pages * size || (n == 0 && pages == 0)
  {
    (n + size - 1) / size
  }

  /** The items of page `page` (counted from 1). */
  function Page<T>(s: seq<T>, page: int, size: nat): (r: seq<T>)
    requires size > 0
    ensures 1 <= page ==> |r| <= size
  {
    JsSlice(s, (page - 1) * size, page * size)
  }

  lemma MulMonotone(a: int, b: int, c: nat)
    requires a <= b
    ensures a * c <= b * c
  {
  }

  /** A page within the page count is the non-empty run of at most `size`
      items starting at `(page - 1) * size`; a page past the count is empty. */
  lemma PageContents<T>(s: seq<T>, page: int, size: nat)
    requires size > 0
    ensures 1 <= page <= PageCount(|s|, size) ==>
      var start := (page - 1) * size;
      var end := if start + size < |s| then start + size else |s|;
      start < end && Page(s, page, size) == s[start..end]
    ensures page > PageCount(|s|, size) ==> Page(s, page, size) == []
  {
    var n, pages := |s|, PageCount(|s|, size);
    var start := (page - 1) * size;
    assert page * size == start + size;
    if 1 <= page <= pages {
      MulMonotone(page - 1, pages - 1, size);
      MulMonotone(0, page - 1, size);
      assert 0 <= start < n;
      assert Clamp(start, n) == start;
    }
    if page > pages {
      MulMonotone(pages, page - 1, size);
      assert start >= n;
      assert Clamp(start, n) == n;
    }
  }
}
