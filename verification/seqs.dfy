/** Sequence helpers used by several components: left-to-right sums
    (`reduce((acc, x) => acc + f(x), 0)`), filters, the prefix taken by
    JavaScript's `slice(0, n)`, and the stable descending sort the source
    writes as `sort((a, b) => key(b) - key(a))` (Python: `sorted(...,
    reverse=True)`, also stable). */
module Seqs {

  function Min(a: int, b: int): int { if a <= b then a else b }
  function Max(a: int, b: int): int { if a >= b then a else b }

  // ---------------------------------------------------------------------------
  // Sums

  /** The sum of `f` over `s`, accumulated from the left. */
  function SumOf<T>(s: seq<T>, f: T -> real): real
    decreases |s|
  {
    if |s| == 0 then 0.0 else SumOf(s[..|s| - 1], f) + f(s[|s| - 1])
  }

  lemma SumOfAppend<T>(s: seq<T>, x: T, f: T -> real)
    ensures SumOf(s + [x], f) == SumOf(s, f) + f(x)
  {
    assert (s + [x])[..|s|] == s;
  }

  lemma {:induction false} SumOfNonNegative<T>(s: seq<T>, f: T -> real)
    ensures (forall i :: 0 <= i < |s| ==> f(s[i]) >= 0.0) ==> SumOf(s, f) >= 0.0
    decreases |s|
  {
    if |s| > 0 && forall i :: 0 <= i < |s| ==> f(s[i]) >= 0.0 {
      var init := s[..|s| - 1];
      assert forall i :: 0 <= i < |init| ==> init[i] == s[i];
      SumOfNonNegative(init, f);
    }
  }

  lemma SumOfPair<T>(x: T, y: T, f: T -> real)
    ensures SumOf([x, y], f) == f(x) + f(y)
  {
    assert [x, y][..1] == [x];
    assert [x][..0] == [];
    assert SumOf([x], f) == SumOf([x][..0], f) + f(x);
    assert SumOf([x, y], f) == SumOf([x, y][..1], f) + f(y);
  }

  lemma {:induction false} SumOfPrepend<T>(x: T, s: seq<T>, f: T -> real)
    ensures SumOf([x] + s, f) == f(x) + SumOf(s, f)
    decreases |s|
  {
    if |s| == 0 {
      assert [x] + s == [x];
      assert SumOf([x], f) == SumOf([x][..0], f) + f(x);
      assert [x][..0] == [];
    } else {
      var init := s[..|s| - 1];
      var last := s[|s| - 1];
      assert s == init + [last];
      assert [x] + s == ([x] + init) + [last];
      SumOfAppend([x] + init, last, f);
      SumOfPrepend(x, init, f);
      SumOfAppend(init, last, f);
    }
  }

  lemma {:induction false} SumOfConcat<T>(a: seq<T>, b: seq<T>, f: T -> real)
    ensures SumOf(a + b, f) == SumOf(a, f) + SumOf(b, f)
    decreases |b|
  {
    if |b| == 0 {
      assert a + b == a;
    } else {
      var init := b[..|b| - 1];
      var last := b[|b| - 1];
      assert b == init + [last];
      assert a + b == (a + init) + [last];
      SumOfAppend(a + init, last, f);
      SumOfConcat(a, init, f);
      SumOfAppend(init, last, f);
    }
  }

  /** Every term between `lo` and `hi` bounds the sum between `lo·|s|` and `hi·|s|`. */
  lemma {:induction false} SumOfBounds<T>(s: seq<T>, f: T -> real, lo: real, hi: real)
    requires forall i :: 0 <= i < |s| ==> lo <= f(s[i]) <= hi
    ensures lo * (|s| as real) <= SumOf(s, f) <= hi * (|s| as real)
    decreases |s|
  {
    if |s| > 0 {
      var init := s[..|s| - 1];
      assert forall i :: 0 <= i < |init| ==> init[i] == s[i];
      SumOfBounds(init, f, lo, hi);
      assert lo * (|s| as real) == lo * (|init| as real) + lo;
      assert hi * (|s| as real) == hi * (|init| as real) + hi;
    }
  }

  /** Replacing one element changes the sum by the difference of its terms. */
  lemma {:induction false} SumOfUpdate<T>(s: seq<T>, i: nat, x: T, f: T -> real)
    requires i < |s|
    ensures SumOf(s[i := x], f) == SumOf(s, f) - f(s[i]) + f(x)
    decreases |s|
  {
    var t := s[i := x];
    if i == |s| - 1 {
      assert t[..|t| - 1] == s[..|s| - 1];
    } else {
      SumOfUpdate(s[..|s| - 1], i, x, f);
      assert t[..|t| - 1] == s[..|s| - 1][i := x];
    }
  }

  /** Two sequences whose elements contribute pairwise equal terms have equal sums. */
  lemma {:induction false} SumOfPointwise<T, U>(s: seq<T>, f: T -> real, t: seq<U>, g: U -> real)
    requires |s| == |t|
    requires forall i :: 0 <= i < |s| ==> f(s[i]) == g(t[i])
    ensures SumOf(s, f) == SumOf(t, g)
    decreases |s|
  {
    if |s| > 0 {
      SumOfPointwise(s[..|s| - 1], f, t[..|t| - 1], g);
    }
  }

  // ---------------------------------------------------------------------------
  // Filters

  /** The elements of `s` satisfying `p`, in their original order. */
  function Filter<T(!new)>(s: seq<T>, p: T -> bool): (r: seq<T>)
    ensures |r| <= |s|
    ensures forall x :: x in r <==> x in s && p(x)
    ensures forall i :: 0 <= i < |r| ==> p(r[i])
    decreases |s|
  {
    if |s| == 0 then []
    else if p(s[0]) then [s[0]] + Filter(s[1..], p)
    else Filter(s[1..], p)
  }

  /** `Filter` keeps everything exactly when every element qualifies. */
  lemma {:induction false} FilterAll<T(!new)>(s: seq<T>, p: T -> bool)
    requires forall i :: 0 <= i < |s| ==> p(s[i])
    ensures Filter(s, p) == s
    decreases |s|
  {
    if |s| > 0 {
      FilterAll(s[1..], p);
      assert [s[0]] + s[1..] == s;
    }
  }

  /** Filtering distributes over appending one element. */
  lemma {:induction false} FilterAppend<T(!new)>(s: seq<T>, x: T, p: T -> bool)
    ensures Filter(s + [x], p) == Filter(s, p) + (if p(x) then [x] else [])
    decreases |s|
  {
    if |s| == 0 {
      assert s + [x] == [x];
      assert [x][1..] == [];
    } else {
      assert (s + [x])[0] == s[0];
      assert (s + [x])[1..] == s[1..] + [x];
      FilterAppend(s[1..], x, p);
    }
  }

  /** Filtering distributes over concatenation. */
  lemma {:induction false} FilterConcat<T(!new)>(a: seq<T>, b: seq<T>, p: T -> bool)
    ensures Filter(a + b, p) == Filter(a, p) + Filter(b, p)
    decreases |a|
  {
    if |a| == 0 {
      assert a + b == b;
    } else {
      assert (a + b)[0] == a[0];
      assert (a + b)[1..] == a[1..] + b;
      FilterConcat(a[1..], b, p);
    }
  }

  /** Filtering a prefix gives a prefix of the filtered whole. */
  lemma FilterPrefix<T(!new)>(s: seq<T>, n: nat, p: T -> bool)
    requires n <= |s|
    ensures Filter(s[..n], p) <= Filter(s, p)
  {
    assert s == s[..n] + s[n..];
    FilterConcat(s[..n], s[n..], p);
  }

  /** `Filter` keeps nothing when no element qualifies. */
  lemma {:induction false} FilterNone<T(!new)>(s: seq<T>, p: T -> bool)
    requires forall i :: 0 <= i < |s| ==> !p(s[i])
    ensures Filter(s, p) == []
    decreases |s|
  {
    if |s| > 0 {
      FilterNone(s[1..], p);
    }
  }

  /** Filtering by `p` and then by `q` is filtering once by their conjunction. */
  lemma {:induction false} FilterFilter<T(!new)>(s: seq<T>, p: T -> bool, q: T -> bool, pq: T -> bool)
    requires forall x :: pq(x) == (p(x) && q(x))
    ensures Filter(Filter(s, p), q) == Filter(s, pq)
    decreases |s|
  {
    if |s| > 0 {
      FilterFilter(s[1..], p, q, pq);
      if p(s[0]) {
        var rest := Filter(s[1..], p);
        assert ([s[0]] + rest)[1..] == rest;
      }
    }
  }

  // ---------------------------------------------------------------------------
  // JavaScript `slice(0, n)`

  /** The prefix `s.slice(0, n)`: a negative `n` counts back from the end. */
  function SliceTo<T>(s: seq<T>, n: int): (r: seq<T>)
    ensures n >= 0 ==> |r| == Min(n, |s|)
    ensures n < 0 ==> |r| == Max(|s| + n, 0)
    ensures r == s[..|r|]
  {
    if n >= 0 then (if n <= |s| then s[..n] else s)
    else if |s| + n >= 0 then s[..|s| + n]
    else []
  }

  // ---------------------------------------------------------------------------
  // Stable sort, largest key first

  predicate SortedDesc<T>(s: seq<T>, key: T -> int) {
    forall i, j :: 0 <= i < j < |s| ==> key(s[i]) >= key(s[j])
  }

  lemma SortedCons<T>(h: T, t: seq<T>, key: T -> int)
    requires SortedDesc(t, key)
    requires forall j :: 0 <= j < |t| ==> key(h) >= key(t[j])
    ensures SortedDesc([h] + t, key)
  {
    var r := [h] + t;
    forall i, j | 0 <= i < j < |r| ensures key(r[i]) >= key(r[j]) {
      assert r[j] == t[j - 1];
      if i > 0 { assert r[i] == t[i - 1]; }
    }
  }

  /** When `x` goes behind the head, the head still leads the sorted result. */
  lemma InsertBehindSorted<T>(x: T, s: seq<T>, rest: seq<T>, key: T -> int)
    requires |s| > 0 && key(x) < key(s[0])
    requires multiset(rest) == multiset(s[1..]) + multiset{x}
    requires SortedDesc(s[1..], key) ==> SortedDesc(rest, key)
    ensures SortedDesc(s, key) ==> SortedDesc([s[0]] + rest, key)
  {
    if SortedDesc(s, key) {
      forall j | 0 <= j < |rest| ensures key(s[0]) >= key(rest[j]) {
        assert rest[j] in multiset(rest);
        if rest[j] != x {
          assert rest[j] in multiset(s[1..]);
          var i :| 0 <= i < |s[1..]| && s[1..][i] == rest[j];
          assert s[i + 1] == rest[j];
        }
      }
      SortedCons(s[0], rest, key);
    }
  }

  /** Inserts `x` before the first element whose key is not larger than its
      own, so that `x`, which came first, stays ahead of equal keys. */
  function Insert<T>(x: T, s: seq<T>, key: T -> int): (r: seq<T>)
    ensures |r| == |s| + 1
    ensures multiset(r) == multiset(s) + multiset{x}
    ensures SortedDesc(s, key) ==> SortedDesc(r, key)
    decreases |s|
  {
    if |s| == 0 || key(x) >= key(s[0]) then [x] + s
    else
      var rest := Insert(x, s[1..], key);
      assert s == [s[0]] + s[1..];
      InsertBehindSorted(x, s, rest, key);
      [s[0]] + rest
  }

  /** Insertion sort: a permutation of `s`, ordered by non-increasing key. */
  function SortDesc<T>(s: seq<T>, key: T -> int): (r: seq<T>)
    ensures |r| == |s|
    ensures multiset(r) == multiset(s)
    ensures SortedDesc(r, key)
    decreases |s|
  {
    if |s| == 0 then []
    else
      assert s == [s[0]] + s[1..];
      Insert(s[0], SortDesc(s[1..], key), key)
  }

  /** `s.sort((a, b) => key(b) - key(a)).slice(0, limit)`: the leading
      elements by key, largest first. */
  function TopByKey<T(!new)>(s: seq<T>, key: T -> int, limit: int): (r: seq<T>)
    ensures limit >= 0 ==> |r| == Min(limit, |s|)
    ensures |r| <= |s| && r == SortDesc(s, key)[..|r|]
    ensures SortedDesc(r, key)
    ensures forall i :: 0 <= i < |r| ==> r[i] in s
    ensures forall v :: Filter(r, KeyIs(key, v)) <= Filter(s, KeyIs(key, v))
  {
    var sorted := SortDesc(s, key);
    var r := SliceTo(sorted, limit);
    PrefixOfPermutation(s, sorted, r, key);
    forall v ensures Filter(r, KeyIs(key, v)) <= Filter(s, KeyIs(key, v)) {
      SortDescStable(s, key, v);
      FilterPrefix(sorted, |r|, KeyIs(key, v));
    }
    r
  }

  /** A prefix of a sorted permutation of `s` is sorted and draws from `s`. */
  lemma PrefixOfPermutation<T>(s: seq<T>, sorted: seq<T>, r: seq<T>, key: T -> int)
    requires multiset(sorted) == multiset(s) && SortedDesc(sorted, key)
    requires |r| <= |sorted| && r == sorted[..|r|]
    ensures SortedDesc(r, key)
    ensures forall i :: 0 <= i < |r| ==> r[i] in s
  {
    forall i | 0 <= i < |r| ensures r[i] in s {
      assert r[i] == sorted[i];
      assert sorted[i] in multiset(sorted);
    }
  }

  /** An element appended with a key larger than every other key leads the top list. */
  lemma TopByKeyNewestFirst<T(!new)>(s: seq<T>, x: T, key: T -> int, limit: int)
    requires limit >= 1
    requires forall i :: 0 <= i < |s| ==> key(s[i]) < key(x)
    ensures |TopByKey(s + [x], key, limit)| > 0 && TopByKey(s + [x], key, limit)[0] == x
  {
    SortDescNewestFirst(s, x, key);
  }

  lemma {:induction false} SumOfInsert<T>(x: T, s: seq<T>, key: T -> int, f: T -> real)
    ensures SumOf(Insert(x, s, key), f) == f(x) + SumOf(s, f)
    decreases |s|
  {
    if |s| == 0 || key(x) >= key(s[0]) {
      SumOfPrepend(x, s, f);
    } else {
      SumOfInsert(x, s[1..], key, f);
      SumOfPrepend(s[0], Insert(x, s[1..], key), f);
      SumOfPrepend(s[0], s[1..], f);
      assert [s[0]] + s[1..] == s;
    }
  }

  /** Sorting only permutes, so any sum over the sequence is unchanged. */
  lemma {:induction false} SumOfSortDesc<T>(s: seq<T>, key: T -> int, f: T -> real)
    ensures SumOf(SortDesc(s, key), f) == SumOf(s, f)
    decreases |s|
  {
    if |s| > 0 {
      var t := SortDesc(s[1..], key);
      assert SortDesc(s, key) == Insert(s[0], t, key);
      SumOfSortDesc(s[1..], key, f);
      SumOfInsert(s[0], t, key, f);
      calc {
        SumOf(s, f);
        { assert [s[0]] + s[1..] == s; }
        SumOf([s[0]] + s[1..], f);
        { SumOfPrepend(s[0], s[1..], f); }
        f(s[0]) + SumOf(s[1..], f);
      }
    }
  }

  /** An element appended with a key larger than every other key comes out first. */
  lemma {:induction false} SortDescNewestFirst<T>(s: seq<T>, x: T, key: T -> int)
    requires forall i :: 0 <= i < |s| ==> key(s[i]) < key(x)
    ensures SortDesc(s + [x], key)[0] == x
    decreases |s|
  {
    if |s| == 0 {
      assert s + [x] == [x];
    } else {
      var t := s + [x];
      assert t[1..] == s[1..] + [x];
      assert forall i :: 0 <= i < |s[1..]| ==> s[1..][i] == s[i + 1];
      SortDescNewestFirst(s[1..], x, key);
      var sorted := SortDesc(t[1..], key);
      assert sorted[0] == x;
      assert key(t[0]) < key(sorted[0]);
    }
  }

  /** The elements whose key is exactly `v`. */
  function KeyIs<T>(key: T -> int, v: int): T -> bool {
    (x: T) => key(x) == v
  }

  /** Inserting `x` passes only over elements with a larger key, so among
      the elements with any one key `x` lands where it was: first. */
  lemma {:induction false} FilterInsert<T(!new)>(x: T, s: seq<T>, key: T -> int, v: int)
    ensures Filter(Insert(x, s, key), KeyIs(key, v))
         == if key(x) == v then [x] + Filter(s, KeyIs(key, v)) else Filter(s, KeyIs(key, v))
    decreases |s|
  {
    if |s| == 0 || key(x) >= key(s[0]) {
      assert ([x] + s)[0] == x;
      assert ([x] + s)[1..] == s;
    } else {
      var rest := Insert(x, s[1..], key);
      assert ([s[0]] + rest)[0] == s[0];
      assert ([s[0]] + rest)[1..] == rest;
      FilterInsert(x, s[1..], key, v);
    }
  }

  /** The sort is stable: the elements sharing a key keep their relative order. */
  lemma {:induction false} SortDescStable<T(!new)>(s: seq<T>, key: T -> int, v: int)
    ensures Filter(SortDesc(s, key), KeyIs(key, v)) == Filter(s, KeyIs(key, v))
    decreases |s|
  {
    if |s| > 0 {
      var t := SortDesc(s[1..], key);
      assert SortDesc(s, key) == Insert(s[0], t, key);
      FilterInsert(s[0], t, key, v);
      SortDescStable(s[1..], key, v);
    }
  }
}
