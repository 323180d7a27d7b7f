/** Sequence operations shared by the row containers: selecting fields of the
    elements a predicate accepts (the append-in-a-loop idiom of the C++
    accessors), stable sorting by a real-valued key (`std::stable_sort`) and
    the minimum / maximum of a key (`std::min_element`, `std::max_element`). */
module Seqs {

  /** `get(e)` of every element `e` of `s` with `sel(e)`, in order. */
  function Select<T, U>(s: seq<T>, get: T -> U, sel: T -> bool): (r: seq<U>)
    ensures |r| <= |s|
  {
    if s == [] then []
    else Select(s[..|s| - 1], get, sel)
         + (if sel(s[|s| - 1]) then [get(s[|s| - 1])] else [])
  }

  /** The elements of `s` that `sel` accepts, in order. */
  function Keep<T>(s: seq<T>, sel: T -> bool): seq<T>
  {
    Select(s, x => x, sel)
  }

  lemma {:induction false} SelectAppend<T, U>(a: seq<T>, b: seq<T>, get: T -> U, sel: T -> bool)
    ensures Select(a + b, get, sel) == Select(a, get, sel) + Select(b, get, sel)
    decreases |b|
  {
    if b == [] {
      assert a + b == a;
    } else {
      var b' := b[..|b| - 1];
      assert (a + b)[..|a + b| - 1] == a + b';
      assert (a + b)[|a + b| - 1] == b[|b| - 1];
      SelectAppend(a, b', get, sel);
    }
  }

  /** With a selector that accepts everything, one entry per element. */
  lemma {:induction false} SelectAll<T, U>(s: seq<T>, get: T -> U, sel: T -> bool)
    requires forall x :: sel(x)
    ensures |Select(s, get, sel)| == |s|
    ensures forall i :: 0 <= i < |s| ==> Select(s, get, sel)[i] == get(s[i])
  {
    if s != [] {
      SelectAll(s[..|s| - 1], get, sel);
    }
  }

  /** An element is produced exactly when some accepted element yields it. */
  lemma {:induction false} InSelect<T, U>(s: seq<T>, get: T -> U, sel: T -> bool, y: U)
    ensures y in Select(s, get, sel) <==> exists i :: 0 <= i < |s| && sel(s[i]) && get(s[i]) == y
  {
    if s != [] {
      var s' := s[..|s| - 1];
      InSelect(s', get, sel, y);
      if exists i :: 0 <= i < |s| && sel(s[i]) && get(s[i]) == y {
        var i :| 0 <= i < |s| && sel(s[i]) && get(s[i]) == y;
        if i < |s| - 1 {
          assert s'[i] == s[i];
        }
      }
      if exists i :: 0 <= i < |s'| && sel(s'[i]) && get(s'[i]) == y {
        var i :| 0 <= i < |s'| && sel(s'[i]) && get(s'[i]) == y;
        assert s[i] == s'[i];
      }
    }
  }

  /** Selecting from a kept subsequence is selecting with both conditions. */
  lemma {:induction false} SelectOfKeep<T, U>(s: seq<T>, p: T -> bool, get: T -> U, q: T -> bool, pq: T -> bool)
    requires forall x :: pq(x) == (p(x) && q(x))
    ensures Select(Keep(s, p), get, q) == Select(s, get, pq)
  {
    if s != [] {
      var s' := s[..|s| - 1];
      var x := s[|s| - 1];
      SelectOfKeep(s', p, get, q, pq);
      var tail: seq<T> := if p(x) then [x] else [];
      SelectAppend(Keep(s', p), tail, get, q);
      if p(x) {
        assert Select(tail, get, q) == Select([], get, q) + (if q(x) then [get(x)] else []);
      }
    }
  }

  /** Keeping twice with the same selector keeps once. */
  lemma KeepTwice<T>(s: seq<T>, sel: T -> bool)
    ensures Keep(Keep(s, sel), sel) == Keep(s, sel)
  {
    SelectOfKeep(s, sel, x => x, sel, sel);
  }

  /** An element survives filtering exactly when it was there and is selected. */
  lemma {:induction false} InKeep<T>(s: seq<T>, sel: T -> bool, x: T)
    ensures x in Keep(s, sel) <==> x in s && sel(x)
  {
    if s != [] {
      InKeep(s[..|s| - 1], sel, x);
      assert s == s[..|s| - 1] + [s[|s| - 1]];
    }
  }

  /** Selecting a field is reading that field of every kept element. */
  lemma {:induction false} SelectKeep<T, U>(s: seq<T>, get: T -> U, sel: T -> bool)
    ensures |Select(s, get, sel)| == |Keep(s, sel)|
    ensures forall k :: 0 <= k < |Keep(s, sel)| ==> Select(s, get, sel)[k] == get(Keep(s, sel)[k])
  {
    if s != [] {
      SelectKeep(s[..|s| - 1], get, sel);
    }
  }

  predicate SortedBy<T>(s: seq<T>, key: T -> real)
  {
    forall i, j :: 0 <= i < j < |s| ==> key(s[i]) <= key(s[j])
  }

  /** A subsequence of a sorted sequence is sorted. */
  lemma {:induction false} KeepSorted<T>(s: seq<T>, key: T -> real, sel: T -> bool)
    requires SortedBy(s, key)
    ensures SortedBy(Keep(s, sel), key)
  {
    if s != [] {
      var s' := s[..|s| - 1];
      var x := s[|s| - 1];
      KeepSorted(s', key, sel);
      forall y | y in Keep(s', sel) ensures key(y) <= key(x) {
        InSelect(s', x => x, sel, y);
      }
    }
  }

  /** The elements of `s` whose key equals `k`, in order. */
  function WithKey<T>(s: seq<T>, key: T -> real, k: real): seq<T>
  {
    if s == [] then []
    else (if key(s[0]) == k then [s[0]] else []) + WithKey(s[1..], key, k)
  }

  /** Insertion behind every element whose key is not larger: equal keys
      keep their arrival order. */
  function InsertBy<T>(x: T, s: seq<T>, key: T -> real): (r: seq<T>)
    ensures |r| == |s| + 1
  {
    if s == [] then [x]
    else if key(x) < key(s[0]) then [x] + s
    else [s[0]] + InsertBy(x, s[1..], key)
  }

  /** Stable sort by `key`, the order `std::stable_sort` produces. */
  function SortBy<T>(s: seq<T>, key: T -> real): (r: seq<T>)
    ensures |r| == |s|
  {
    if s == [] then [] else InsertBy(s[|s| - 1], SortBy(s[..|s| - 1], key), key)
  }

  lemma {:induction false} InsertBySorted<T>(x: T, s: seq<T>, key: T -> real)
    requires SortedBy(s, key)
    ensures SortedBy(InsertBy(x, s, key), key)
    ensures multiset(InsertBy(x, s, key)) == multiset(s) + multiset{x}
  {
    InsertByOrdered(x, s, key);
    InsertByPermutes(x, s, key);
  }

  lemma {:induction false} InsertByOrdered<T>(x: T, s: seq<T>, key: T -> real)
    requires SortedBy(s, key)
    ensures SortedBy(InsertBy(x, s, key), key)
  {
    if s == [] {
    } else if key(s[0]) <= key(x) {
      InsertByOrdered(x, s[1..], key);
      InsertByBound(x, s[1..], key, key(s[0]));
      SortedCons(s[0], InsertBy(x, s[1..], key), key);
    } else {
      SortedCons(x, s, key);
    }
  }

  /** Insertion adds exactly `x`. */
  lemma {:induction false} InsertByPermutes<T>(x: T, s: seq<T>, key: T -> real)
    ensures multiset(InsertBy(x, s, key)) == multiset(s) + multiset{x}
  {
    if s != [] && key(s[0]) <= key(x) {
      InsertByPermutes(x, s[1..], key);
      assert s == [s[0]] + s[1..];
    }
  }

  /** A key no larger than any key of a sorted sequence may be put in front. */
  lemma SortedCons<T>(a: T, s: seq<T>, key: T -> real)
    requires SortedBy(s, key)
    requires forall i :: 0 <= i < |s| ==> key(a) <= key(s[i])
    ensures SortedBy([a] + s, key)
  {
    forall i, j | 0 <= i < j < |[a] + s| ensures key(([a] + s)[i]) <= key(([a] + s)[j]) {
      assert ([a] + s)[j] == s[j - 1];
      if i > 0 {
        assert ([a] + s)[i] == s[i - 1];
      }
    }
  }

  /** A lower bound on the keys of `x` and of `s` bounds the keys after
      insertion. */
  lemma {:induction false} InsertByBound<T>(x: T, s: seq<T>, key: T -> real, lo: real)
    requires lo <= key(x)
    requires forall i :: 0 <= i < |s| ==> lo <= key(s[i])
    ensures forall i :: 0 <= i < |InsertBy(x, s, key)| ==> lo <= key(InsertBy(x, s, key)[i])
  {
    if s != [] && key(s[0]) <= key(x) {
      InsertByBound(x, s[1..], key, lo);
    }
  }

  /** Filtering by one key value commutes with insertion. */
  lemma {:induction false} InsertByWithKey<T>(x: T, s: seq<T>, key: T -> real, k: real)
    requires SortedBy(s, key)
    ensures WithKey(InsertBy(x, s, key), key, k)
         == WithKey(s, key, k) + (if key(x) == k then [x] else [])
  {
    if s == [] {
    } else if key(x) < key(s[0]) {
      WithKeyFront(x, s, key, k);
    } else {
      InsertByWithKey(x, s[1..], key, k);
      WithKeyBehind(s[0], InsertBy(x, s[1..], key), key, k);
    }
  }

  /** An element placed in front of a sorted sequence whose keys all exceed
      its own is the only one with its key. */
  lemma WithKeyFront<T>(x: T, s: seq<T>, key: T -> real, k: real)
    requires SortedBy(s, key)
    requires s != [] && key(x) < key(s[0])
    ensures WithKey([x] + s, key, k) == WithKey(s, key, k) + (if key(x) == k then [x] else [])
  {
    assert ([x] + s)[1..] == s;
    if key(x) == k {
      WithKeyNone(s, key, k);
    }
  }

  lemma WithKeyBehind<T>(y: T, r: seq<T>, key: T -> real, k: real)
    ensures WithKey([y] + r, key, k) == (if key(y) == k then [y] else []) + WithKey(r, key, k)
  {
    assert ([y] + r)[1..] == r;
  }

  /** Filtering a sequence with one more element at its end. */
  lemma {:induction false} WithKeySnoc<T>(s: seq<T>, x: T, key: T -> real, k: real)
    ensures WithKey(s + [x], key, k) == WithKey(s, key, k) + (if key(x) == k then [x] else [])
  {
    if s != [] {
      assert (s + [x])[1..] == s[1..] + [x];
      WithKeySnoc(s[1..], x, key, k);
    }
  }

  /** In a sorted sequence whose first key exceeds `k`, nothing has key `k`. */
  lemma {:induction false} WithKeyNone<T>(s: seq<T>, key: T -> real, k: real)
    requires SortedBy(s, key)
    requires s != [] && k < key(s[0])
    ensures WithKey(s, key, k) == []
  {
    if |s| > 1 {
      WithKeyNone(s[1..], key, k);
    }
  }

  /** `SortBy` orders by key, permutes, and keeps the relative order of the
      elements that share a key (stability). */
  lemma {:induction false} SortByCorrect<T>(s: seq<T>, key: T -> real)
    ensures SortedBy(SortBy(s, key), key)
    ensures multiset(SortBy(s, key)) == multiset(s)
    ensures forall k :: WithKey(SortBy(s, key), key, k) == WithKey(s, key, k)
  {
    if s != [] {
      var s' := s[..|s| - 1];
      var x := s[|s| - 1];
      SortByCorrect(s', key);
      InsertBySorted(x, SortBy(s', key), key);
      assert s == s' + [x];
      forall k ensures WithKey(SortBy(s, key), key, k) == WithKey(s, key, k) {
        InsertByWithKey(x, SortBy(s', key), key, k);
        WithKeySnoc(s', x, key, k);
      }
    }
  }

  /** The smallest key of a non-empty sequence (the value `std::min_element`
      points at). */
  function MinOf<T>(s: seq<T>, key: T -> real): (m: real)
    requires |s| > 0
    ensures exists i :: 0 <= i < |s| && key(s[i]) == m
    ensures forall i :: 0 <= i < |s| ==> m <= key(s[i])
  {
    if |s| == 1 then key(s[0])
    else
      var rest := MinOf(s[1..], key);
      assert forall i :: 1 <= i < |s| ==> s[i] == s[1..][i - 1];
      if key(s[0]) <= rest then key(s[0]) else rest
  }

  /** The largest key of a non-empty sequence. */
  function MaxOf<T>(s: seq<T>, key: T -> real): (m: real)
    requires |s| > 0
    ensures exists i :: 0 <= i < |s| && key(s[i]) == m
    ensures forall i :: 0 <= i < |s| ==> key(s[i]) <= m
  {
    if |s| == 1 then key(s[0])
    else
      var rest := MaxOf(s[1..], key);
      assert forall i :: 1 <= i < |s| ==> s[i] == s[1..][i - 1];
      if rest <= key(s[0]) then key(s[0]) else rest
  }

  /** `x` paired with every element of `ys`, in order. */
  function Row<A, B>(x: A, ys: seq<B>): (r: seq<(A, B)>)
    ensures |r| == |ys| && forall j :: 0 <= j < |ys| ==> r[j] == (x, ys[j])
  {
    seq(|ys|, j requires 0 <= j < |ys| => (x, ys[j]))
  }

  /** The Cartesian product as two nested loops: `xs` outer, `ys` inner. */
  function Product<A, B>(xs: seq<A>, ys: seq<B>): seq<(A, B)>
  {
    if xs == [] then [] else Product(xs[..|xs| - 1], ys) + Row(xs[|xs| - 1], ys)
  }

  /** The product has one entry per pair. */
  lemma {:induction false} ProductLength<A, B>(xs: seq<A>, ys: seq<B>)
    ensures |Product(xs, ys)| == |xs| * |ys|
  {
    if xs != [] {
      ProductLength(xs[..|xs| - 1], ys);
      assert |xs| * |ys| == (|xs| - 1) * |ys| + |ys|;
    }
  }

  /** Entry `i * |ys| + j` of the product is `(xs[i], ys[j])`. */
  lemma {:induction false} ProductAt<A, B>(xs: seq<A>, ys: seq<B>, i: nat, j: nat)
    requires i < |xs| && j < |ys|
    ensures i * |ys| + j < |Product(xs, ys)|
    ensures Product(xs, ys)[i * |ys| + j] == (xs[i], ys[j])
  {
    var n := |xs| - 1;
    var m := |ys|;
    ProductLength(xs[..n], ys);
    ProductLength(xs, ys);
    if i < n {
      ProductAt(xs[..n], ys, i, j);
    } else {
      assert i * m + j == |Product(xs[..n], ys)| + j;
    }
  }

  /** Number of `true` entries. */
  function Count(s: seq<bool>): (n: nat)
    ensures n <= |s|
  {
    if s == [] then 0 else Count(s[..|s| - 1]) + (if s[|s| - 1] then 1 else 0)
  }

  function Sum(s: seq<real>): real
  {
    if s == [] then 0.0 else Sum(s[..|s| - 1]) + s[|s| - 1]
  }

  /** The mean of `count` values adding up to `total`. */
  function Average(total: real, count: nat): (r: real)
    requires count > 0
    ensures r * count as real == total
  {
    total / count as real
  }
}
