/** `users.sort((a, b) => key(b) - key(a))`: an in-place, stable sort of the
    fetched array into non-increasing key order. JavaScript's
    `Array.prototype.sort` is stable, so elements with equal keys keep their
    relative order, which makes the result unique; `SortDesc` is that result,
    built by insertion. */
module StableSort {

  /** Insert `x` after every element whose key is at least `x`'s, scanning
      from the end. */
  function Insert<T>(s: seq<T>, x: T, key: T -> int): (r: seq<T>)
    decreases |s|
  {
    if s == [] || key(s[|s| - 1]) >= key(x) then s + [x]
    else Insert(s[..|s| - 1], x, key) + [s[|s| - 1]]
  }

  /** Insertion sort of `s`, element by element from the left. */
  function SortDesc<T>(s: seq<T>, key: T -> int): (r: seq<T>)
    decreases |s|
  {
    if s == [] then [] else Insert(SortDesc(s[..|s| - 1], key), s[|s| - 1], key)
  }

  ghost predicate Sorted<T>(s: seq<T>, key: T -> int) {
    forall i, j :: 0 <= i < j < |s| ==> key(s[i]) >= key(s[j])
  }

  /** The elements of `s` whose key is `k`, in their order in `s`. */
  function WithKey<T>(s: seq<T>, key: T -> int, k: int): (r: seq<T>)
    decreases |s|
  {
    if s == [] then []
    else WithKey(s[..|s| - 1], key, k) + (if key(s[|s| - 1]) == k then [s[|s| - 1]] else [])
  }

  lemma WithKeySnoc<T>(s: seq<T>, x: T, key: T -> int, k: int)
    ensures WithKey(s + [x], key, k) == WithKey(s, key, k) + (if key(x) == k then [x] else [])
  {
    assert (s + [x])[..|s|] == s;
  }

  lemma {:induction false} InsertPermutes<T>(s: seq<T>, x: T, key: T -> int)
    ensures multiset(Insert(s, x, key)) == multiset(s) + multiset{x}
    decreases |s|
  {
    if s == [] || key(s[|s| - 1]) >= key(x) {
    } else {
      var n := |s| - 1;
      InsertPermutes(s[..n], x, key);
      assert s == s[..n] + [s[n]];
    }
  }

  lemma {:induction false} InsertKeepsSorted<T>(s: seq<T>, x: T, key: T -> int)
    requires Sorted(s, key)
    ensures Sorted(Insert(s, x, key), key)
    decreases |s|
  {
    if s == [] || key(s[|s| - 1]) >= key(x) {
    } else {
      var n := |s| - 1;
      var last := s[n];
      InsertKeepsSorted(s[..n], x, key);
      var t := Insert(s[..n], x, key);
      InsertPermutes(s[..n], x, key);
      forall y | y in t ensures key(y) >= key(last) {
        assert y in multiset(t);
        if y != x {
          assert y in multiset(s[..n]);
          var m :| 0 <= m < n && s[..n][m] == y;
          assert s[m] == y;
        }
      }
      var r := t + [last];
      forall i, j | 0 <= i < j < |r| ensures key(r[i]) >= key(r[j]) {
        if j == |t| {
          assert r[i] == t[i] && t[i] in t;
        } else {
          assert r[i] == t[i] && r[j] == t[j];
        }
      }
    }
  }

  /** Inserting `x` places it after every element that has its key. */
  lemma {:induction false} InsertKeepsKeyOrder<T>(s: seq<T>, x: T, key: T -> int, k: int)
    ensures WithKey(Insert(s, x, key), key, k) == WithKey(s, key, k) + (if key(x) == k then [x] else [])
    decreases |s|
  {
    if s == [] || key(s[|s| - 1]) >= key(x) {
      WithKeySnoc(s, x, key, k);
    } else {
      var n := |s| - 1;
      assert s == s[..n] + [s[n]];
      InsertKeepsKeyOrder(s[..n], x, key, k);
      WithKeySnoc(Insert(s[..n], x, key), s[n], key, k);
      WithKeySnoc(s[..n], s[n], key, k);
    }
  }

  /** The sort only reorders. */
  lemma {:induction false} SortDescPermutes<T>(s: seq<T>, key: T -> int)
    ensures multiset(SortDesc(s, key)) == multiset(s)
    ensures |SortDesc(s, key)| == |s|
    decreases |s|
  {
    if s != [] {
      var n := |s| - 1;
      SortDescPermutes(s[..n], key);
      InsertPermutes(SortDesc(s[..n], key), s[n], key);
      assert s == s[..n] + [s[n]];
    }
  }

  /** The sort result is non-increasing in the key. */
  lemma {:induction false} SortDescSorted<T>(s: seq<T>, key: T -> int)
    ensures Sorted(SortDesc(s, key), key)
    decreases |s|
  {
    if s != [] {
      var n := |s| - 1;
      SortDescSorted(s[..n], key);
      InsertKeepsSorted(SortDesc(s[..n], key), s[n], key);
    }
  }

  /** The sort is stable: for every key value, the elements carrying it appear
      in the result in the same order as in the input. */
  lemma {:induction false} SortDescStable<T>(s: seq<T>, key: T -> int, k: int)
    ensures WithKey(SortDesc(s, key), key, k) == WithKey(s, key, k)
    decreases |s|
  {
    if s != [] {
      var n := |s| - 1;
      SortDescStable(s[..n], key, k);
      InsertKeepsKeyOrder(SortDesc(s[..n], key), s[n], key, k);
    }
  }

  lemma {:induction false} WithKeyMembers<T>(s: seq<T>, key: T -> int, k: int, y: T)
    ensures y in WithKey(s, key, k) <==> y in s && key(y) == k
    decreases |s|
  {
    if s != [] {
      var n := |s| - 1;
      WithKeyMembers(s[..n], key, k, y);
      assert s == s[..n] + [s[n]];
    }
  }

  lemma SortedLastIsLeast<T>(a: seq<T>, key: T -> int, y: T)
    requires Sorted(a, key) && y in a
    ensures key(y) >= key(a[|a| - 1])
  {
    var i :| 0 <= i < |a| && a[i] == y;
    if i < |a| - 1 {
      assert key(a[i]) >= key(a[|a| - 1]);
    }
  }

  /** Sequences that agree on the elements of every key are both empty or
      both not. */
  lemma SameKeyOrderNonEmpty<T>(a: seq<T>, b: seq<T>, key: T -> int)
    requires forall k :: WithKey(a, key, k) == WithKey(b, key, k)
    requires a != []
    ensures b != []
  {
    var k := key(a[0]);
    WithKeyMembers(a, key, k, a[0]);
    WithKeyMembers(b, key, k, a[0]);
    assert WithKey(a, key, k) == WithKey(b, key, k);
  }

  /** Sorted sequences that agree on the elements of every key end with the
      same key. */
  lemma SameKeyOrderLastKey<T>(a: seq<T>, b: seq<T>, key: T -> int)
    requires Sorted(a, key) && Sorted(b, key)
    requires forall k :: WithKey(a, key, k) == WithKey(b, key, k)
    requires a != [] && b != []
    ensures key(a[|a| - 1]) == key(b[|b| - 1])
  {
    var la, lb := a[|a| - 1], b[|b| - 1];
    assert WithKey(a, key, key(lb)) == WithKey(b, key, key(lb));
    assert WithKey(a, key, key(la)) == WithKey(b, key, key(la));
    WithKeyMembers(b, key, key(lb), lb);
    WithKeyMembers(a, key, key(lb), lb);
    WithKeyMembers(a, key, key(la), la);
    WithKeyMembers(b, key, key(la), la);
    SortedLastIsLeast(a, key, lb);
    SortedLastIsLeast(b, key, la);
  }

  /** Sequences that end with the same key and agree on the elements of
      that key end alike. */
  lemma SameKeyOrderSameLast<T>(a: seq<T>, b: seq<T>, key: T -> int)
    requires a != [] && b != []
    requires key(a[|a| - 1]) == key(b[|b| - 1])
    requires WithKey(a, key, key(a[|a| - 1])) == WithKey(b, key, key(a[|a| - 1]))
    ensures a[|a| - 1] == b[|b| - 1]
  {
    var k := key(a[|a| - 1]);
    var w := WithKey(a, key, k);
    assert w == WithKey(a[..|a| - 1], key, k) + [a[|a| - 1]];
    assert w == WithKey(b[..|b| - 1], key, k) + [b[|b| - 1]];
  }

  /** Two non-increasing sequences that agree on the order of the elements of
      every key are equal. */
  lemma {:induction false} SortedSameKeyOrderEqual<T>(a: seq<T>, b: seq<T>, key: T -> int)
    requires Sorted(a, key) && Sorted(b, key)
    requires forall k :: WithKey(a, key, k) == WithKey(b, key, k)
    ensures a == b
    decreases |a|
  {
    if a == [] {
      if b != [] {
        SameKeyOrderNonEmpty(b, a, key);
      }
    } else {
      SameKeyOrderNonEmpty(a, b, key);
      SameKeyOrderLastKey(a, b, key);
      assert WithKey(a, key, key(a[|a| - 1])) == WithKey(b, key, key(a[|a| - 1]));
      SameKeyOrderSameLast(a, b, key);
      var n, m := |a| - 1, |b| - 1;
      var x := a[n];
      assert a == a[..n] + [x];
      assert b == b[..m] + [x];
      forall k ensures WithKey(a[..n], key, k) == WithKey(b[..m], key, k) {
        WithKeySnoc(a[..n], x, key, k);
        WithKeySnoc(b[..m], x, key, k);
        var w := WithKey(a, key, k);
        assert w == WithKey(b, key, k);
        var c := if key(x) == k then [x] else [];
        assert WithKey(a[..n], key, k) == w[..|w| - |c|];
        assert WithKey(b[..m], key, k) == w[..|w| - |c|];
      }
      SortedSameKeyOrderEqual(a[..n], b[..m], key);
    }
  }

  /** `SortDesc` is the only stable sort: any non-increasing arrangement that
      keeps the order of the elements of every key is `SortDesc(s, key)`. */
  lemma SortDescUnique<T>(s: seq<T>, r: seq<T>, key: T -> int)
    requires Sorted(r, key)
    requires forall k :: WithKey(r, key, k) == WithKey(s, key, k)
    ensures r == SortDesc(s, key)
  {
    SortDescSorted(s, key);
    forall k ensures WithKey(r, key, k) == WithKey(SortDesc(s, key), key, k) {
      SortDescStable(s, key, k);
    }
    SortedSameKeyOrderEqual(r, SortDesc(s, key), key);
  }

  /** Where the inner loop of `SortInPlace` stops, `Insert` puts `x`. */
  lemma {:induction false} InsertAt<T>(s: seq<T>, x: T, key: T -> int, j: nat)
    requires j <= |s|
    requires forall k :: j <= k < |s| ==> key(s[k]) < key(x)
    requires j == 0 || key(s[j - 1]) >= key(x)
    ensures Insert(s, x, key) == s[..j] + [x] + s[j..]
    decreases |s| - j
  {
    if j < |s| {
      var n := |s| - 1;
      InsertAt(s[..n], x, key, j);
      assert s[..n][..j] == s[..j];
      assert s[..j] + [x] + s[j..] == s[..n][..j] + [x] + s[..n][j..] + [s[n]];
    } else {
      assert s[..j] == s;
    }
  }

  /** One pass of the insertion sort: shift the larger-keyed tail of the
      sorted prefix `a[..i]` right by one and drop `a[i]` into the gap. */
  method InsertInPlace<T>(a: array<T>, i: nat, key: T -> int)
    requires i < a.Length
    modifies a
    ensures a[..i + 1] == Insert(old(a[..i]), old(a[i]), key)
    ensures forall k :: i < k < a.Length ==> a[k] == old(a[k])
  {
    ghost var pre := a[..i];
    var x := a[i];
    var j := i;
    while j > 0 && key(a[j - 1]) < key(x)
      invariant 0 <= j <= i
      invariant forall k :: 0 <= k < j ==> a[k] == pre[k]
      invariant forall k :: j < k <= i ==> a[k] == pre[k - 1]
      invariant forall k :: i < k < a.Length ==> a[k] == old(a[k])
      invariant forall k :: j <= k < i ==> key(pre[k]) < key(x)
    {
      a[j] := a[j - 1];
      j := j - 1;
    }
    a[j] := x;
    InsertAt(pre, x, key, j);
    assert a[..i + 1] == pre[..j] + [x] + pre[j..];
  }

  /** The in-place insertion sort of `a` by non-increasing key. */
  method SortInPlace<T>(a: array<T>, key: T -> int)
    modifies a
    ensures a[..] == SortDesc(old(a[..]), key)
  {
    ghost var orig := a[..];
    var i := 0;
    while i < a.Length
      invariant 0 <= i <= a.Length
      invariant a[..i] == SortDesc(orig[..i], key)
      invariant forall k :: i <= k < a.Length ==> a[k] == orig[k]
    {
      InsertInPlace(a, i, key);
      assert orig[..i + 1][..i] == orig[..i];
      i := i + 1;
    }
    assert orig[..a.Length] == orig;
  }
}
