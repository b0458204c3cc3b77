/** Python's `sorted(xs, key=k, reverse=True)`: a stable sort into
    non-increasing key order, in which elements with equal keys keep their
    original relative order. Used for comments (by likes), brands (by
    mentions) and recommendations (by endorsements). */
module StableSort {

  /** Inserts `x` in front of the first element whose key is not greater
      than its own, so that `x` comes before the elements it ties with. */
  function Insert<T>(x: T, s: seq<T>, key: T -> int): seq<T> {
    if s == [] || key(s[0]) <= key(x) then [x] + s else [s[0]] + Insert(x, s[1..], key)
  }

  /** Insertion sort from the back: the first element is inserted last, in
      front of everything it ties with. */
  function SortDesc<T>(s: seq<T>, key: T -> int): seq<T> {
    if s == [] then [] else Insert(s[0], SortDesc(s[1..], key), key)
  }

  ghost predicate NonIncreasing<T>(s: seq<T>, key: T -> int) {
    forall i, j :: 0 <= i < j < |s| ==> key(s[i]) >= key(s[j])
  }

  /** The elements of `s` whose key is `k`, in their order in `s`. */
  function WithKey<T>(s: seq<T>, key: T -> int, k: int): seq<T> {
    if s == [] then [] else (if key(s[0]) == k then [s[0]] else []) + WithKey(s[1..], key, k)
  }

  lemma {:induction false} InsertElements<T>(x: T, s: seq<T>, key: T -> int)
    ensures |Insert(x, s, key)| == |s| + 1
    ensures forall y :: y in Insert(x, s, key) <==> y == x || y in s
    ensures multiset(Insert(x, s, key)) == multiset(s) + multiset{x}
  {
    if s != [] && key(s[0]) > key(x) {
      InsertElements(x, s[1..], key);
      assert s == [s[0]] + s[1..];
    }
  }

  lemma {:induction false} InsertNonIncreasing<T>(x: T, s: seq<T>, key: T -> int)
    requires NonIncreasing(s, key)
    ensures NonIncreasing(Insert(x, s, key), key)
  {
    if s != [] && key(s[0]) > key(x) {
      InsertNonIncreasing(x, s[1..], key);
      InsertElements(x, s[1..], key);
      var r := Insert(x, s[1..], key);
      forall j | 0 <= j < |r| ensures key(s[0]) >= key(r[j]) {
        assert r[j] in multiset(r);
        assert r[j] == x || r[j] in multiset(s[1..]);
        if r[j] != x {
          assert r[j] in s[1..];
          var m :| 0 <= m < |s[1..]| && s[1..][m] == r[j];
          assert s[1..][m] == s[m + 1];
        }
      }
      assert forall j :: 0 <= j < |r| ==> ([s[0]] + r)[j + 1] == r[j];
    }
  }

  lemma WithKeyCons<T>(y: T, t: seq<T>, key: T -> int, k: int)
    ensures WithKey([y] + t, key, k) == (if key(y) == k then [y] else []) + WithKey(t, key, k)
  {
    assert ([y] + t)[0] == y && ([y] + t)[1..] == t;
  }

  lemma {:induction false} InsertWithKey<T>(x: T, s: seq<T>, key: T -> int, k: int)
    ensures WithKey(Insert(x, s, key), key, k) == (if key(x) == k then [x] else []) + WithKey(s, key, k)
  {
    if s == [] || key(s[0]) <= key(x) {
      WithKeyCons(x, s, key, k);
    } else {
      var rest := Insert(x, s[1..], key);
      InsertWithKey(x, s[1..], key, k);
      WithKeyCons(s[0], rest, key, k);
      WithKeyCons(s[0], s[1..], key, k);
      assert [s[0]] + s[1..] == s;
    }
  }

  /** The sorted output is in non-increasing key order. */
  lemma {:induction false} SortDescNonIncreasing<T>(s: seq<T>, key: T -> int)
    ensures NonIncreasing(SortDesc(s, key), key)
  {
    if s != [] {
      SortDescNonIncreasing(s[1..], key);
      InsertNonIncreasing(s[0], SortDesc(s[1..], key), key);
    }
  }

  lemma {:induction false} SortDescLength<T>(s: seq<T>, key: T -> int)
    ensures |SortDesc(s, key)| == |s|
  {
    if s != [] {
      SortDescLength(s[1..], key);
      InsertElements(s[0], SortDesc(s[1..], key), key);
    }
  }

  /** The sorted output is a permutation of the input. */
  lemma {:induction false} SortDescPermutation<T>(s: seq<T>, key: T -> int)
    ensures |SortDesc(s, key)| == |s|
    ensures multiset(SortDesc(s, key)) == multiset(s)
  {
    if s != [] {
      SortDescPermutation(s[1..], key);
      InsertElements(s[0], SortDesc(s[1..], key), key);
      assert s == [s[0]] + s[1..];
    }
  }

  /** Stability: for every key, the elements carrying it appear in the
      sorted output in exactly their original order. */
  lemma {:induction false} SortDescKeepsTies<T>(s: seq<T>, key: T -> int, k: int)
    ensures WithKey(SortDesc(s, key), key, k) == WithKey(s, key, k)
  {
    if s != [] {
      SortDescKeepsTies(s[1..], key, k);
      InsertWithKey(s[0], SortDesc(s[1..], key), key, k);
    }
  }

  lemma {:induction false} WithKeyMember<T>(s: seq<T>, key: T -> int, k: int, y: T)
    requires y in WithKey(s, key, k)
    ensures y in s && key(y) == k
  {
    if s != [] {
      if y in WithKey(s[1..], key, k) {
        WithKeyMember(s[1..], key, k, y);
      }
    }
  }

  lemma {:induction false} HeadKeyIsGreatest<T>(s: seq<T>, key: T -> int, y: T)
    requires NonIncreasing(s, key) && y in s
    ensures key(s[0]) >= key(y)
  {
    var j :| 0 <= j < |s| && s[j] == y;
    if j > 0 {
      assert key(s[0]) >= key(s[j]);
    }
  }

  /** A sequence in non-increasing key order is determined by its per-key
      subsequences: there is only one stable sort. */
  lemma {:induction false} StableSortUnique<T>(a: seq<T>, b: seq<T>, key: T -> int)
    requires NonIncreasing(a, key) && NonIncreasing(b, key)
    requires forall k :: WithKey(a, key, k) == WithKey(b, key, k)
    ensures a == b
  {
    if a == [] || b == [] {
      var k0 := if a != [] then key(a[0]) else if b != [] then key(b[0]) else 0;
      assert WithKey(a, key, k0) == WithKey(b, key, k0);
      assert a != [] ==> WithKey(a, key, k0) != [];
      assert b != [] ==> WithKey(b, key, k0) != [];
    } else {
      var wa := WithKey(a, key, key(a[0]));
      assert wa[0] == a[0];
      WithKeyMember(b, key, key(a[0]), a[0]);
      HeadKeyIsGreatest(b, key, a[0]);
      var wb := WithKey(b, key, key(b[0]));
      assert wb[0] == b[0];
      WithKeyMember(a, key, key(b[0]), b[0]);
      HeadKeyIsGreatest(a, key, b[0]);
      assert a[0] == b[0];
      forall k ensures WithKey(a[1..], key, k) == WithKey(b[1..], key, k) {
        var p: seq<T> := if key(a[0]) == k then [a[0]] else [];
        assert WithKey(a, key, k) == p + WithKey(a[1..], key, k);
        assert WithKey(b, key, k) == p + WithKey(b[1..], key, k);
        assert (p + WithKey(a[1..], key, k))[|p|..] == WithKey(a[1..], key, k);
        assert (p + WithKey(b[1..], key, k))[|p|..] == WithKey(b[1..], key, k);
      }
      StableSortUnique(a[1..], b[1..], key);
      assert a == [a[0]] + a[1..];
      assert b == [b[0]] + b[1..];
    }
  }

  /** `r` is a stable descending sort of `s`: keys never increase, and the
      elements sharing a key keep their order in `s`. */
  ghost predicate StablySorted<T>(r: seq<T>, s: seq<T>, key: T -> int) {
    NonIncreasing(r, key) && forall k :: WithKey(r, key, k) == WithKey(s, key, k)
  }

  /** `SortDesc` is exactly Python's stable descending sort: its result is
      the one sequence that is a stable descending sort of the input. */
  lemma SortDescCharacterization<T>(s: seq<T>, r: seq<T>, key: T -> int)
    ensures r == SortDesc(s, key) <==> StablySorted(r, s, key)
  {
    var q := SortDesc(s, key);
    SortDescNonIncreasing(s, key);
    forall k ensures WithKey(q, key, k) == WithKey(s, key, k) {
      SortDescKeepsTies(s, key, k);
    }
    if StablySorted(r, s, key) {
      StableSortUnique(r, q, key);
    }
  }

  /** Sorting input that is already in order changes nothing. */
  lemma {:induction false} SortDescOfSorted<T>(s: seq<T>, key: T -> int)
    requires NonIncreasing(s, key)
    ensures SortDesc(s, key) == s
  {
    if s != [] {
      SortDescOfSorted(s[1..], key);
      assert s == [s[0]] + s[1..];
    }
  }

  /** Any contiguous slice of a sorted sequence is sorted. */
  lemma SliceNonIncreasing<T>(s: seq<T>, key: T -> int, lo: int, hi: int)
    requires NonIncreasing(s, key) && 0 <= lo <= hi <= |s|
    ensures NonIncreasing(s[lo..hi], key)
  {
    assert forall i :: 0 <= i < hi - lo ==> s[lo..hi][i] == s[lo + i];
  }
}
