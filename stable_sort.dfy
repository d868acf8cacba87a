// Python's `sorted(xs, key=k, reverse=True)` and `list.sort(...)` are stable:
// elements with equal keys keep their input order. The analytics services
// rely on this for every ranking they produce. An ascending sort is the same
// sort on the negated key.

module StableSort {

  /** Non-increasing by key. */
  ghost predicate SortedDesc<T>(s: seq<T>, key: T -> real)
  {
    forall i, j :: 0 <= i < j < |s| ==> key(s[i]) >= key(s[j])
  }

  /** The elements of s whose key is k, in their order in s. */
  function WithKey<T>(s: seq<T>, key: T -> real, k: real): (r: seq<T>)
    ensures |r| <= |s|
  {
    if s == [] then []
    else (if key(s[0]) == k then [s[0]] else []) + WithKey(s[1..], key, k)
  }

  /** Places x before the first element whose key does not exceed its own. */
  function Insert<T>(x: T, s: seq<T>, key: T -> real): (r: seq<T>)
    ensures |r| == |s| + 1
  {
    if s == [] || key(x) >= key(s[0]) then [x] + s
    else [s[0]] + Insert(x, s[1..], key)
  }

  function SortDesc<T>(s: seq<T>, key: T -> real): (r: seq<T>)
    ensures |r| == |s|
  {
    if s == [] then [] else Insert(s[0], SortDesc(s[1..], key), key)
  }

  lemma {:induction false} InsertHead<T>(x: T, s: seq<T>, key: T -> real)
    ensures s == [] ==> Insert(x, s, key)[0] == x
    ensures s != [] ==> Insert(x, s, key)[0] == x || Insert(x, s, key)[0] == s[0]
  {
  }

  lemma {:induction false} InsertPermutes<T>(x: T, s: seq<T>, key: T -> real)
    ensures multiset(Insert(x, s, key)) == multiset{x} + multiset(s)
  {
    if s != [] && key(x) < key(s[0]) {
      InsertPermutes(x, s[1..], key);
      assert s == [s[0]] + s[1..];
    }
  }

  lemma {:induction false} InsertSorted<T>(x: T, s: seq<T>, key: T -> real)
    requires SortedDesc(s, key)
    ensures SortedDesc(Insert(x, s, key), key)
  {
    if s != [] && key(x) < key(s[0]) {
      var t := s[1..];
      InsertSorted(x, t, key);
      var r := Insert(x, t, key);
      InsertHead(x, t, key);
      assert key(s[0]) >= key(r[0]);
      assert Insert(x, s, key) == [s[0]] + r;
    }
  }

  lemma {:induction false} InsertWithKey<T>(x: T, s: seq<T>, key: T -> real, k: real)
    ensures WithKey(Insert(x, s, key), key, k)
         == (if key(x) == k then [x] else []) + WithKey(s, key, k)
  {
    if s == [] || key(x) >= key(s[0]) {
      assert ([x] + s)[1..] == s;
    } else {
      InsertWithKey(x, s[1..], key, k);
      assert ([s[0]] + Insert(x, s[1..], key))[1..] == Insert(x, s[1..], key);
    }
  }

  /** The sort is a non-increasing permutation of its input. */
  lemma {:induction false} SortDescIsSortedPermutation<T>(s: seq<T>, key: T -> real)
    ensures SortedDesc(SortDesc(s, key), key)
    ensures multiset(SortDesc(s, key)) == multiset(s)
  {
    if s != [] {
      SortDescIsSortedPermutation(s[1..], key);
      InsertSorted(s[0], SortDesc(s[1..], key), key);
      InsertPermutes(s[0], SortDesc(s[1..], key), key);
      assert s == [s[0]] + s[1..];
    }
  }

  /** Stability: equal keys keep their relative order. */
  lemma {:induction false} SortDescIsStable<T>(s: seq<T>, key: T -> real, k: real)
    ensures WithKey(SortDesc(s, key), key, k) == WithKey(s, key, k)
  {
    if s != [] {
      SortDescIsStable(s[1..], key, k);
      InsertWithKey(s[0], SortDesc(s[1..], key), key, k);
    }
  }

  /** A slice of a non-increasing sequence is non-increasing. */
  lemma PrefixSortedDesc<T>(s: seq<T>, n: nat, key: T -> real)
    requires SortedDesc(s, key) && n <= |s|
    ensures SortedDesc(s[..n], key)
  {
  }

  /** The first n elements of the sort carry the n largest keys: nothing left
      behind outranks anything taken. */
  lemma TopIsLargest<T>(s: seq<T>, n: nat, key: T -> real)
    requires n <= |s|
    ensures forall i, j :: 0 <= i < n <= j < |s| ==> key(SortDesc(s, key)[i]) >= key(SortDesc(s, key)[j])
  {
    SortDescIsSortedPermutation(s, key);
  }

  /** The first n of the sort are n of the input, and every input element
      not taken has a key no larger than any taken. */
  lemma TopPrefixIsBest<T>(s: seq<T>, n: nat, key: T -> real)
    requires n <= |s|
    ensures multiset(SortDesc(s, key)[..n]) <= multiset(s)
    ensures forall x, i :: x in multiset(s) - multiset(SortDesc(s, key)[..n]) && 0 <= i < n ==>
      key(x) <= key(SortDesc(s, key)[i])
  {
    var t := SortDesc(s, key);
    SortDescIsSortedPermutation(s, key);
    assert t == t[..n] + t[n..];
    assert multiset(t) == multiset(t[..n]) + multiset(t[n..]);
    forall x, i | x in multiset(s) - multiset(t[..n]) && 0 <= i < n ensures key(x) <= key(t[i]) {
      assert x in multiset(t[n..]);
      var j :| 0 <= j < |t[n..]| && t[n..][j] == x;
      assert t[n + j] == x;
    }
  }
}
