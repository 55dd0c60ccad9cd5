/** The in-place `Array.prototype.sort` the pages call on fetched lists,
    with a comparator that subtracts two date keys. A date key is the
    number of milliseconds `new Date(...)` gives; sorting newest first
    sorts by the negated key. */
module Sorting {

  /** `s` is in non-decreasing order of `key`. */
  predicate SortedBy<T>(s: seq<T>, key: T -> int)
  {
    forall i, j :: 0 <= i < j < |s| ==> key(s[i]) <= key(s[j])
  }

  /** Exchanges two elements of `a`. */
  method Swap<T>(a: array<T>, i: int, j: int)
    requires 0 <= i < a.Length && 0 <= j < a.Length
    modifies a
    ensures a[..] == old(a[..])[i := old(a[j])][j := old(a[i])]
    ensures multiset(a[..]) == multiset(old(a[..]))
  {
    a[i], a[j] := a[j], a[i];
  }

  /** Moves `a[i]` left past every larger element of the sorted prefix
      `a[..i]`, so that `a[..i + 1]` is sorted. */
  method Insert<T>(a: array<T>, i: int, key: T -> int)
    requires 0 <= i < a.Length
    requires SortedBy(a[..i], key)
    modifies a
    ensures SortedBy(a[..i + 1], key)
    ensures multiset(a[..]) == multiset(old(a[..]))
  {
    var j := i;
    while j > 0 && key(a[j - 1]) > key(a[j])
      invariant 0 <= j <= i
      invariant forall p, q :: 0 <= p < q <= i && p != j && q != j ==> key(a[p]) <= key(a[q])
      invariant forall q :: j < q <= i ==> key(a[j]) < key(a[q])
      invariant multiset(a[..]) == multiset(old(a[..]))
    {
      Swap(a, j - 1, j);
      j := j - 1;
    }
  }

  /** Sorts `a` in place by `key`: afterwards it is in order and holds the
      same elements as before. */
  method SortByKey<T>(a: array<T>, key: T -> int)
    modifies a
    ensures SortedBy(a[..], key)
    ensures multiset(a[..]) == multiset(old(a[..]))
  {
    var i := 0;
    while i < a.Length
      invariant 0 <= i <= a.Length
      invariant SortedBy(a[..i], key)
      invariant multiset(a[..]) == multiset(old(a[..]))
    {
      Insert(a, i, key);
      i := i + 1;
    }
    assert a[..a.Length] == a[..];
  }

  /** The first element of a sorted sequence has the least key of all. */
  lemma SortedHeadLeast<T>(s: seq<T>, key: T -> int, x: T)
    requires SortedBy(s, key) && x in multiset(s)
    ensures key(s[0]) <= key(x)
  {
    var k :| 0 <= k < |s| && s[k] == x;
  }

  /** When no two elements share a key, a sorted arrangement of a bag of
      elements is unique: every sort yields the same sequence. */
  lemma {:induction false} SortedUnique<T>(s: seq<T>, t: seq<T>, key: T -> int)
    requires SortedBy(s, key) && SortedBy(t, key)
    requires multiset(s) == multiset(t)
    requires forall i, j :: 0 <= i < j < |s| ==> key(s[i]) != key(s[j])
    ensures s == t
  {
    if s != [] {
      assert s[0] in multiset(s) && t[0] in multiset(t);
      assert |t| == |s| by {
        assert |multiset(s)| == |s| && |multiset(t)| == |t|;
      }
      SortedHeadLeast(s, key, t[0]);
      SortedHeadLeast(t, key, s[0]);
      var k :| 0 <= k < |s| && s[k] == t[0];
      assert k == 0;
      MultisetTail(s, t);
      SortedUnique(s[1..], t[1..], key);
      assert s == [s[0]] + s[1..] && t == [t[0]] + t[1..];
    }
  }

  /** Two bags of the same elements that start alike agree on the rest. */
  lemma MultisetTail<T>(s: seq<T>, t: seq<T>)
    requires s != [] && t != [] && s[0] == t[0] && multiset(s) == multiset(t)
    ensures multiset(s[1..]) == multiset(t[1..])
  {
    assert s == [s[0]] + s[1..] && t == [t[0]] + t[1..];
    assert multiset(s) == multiset{s[0]} + multiset(s[1..]);
    assert multiset(t) == multiset{t[0]} + multiset(t[1..]);
    assert multiset(s[1..]) == multiset(s) - multiset{s[0]};
    assert multiset(t[1..]) == multiset(t) - multiset{t[0]};
  }

  /** The list `s` sorted by `key`: it is copied into a fresh array, the
      array is sorted in place, and its contents are read back. */
  method SortedCopy<T>(s: seq<T>, key: T -> int) returns (r: seq<T>)
    ensures SortedBy(r, key)
    ensures multiset(r) == multiset(s)
    ensures |r| == |s|
  {
    var a := new T[|s|](i requires 0 <= i < |s| => s[i]);
    assert a[..] == s;
    SortByKey(a, key);
    r := a[..];
    assert |multiset(r)| == |multiset(s)|;
  }

  /** `[...s].sort(byKey).slice(0, n)`: the first `n` elements of the
      sorted arrangement `order` of `s`, which is returned too. */
  method FirstByKey<T>(s: seq<T>, key: T -> int, n: nat) returns (r: seq<T>, order: seq<T>)
    ensures SortedBy(order, key) && multiset(order) == multiset(s) && |order| == |s|
    ensures r == order[..if n < |s| then n else |s|]
    ensures |r| == if n < |s| then n else |s|
    ensures SortedBy(r, key)
    ensures multiset(r) <= multiset(s)
  {
    order := SortedCopy(s, key);
    var m := if n < |s| then n else |s|;
    r := order[..m];
    assert order == r + order[m..];
    assert multiset(order) == multiset(r) + multiset(order[m..]);
  }

  /** Nothing left out of the first `m` of a sorted sequence has a smaller
      key than anything kept. */
  lemma SortedPrefixLeast<T>(order: seq<T>, key: T -> int, m: nat)
    requires SortedBy(order, key) && m <= |order|
    ensures forall i, j :: 0 <= i < m <= j < |order| ==> key(order[i]) <= key(order[j])
  {
  }
}
