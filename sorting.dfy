/** A stable sort by an integer key (Python's `list.sort(key=...)`, and the
    `sort_values` the model takes as stable), with the facts the callers need:
    the output is ordered, is a permutation of the input, keeps the input
    order among equal keys, leaves an ordered input as it is, and puts a
    permutation of 0..n-1 in place. */
module Sorting {

  predicate SortedBy<T>(s: seq<T>, key: T -> int)
  {
    forall i, j :: 0 <= i < j < |s| ==> key(s[i]) <= key(s[j])
  }

  /** No two elements share a key. */
  predicate DistinctKeys<T>(s: seq<T>, key: T -> int)
  {
    forall i, j :: 0 <= i < j < |s| ==> key(s[i]) != key(s[j])
  }

  /** Places x after every element whose key is not larger, so equal keys keep
      their arrival order. */
  function Insert<T>(x: T, s: seq<T>, key: T -> int): (r: seq<T>)
    requires SortedBy(s, key)
    ensures |r| == |s| + 1
    ensures r[0] == x || (|s| > 0 && r[0] == s[0])
    ensures SortedBy(r, key)
    ensures multiset(r) == multiset(s) + multiset{x}
  {
    if |s| == 0 then [x]
    else if key(x) < key(s[0]) then [x] + s
    else
      var rest := Insert(x, s[1..], key);
      assert s == [s[0]] + s[1..];
      assert key(s[0]) <= key(rest[0]);
      [s[0]] + rest
  }

  /** Insertion sort, one element at a time in input order. */
  function SortBy<T>(s: seq<T>, key: T -> int): (r: seq<T>)
    ensures SortedBy(r, key)
    ensures multiset(r) == multiset(s)
    ensures |r| == |s|
  {
    if |s| == 0 then []
    else
      assert s == s[..|s| - 1] + [s[|s| - 1]];
      Insert(s[|s| - 1], SortBy(s[..|s| - 1], key), key)
  }

  /** The elements whose key is k, in their order in s. */
  function WithKey<T>(s: seq<T>, key: T -> int, k: int): seq<T>
  {
    if |s| == 0 then []
    else WithKey(s[..|s| - 1], key, k) + (if key(s[|s| - 1]) == k then [s[|s| - 1]] else [])
  }

  lemma {:induction false} WithKeyAppend<T>(a: seq<T>, b: seq<T>, key: T -> int, k: int)
    ensures WithKey(a + b, key, k) == WithKey(a, key, k) + WithKey(b, key, k)
    decreases |b|
  {
    if |b| == 0 {
      assert a + b == a;
    } else {
      var init := b[..|b| - 1];
      assert (a + b)[..|a + b| - 1] == a + init;
      WithKeyAppend(a, init, key, k);
    }
  }

  lemma {:induction false} WithKeyNone<T>(s: seq<T>, key: T -> int, k: int)
    requires forall i :: 0 <= i < |s| ==> key(s[i]) != k
    ensures WithKey(s, key, k) == []
    decreases |s|
  {
    if |s| > 0 {
      WithKeyNone(s[..|s| - 1], key, k);
    }
  }

  /** Putting one element in front of a sequence. */
  lemma WithKeyCons<T>(y: T, rest: seq<T>, r: seq<T>, key: T -> int, k: int)
    requires r == [y] + rest
    ensures WithKey(r, key, k) == WithKey([y], key, k) + WithKey(rest, key, k)
  {
    WithKeyAppend([y], rest, key, k);
  }

  lemma SortedTail<T>(s: seq<T>, key: T -> int)
    requires SortedBy(s, key) && |s| > 0
    ensures SortedBy(s[1..], key)
  {
    forall i, j | 0 <= i < j < |s| - 1
      ensures key(s[1..][i]) <= key(s[1..][j])
    {
      assert s[1..][i] == s[i + 1] && s[1..][j] == s[j + 1];
    }
  }

  lemma InsertPastHead<T>(x: T, s: seq<T>, key: T -> int)
    requires SortedBy(s, key) && |s| > 0 && key(s[0]) <= key(x)
    ensures SortedBy(s[1..], key)
    ensures Insert(x, s, key) == [s[0]] + Insert(x, s[1..], key)
  {
    SortedTail(s, key);
  }

  lemma InsertInFront<T>(x: T, s: seq<T>, key: T -> int, k: int)
    requires SortedBy(s, key) && |s| > 0 && key(x) < key(s[0])
    ensures WithKey(Insert(x, s, key), key, k) == WithKey(s, key, k) + WithKey([x], key, k)
  {
    WithKeyCons(x, s, Insert(x, s, key), key, k);
    if key(x) == k {
      WithKeyNone(s, key, k);
    } else {
      assert [x][..0] == [];
    }
  }

  /** The element kept in front contributes its share before the rest. */
  lemma InsertBehind<T>(y: T, tail: seq<T>, r: seq<T>, rt: seq<T>, xs: seq<T>, key: T -> int, k: int)
    requires r == [y] + rt
    requires WithKey(rt, key, k) == WithKey(tail, key, k) + xs
    ensures WithKey(r, key, k) == WithKey([y] + tail, key, k) + xs
  {
    WithKeyCons(y, rt, r, key, k);
    WithKeyCons(y, tail, [y] + tail, key, k);
    Reassociate(WithKey([y], key, k), WithKey(tail, key, k), xs);
  }

  lemma Reassociate<T>(a: seq<T>, b: seq<T>, c: seq<T>)
    ensures a + (b + c) == (a + b) + c
  {
  }

  /** Inserting x adds it behind the elements that share its key. */
  lemma {:induction false} InsertWithKey<T>(x: T, s: seq<T>, key: T -> int, k: int)
    requires SortedBy(s, key)
    ensures WithKey(Insert(x, s, key), key, k) == WithKey(s, key, k) + WithKey([x], key, k)
    decreases |s|
  {
    if |s| == 0 {
      assert Insert(x, s, key) == [x];
    } else if key(x) < key(s[0]) {
      InsertInFront(x, s, key, k);
    } else {
      InsertPastHead(x, s, key);
      InsertWithKey(x, s[1..], key, k);
      assert [s[0]] + s[1..] == s;
      InsertBehind(s[0], s[1..], Insert(x, s, key), Insert(x, s[1..], key), WithKey([x], key, k), key, k);
    }
  }

  /** The sort is stable: the elements sharing any one key come out in the
      order they went in. */
  lemma {:induction false} SortByStable<T>(s: seq<T>, key: T -> int, k: int)
    ensures WithKey(SortBy(s, key), key, k) == WithKey(s, key, k)
    decreases |s|
  {
    if |s| > 0 {
      var init := s[..|s| - 1];
      var x := s[|s| - 1];
      SortByStable(init, key, k);
      InsertWithKey(x, SortBy(init, key), key, k);
      assert [x][..0] == [];
    }
  }

  lemma {:induction false} InsertLast<T>(x: T, s: seq<T>, key: T -> int)
    requires SortedBy(s, key)
    requires forall i :: 0 <= i < |s| ==> key(s[i]) <= key(x)
    ensures Insert(x, s, key) == s + [x]
  {
    if |s| > 0 {
      assert key(s[0]) <= key(x);
      InsertLast(x, s[1..], key);
      assert Insert(x, s, key) == [s[0]] + (s[1..] + [x]);
      assert [s[0]] + (s[1..] + [x]) == s + [x];
    }
  }

  /** Sorting an already ordered sequence changes nothing. */
  lemma {:induction false} SortedIsFixed<T>(s: seq<T>, key: T -> int)
    requires SortedBy(s, key)
    ensures SortBy(s, key) == s
  {
    if |s| > 0 {
      var init := s[..|s| - 1];
      SortedIsFixed(init, key);
      InsertLast(s[|s| - 1], init, key);
      assert init + [s[|s| - 1]] == s;
    }
  }

  lemma CountAtMostOne<T>(s: seq<T>, v: T)
    requires forall i, j :: 0 <= i < j < |s| ==> s[i] != s[j]
    ensures multiset(s)[v] <= 1
  {
    if |s| > 0 {
      var init := s[..|s| - 1];
      assert s == init + [s[|s| - 1]];
      CountAtMostOne(init, v);
      if s[|s| - 1] == v {
        assert v !in init;
      }
    }
  }

  lemma CountDuplicate<T>(s: seq<T>, i: nat, j: nat)
    requires i < j < |s| && s[i] == s[j]
    ensures multiset(s)[s[i]] >= 2
  {
    assert s == s[..j] + [s[j]] + s[j + 1..];
    assert s[i] in s[..j];
  }

  /** A permutation of a sequence whose keys are distinct has distinct keys too. */
  lemma {:induction false} DistinctKeysPermutation<T>(a: seq<T>, b: seq<T>, key: T -> int)
    requires multiset(a) == multiset(b)
    requires DistinctKeys(b, key)
    ensures DistinctKeys(a, key)
  {
    forall i, j | 0 <= i < j < |a|
      ensures key(a[i]) != key(a[j])
    {
      assert a[i] in multiset(b) && a[j] in multiset(b);
      var p :| 0 <= p < |b| && b[p] == a[i];
      var q :| 0 <= q < |b| && b[q] == a[j];
      if key(a[i]) == key(a[j]) {
        assert p == q;
        CountAtMostOne(b, a[i]);
        CountDuplicate(a, i, j);
        assert false;
      }
    }
  }

  lemma {:induction false} StrictGap<T>(s: seq<T>, key: T -> int, i: nat, j: nat)
    requires SortedBy(s, key) && DistinctKeys(s, key)
    requires i <= j < |s|
    ensures key(s[j]) - key(s[i]) >= j - i
    decreases j - i
  {
    if i < j {
      StrictGap(s, key, i + 1, j);
    }
  }

  /** An ordered sequence of n elements whose distinct keys all lie in 0..n-1
      holds key i at position i. */
  lemma {:induction false} SortedRange<T>(s: seq<T>, key: T -> int)
    requires SortedBy(s, key) && DistinctKeys(s, key)
    requires forall i :: 0 <= i < |s| ==> 0 <= key(s[i]) < |s|
    ensures forall i :: 0 <= i < |s| ==> key(s[i]) == i
  {
    forall i | 0 <= i < |s|
      ensures key(s[i]) == i
    {
      StrictGap(s, key, 0, i);
      StrictGap(s, key, i, |s| - 1);
    }
  }

  /** Sorting a sequence whose keys are exactly 0..n-1 in some order puts the
      element with key i at position i. */
  lemma SortPermutationOfRange<T>(s: seq<T>, key: T -> int)
    requires DistinctKeys(s, key)
    requires forall i :: 0 <= i < |s| ==> 0 <= key(s[i]) < |s|
    ensures forall i :: 0 <= i < |s| ==> key(SortBy(s, key)[i]) == i
  {
    var r := SortBy(s, key);
    DistinctKeysPermutation(r, s, key);
    forall i | 0 <= i < |r|
      ensures 0 <= key(r[i]) < |r|
    {
      assert r[i] in multiset(s);
    }
    SortedRange(r, key);
  }
}
