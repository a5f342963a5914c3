/** The stable, descending-by-key ordering that `Array.prototype.sort` gives
    with a comparator `(a, b) => key(b) - key(a)`. ECMAScript requires the
    sort to be stable, so the result is fully determined: elements are ordered
    by non-increasing key and elements with equal keys keep their input order.
    InsertionSort is the reference definition; StableSortInPlace is the in-place
    array version, proved to produce the same sequence. */
module Sorting {

  /** Non-increasing by key. */
  ghost predicate SortedDesc<T>(s: seq<T>, key: T -> int)
  {
    forall i, j :: 0 <= i < j < |s| ==> key(s[i]) >= key(s[j])
  }

  /** The elements of s whose key is v, in their order in s. */
  function WithKey<T>(s: seq<T>, key: T -> int, v: int): seq<T>
  {
    if s == [] then []
    else (if key(s[0]) == v then [s[0]] else []) + WithKey(s[1..], key, v)
  }

  /** Inserts x after every element whose key is at least key(x). */
  function Insert<T>(x: T, s: seq<T>, key: T -> int): (r: seq<T>)
    ensures |r| == |s| + 1
  {
    if s == [] then [x]
    else if key(s[0]) >= key(x) then [s[0]] + Insert(x, s[1..], key)
    else [x] + s
  }

  /** Insertion sort: the last element is inserted into the sorted rest. */
  function InsertionSort<T>(s: seq<T>, key: T -> int): (r: seq<T>)
    ensures |r| == |s|
  {
    if s == [] then [] else Insert(s[|s| - 1], InsertionSort(s[..|s| - 1], key), key)
  }

  lemma {:induction false} InsertPermutes<T>(x: T, s: seq<T>, key: T -> int)
    ensures multiset(Insert(x, s, key)) == multiset(s) + multiset{x}
  {
    if s != [] && key(s[0]) >= key(x) {
      InsertPermutes(x, s[1..], key);
      assert s == [s[0]] + s[1..];
    }
  }

  /** The insertion sort permutes its input. */
  lemma {:induction false} InsertionSortPermutes<T>(s: seq<T>, key: T -> int)
    ensures multiset(InsertionSort(s, key)) == multiset(s)
  {
    if s != [] {
      InsertionSortPermutes(s[..|s| - 1], key);
      InsertPermutes(s[|s| - 1], InsertionSort(s[..|s| - 1], key), key);
      assert s == s[..|s| - 1] + [s[|s| - 1]];
    }
  }

  lemma {:induction false} InsertSorted<T>(x: T, s: seq<T>, key: T -> int)
    requires SortedDesc(s, key)
    ensures SortedDesc(Insert(x, s, key), key)
  {
    if s != [] && key(s[0]) >= key(x) {
      InsertSorted(x, s[1..], key);
      var r := Insert(x, s[1..], key);
      InsertPermutes(x, s[1..], key);
      forall k | 0 <= k < |r| ensures key(s[0]) >= key(r[k]) {
        assert r[k] in multiset(r);
        if r[k] != x {
          assert r[k] in multiset(s[1..]);
          var m :| 0 <= m < |s[1..]| && s[1..][m] == r[k];
          assert s[m + 1] == r[k];
        }
      }
    }
  }

  /** The insertion sort orders its result by non-increasing key. */
  lemma {:induction false} InsertionSortSorted<T>(s: seq<T>, key: T -> int)
    ensures SortedDesc(InsertionSort(s, key), key)
  {
    if s != [] {
      InsertionSortSorted(s[..|s| - 1], key);
      InsertSorted(s[|s| - 1], InsertionSort(s[..|s| - 1], key), key);
    }
  }

  lemma {:induction false} WithKeyAppend<T>(s: seq<T>, t: seq<T>, key: T -> int, v: int)
    ensures WithKey(s + t, key, v) == WithKey(s, key, v) + WithKey(t, key, v)
  {
    if s == [] {
      assert s + t == t;
    } else {
      var u := s + t;
      var h: seq<T> := if key(s[0]) == v then [s[0]] else [];
      assert u[0] == s[0] && u[1..] == s[1..] + t;
      WithKeyAppend(s[1..], t, key, v);
      calc {
        WithKey(u, key, v);
        h + WithKey(s[1..] + t, key, v);
        h + (WithKey(s[1..], key, v) + WithKey(t, key, v));
        (h + WithKey(s[1..], key, v)) + WithKey(t, key, v);
      }
    }
  }

  lemma WithKeySingle<T>(x: T, key: T -> int, v: int)
    ensures WithKey([x], key, v) == if key(x) == v then [x] else []
  {
    assert [x][1..] == [];
  }

  /** Inserting x into a sorted sequence puts it after every element of equal
      key, so among the elements with key(x) it comes last. */
  lemma {:induction false} WithKeyInsert<T>(x: T, s: seq<T>, key: T -> int, v: int)
    requires SortedDesc(s, key)
    ensures WithKey(Insert(x, s, key), key, v)
         == WithKey(s, key, v) + (if key(x) == v then [x] else [])
  {
    WithKeySingle(x, key, v);
    if s == [] {
    } else if key(s[0]) >= key(x) {
      WithKeyInsert(x, s[1..], key, v);
      WithKeyCons(x, s, key, v);
    } else {
      assert Insert(x, s, key) == [x] + s;
      WithKeyAppend([x], s, key, v);
      WithKeyNone(s, key, v, x);
    }
  }

  lemma WithKeyCons<T>(x: T, s: seq<T>, key: T -> int, v: int)
    requires s != [] && key(s[0]) >= key(x)
    requires WithKey(Insert(x, s[1..], key), key, v)
          == WithKey(s[1..], key, v) + (if key(x) == v then [x] else [])
    ensures WithKey(Insert(x, s, key), key, v)
         == WithKey(s, key, v) + (if key(x) == v then [x] else [])
  {
    var rest := Insert(x, s[1..], key);
    var h: seq<T> := if key(s[0]) == v then [s[0]] else [];
    var tail: seq<T> := if key(x) == v then [x] else [];
    var ins := Insert(x, s, key);
    assert ins == [s[0]] + rest;
    assert ins[0] == s[0] && ins[1..] == rest;
    calc {
      WithKey(ins, key, v);
      h + WithKey(rest, key, v);
      h + (WithKey(s[1..], key, v) + tail);
      (h + WithKey(s[1..], key, v)) + tail;
      WithKey(s, key, v) + tail;
    }
  }

  /** When every element of a sorted s has key below key(x), none has key(x);
      so if key(x) == v, s contributes nothing to WithKey(_, v). */
  lemma {:induction false} WithKeyNone<T>(s: seq<T>, key: T -> int, v: int, x: T)
    requires SortedDesc(s, key)
    requires s != [] ==> key(s[0]) < key(x)
    ensures key(x) == v ==> WithKey(s, key, v) == []
    decreases |s|
  {
    if s != [] {
      WithKeyNone(s[1..], key, v, x);
    }
  }

  /** Stability: for every key value, the elements with that key appear in
      the result in exactly their input order. */
  lemma {:induction false} InsertionSortStable<T>(s: seq<T>, key: T -> int, v: int)
    ensures WithKey(InsertionSort(s, key), key, v) == WithKey(s, key, v)
  {
    if s != [] {
      var init := s[..|s| - 1];
      InsertionSortStable(init, key, v);
      InsertionSortSorted(init, key);
      WithKeyInsert(s[|s| - 1], InsertionSort(init, key), key, v);
      WithKeyAppend(init, [s[|s| - 1]], key, v);
      WithKeySingle(s[|s| - 1], key, v);
      assert init + [s[|s| - 1]] == s;
    }
  }

  /** A sorted sequence split at j around x: Insert puts x exactly at j. */
  lemma {:induction false} InsertAt<T>(x: T, s: seq<T>, key: T -> int, j: nat)
    requires j <= |s|
    requires forall k :: 0 <= k < j ==> key(s[k]) >= key(x)
    requires forall k :: j <= k < |s| ==> key(s[k]) < key(x)
    ensures Insert(x, s, key) == s[..j] + [x] + s[j..]
  {
    if j == 0 {
      assert s[..0] == [] && s[0..] == s;
      if s != [] {
        assert key(s[0]) < key(x);
      }
    } else {
      var t := s[1..];
      assert key(s[0]) >= key(x);
      InsertAtTail(x, s, key, j);
      InsertAt(x, t, key, j - 1);
      calc {
        Insert(x, s, key);
        [s[0]] + Insert(x, t, key);
        [s[0]] + (t[..j - 1] + [x] + t[j - 1..]);
        { assert t[..j - 1] == s[1..j] && t[j - 1..] == s[j..]; }
        [s[0]] + (s[1..j] + [x] + s[j..]);
        { assert s[..j] == [s[0]] + s[1..j]; }
        s[..j] + [x] + s[j..];
      }
    }
  }

  /** The conditions of InsertAt carry over to the tail. */
  lemma InsertAtTail<T>(x: T, s: seq<T>, key: T -> int, j: nat)
    requires 0 < j <= |s|
    requires forall k :: 0 <= k < j ==> key(s[k]) >= key(x)
    requires forall k :: j <= k < |s| ==> key(s[k]) < key(x)
    ensures forall k :: 0 <= k < j - 1 ==> key(s[1..][k]) >= key(x)
    ensures forall k :: j - 1 <= k < |s| - 1 ==> key(s[1..][k]) < key(x)
  {
  }

  /** x placed at position j of sorted, followed by rest. */
  function Placed<T>(sorted: seq<T>, x: T, j: nat, rest: seq<T>): (r: seq<T>)
    requires j <= |sorted|
    ensures |r| == |sorted| + 1 + |rest| && r[j] == x
    ensures forall k :: 0 <= k < j ==> r[k] == sorted[k]
  {
    sorted[..j] + [x] + sorted[j..] + rest
  }

  /** Swapping x one place to the left. */
  lemma SwapLeft<T>(s: seq<T>, sorted: seq<T>, x: T, rest: seq<T>, j: nat)
    requires 0 < j <= |sorted|
    requires s == Placed(sorted, x, j, rest)
    ensures s[j - 1 := x][j := sorted[j - 1]] == Placed(sorted, x, j - 1, rest)
  {
    var t := s[j - 1 := x][j := sorted[j - 1]];
    var u := Placed(sorted, x, j - 1, rest);
    assert |t| == |u|;
    forall k | 0 <= k < |t| ensures t[k] == u[k] {
      if k < j - 1 {
      } else if k == j - 1 {
      } else if k == j {
      } else {
        assert t[k] == s[k];
      }
    }
  }

  /** When the scan stops at j, x sits where Insert puts it. */
  lemma PlacedIsInsert<T>(sorted: seq<T>, x: T, key: T -> int, j: nat, rest: seq<T>)
    requires SortedDesc(sorted, key) && j <= |sorted|
    requires j > 0 ==> key(sorted[j - 1]) >= key(x)
    requires forall k :: j <= k < |sorted| ==> key(sorted[k]) < key(x)
    ensures Placed(sorted, x, j, rest) == Insert(x, sorted, key) + rest
  {
    forall k | 0 <= k < j ensures key(sorted[k]) >= key(x) {
      assert key(sorted[k]) >= key(sorted[j - 1]);
    }
    InsertAt(x, sorted, key, j);
  }

  /** One step of the in-place sort: a[i] is swapped leftwards past the
      elements of the sorted prefix a[..i] whose key is smaller. */
  method InsertStep<T>(a: array<T>, i: nat, key: T -> int)
    requires i < a.Length
    requires SortedDesc(a[..i], key)
    modifies a
    ensures a[..] == Insert(old(a[i]), old(a[..i]), key) + old(a[i + 1..])
  {
    ghost var sorted := a[..i];
    ghost var rest := a[i + 1..];
    var x := a[i];
    var j := i;
    assert a[..] == Placed(sorted, x, j, rest);
    while j > 0 && key(a[j - 1]) < key(x)
      invariant 0 <= j <= i
      invariant a[..] == Placed(sorted, x, j, rest)
      invariant forall k :: j <= k < i ==> key(sorted[k]) < key(x)
    {
      ghost var s := a[..];
      SwapLeft(s, sorted, x, rest, j);
      a[j - 1], a[j] := x, a[j - 1];
      assert a[..] == s[j - 1 := x][j := sorted[j - 1]];
      j := j - 1;
    }
    PlacedIsInsert(sorted, x, key, j, rest);
  }

  /** Sorting one more element of the input inserts it into the sorted prefix. */
  lemma SortPrefixStep<T>(input: seq<T>, i: nat, key: T -> int)
    requires i < |input|
    ensures InsertionSort(input[..i + 1], key) == Insert(input[i], InsertionSort(input[..i], key), key)
  {
    assert input[..i + 1][..i] == input[..i];
  }

  lemma SplitAt<T>(s: seq<T>, done: seq<T>, input: seq<T>, i: nat)
    requires i < |input| && |done| == i
    requires s == done + input[i..]
    ensures s[..i] == done && s[i] == input[i] && s[i + 1..] == input[i + 1..]
  {
  }

  /** Sorts a in place by non-increasing key, keeping equal keys in order. */
  method StableSortInPlace<T>(a: array<T>, key: T -> int)
    modifies a
    ensures a[..] == InsertionSort(old(a[..]), key)
  {
    ghost var input := a[..];
    var i := 0;
    while i < a.Length
      invariant 0 <= i <= a.Length
      invariant a[..] == InsertionSort(input[..i], key) + input[i..]
    {
      InsertionSortSorted(input[..i], key);
      SplitAt(a[..], InsertionSort(input[..i], key), input, i);
      InsertStep(a, i, key);
      SortPrefixStep(input, i, key);
      i := i + 1;
    }
    assert input[..a.Length] == input;
  }
}
