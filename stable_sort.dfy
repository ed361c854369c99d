/** Stable sorting in non-increasing order of an integer key. This is the
    `Array.prototype.sort` of ECMAScript 2019 and later (which must be
    stable) with a comparator `(a, b) => key(b) - key(a)`, and the model of
    a SQL `ORDER BY key DESC` over a table kept in rowid order. An
    ascending order is the descending order of the negated key. */
module StableSort {
  import Seqs

  predicate SortedDesc<T>(s: seq<T>, key: T -> int) {
    forall i, j :: 0 <= i < j < |s| ==> key(s[i]) >= key(s[j])
  }

  /** Inserts `x` after every leading element whose key is at least `x`'s:
      in a sorted `t`, behind all elements of equal key. */
  function Insert<T>(x: T, t: seq<T>, key: T -> int): seq<T> {
    if t == [] then [x]
    else if key(t[0]) >= key(x) then [t[0]] + Insert(x, t[1..], key)
    else [x] + t
  }

  /** The reference stable sort: insertion of each element, left to right. */
  function SortDesc<T>(s: seq<T>, key: T -> int): seq<T> {
    if s == [] then []
    else Insert(s[|s| - 1], SortDesc(s[..|s| - 1], key), key)
  }

  /** Holds of the elements whose key is `k`. */
  function KeyIs<T>(key: T -> int, k: int): T -> bool {
    x => key(x) == k
  }

  /** The position of the first element of largest key. */
  function FirstMaxIndex<T>(s: seq<T>, key: T -> int): (i: nat)
    requires |s| > 0
    ensures i < |s|
    ensures forall j :: 0 <= j < |s| ==> key(s[j]) <= key(s[i])
    ensures forall j :: 0 <= j < i ==> key(s[j]) < key(s[i])
  {
    if |s| == 1 then 0
    else
      var m := FirstMaxIndex(s[..|s| - 1], key);
      if key(s[|s| - 1]) > key(s[m]) then |s| - 1 else m
  }

  lemma {:induction false} InsertMultiset<T>(x: T, t: seq<T>, key: T -> int)
    ensures multiset(Insert(x, t, key)) == multiset(t) + multiset{x}
  {
    if t != [] && key(t[0]) >= key(x) {
      InsertMultiset(x, t[1..], key);
      assert t == [t[0]] + t[1..];
    }
  }

  lemma {:induction false} InsertSorted<T>(x: T, t: seq<T>, key: T -> int)
    requires SortedDesc(t, key)
    ensures SortedDesc(Insert(x, t, key), key)
  {
    if t != [] && key(t[0]) >= key(x) {
      var rest := Insert(x, t[1..], key);
      InsertSorted(x, t[1..], key);
      InsertMultiset(x, t[1..], key);
      forall j | 0 <= j < |rest| ensures key(t[0]) >= key(rest[j]) {
        assert rest[j] in multiset(rest);
        assert rest[j] in multiset(t[1..]) + multiset{x};
        if rest[j] != x {
          assert rest[j] in t[1..];
        }
      }
    }
  }

  /** In a sorted `t`, inserting `x` at the boundary `j` is `Insert`. */
  lemma {:induction false} InsertAt<T>(x: T, t: seq<T>, j: nat, key: T -> int)
    requires SortedDesc(t, key)
    requires j <= |t|
    requires j > 0 ==> key(t[j - 1]) >= key(x)
    requires forall m :: j <= m < |t| ==> key(t[m]) < key(x)
    ensures Insert(x, t, key) == t[..j] + [x] + t[j..]
  {
    if j == 0 {
      assert t[j..] == t;
    } else {
      assert key(t[0]) >= key(t[j - 1]);
      InsertAt(x, t[1..], j - 1, key);
      assert t[1..][..j - 1] == t[1..j];
      assert t[1..][j - 1..] == t[j..];
      assert t[..j] == [t[0]] + t[1..j];
    }
  }

  /** Among elements of `x`'s key, the inserted `x` comes last. */
  lemma {:induction false} InsertStable<T>(x: T, t: seq<T>, key: T -> int, k: int)
    requires SortedDesc(t, key)
    ensures Seqs.Filter(Insert(x, t, key), KeyIs(key, k))
         == Seqs.Filter(t, KeyIs(key, k)) + (if key(x) == k then [x] else [])
  {
    var p := KeyIs(key, k);
    if t == [] {
    } else if key(t[0]) >= key(x) {
      InsertStable(x, t[1..], key, k);
      Seqs.FilterConcat([t[0]], Insert(x, t[1..], key), p);
      Seqs.FilterConcat([t[0]], t[1..], p);
      assert t == [t[0]] + t[1..];
    } else {
      Seqs.FilterConcat([x], t, p);
      if key(x) == k {
        Seqs.FilterNonePass(t, p);
      }
    }
  }

  lemma {:induction false} SortMultiset<T>(s: seq<T>, key: T -> int)
    ensures multiset(SortDesc(s, key)) == multiset(s)
  {
    if s != [] {
      var init := s[..|s| - 1];
      SortMultiset(init, key);
      InsertMultiset(s[|s| - 1], SortDesc(init, key), key);
      assert s == init + [s[|s| - 1]];
    }
  }

  lemma {:induction false} SortLength<T>(s: seq<T>, key: T -> int)
    ensures |SortDesc(s, key)| == |s|
  {
    SortMultiset(s, key);
    assert |multiset(SortDesc(s, key))| == |multiset(s)|;
  }

  lemma {:induction false} SortSorted<T>(s: seq<T>, key: T -> int)
    ensures SortedDesc(SortDesc(s, key), key)
  {
    if s != [] {
      SortSorted(s[..|s| - 1], key);
      InsertSorted(s[|s| - 1], SortDesc(s[..|s| - 1], key), key);
    }
  }

  /** Stability: for every key, the elements of that key appear in the
      output in the order they had in the input. */
  lemma {:induction false} SortStable<T>(s: seq<T>, key: T -> int, k: int)
    ensures Seqs.Filter(SortDesc(s, key), KeyIs(key, k)) == Seqs.Filter(s, KeyIs(key, k))
  {
    if s != [] {
      var init, x := s[..|s| - 1], s[|s| - 1];
      SortStable(init, key, k);
      SortSorted(init, key);
      InsertStable(x, SortDesc(init, key), key, k);
      assert s == init + [x];
      Seqs.FilterConcat(init, [x], KeyIs(key, k));
    }
  }

  /** The first element of the sorted output is the first element of
      largest key in the input: ties go to the earlier element. */
  lemma {:induction false} SortHeadIsFirstMax<T>(s: seq<T>, key: T -> int)
    requires |s| > 0
    ensures |SortDesc(s, key)| == |s|
    ensures SortDesc(s, key)[0] == s[FirstMaxIndex(s, key)]
  {
    SortLength(s, key);
    if |s| > 1 {
      var init, x := s[..|s| - 1], s[|s| - 1];
      SortHeadIsFirstMax(init, key);
      var m := FirstMaxIndex(init, key);
      assert init[m] == s[m];
    }
  }

  /** Moves `a[i]` leftwards past the elements of smaller key in the
      sorted prefix `a[..i]`. */
  method InsertLast<T>(a: array<T>, i: nat, key: T -> int)
    requires i < a.Length
    requires SortedDesc(a[..i], key)
    modifies a
    ensures a[..i + 1] == Insert(old(a[i]), old(a[..i]), key)
    ensures a[i + 1..] == old(a[i + 1..])
  {
    ghost var t := a[..i];
    var x := a[i];
    var j := i;
    while j > 0 && key(a[j - 1]) < key(x)
      invariant 0 <= j <= i
      invariant a[..j] == t[..j]
      invariant a[j + 1..i + 1] == t[j..]
      invariant a[i + 1..] == old(a[i + 1..])
      invariant forall m :: j <= m < i ==> key(t[m]) < key(x)
    {
      a[j] := a[j - 1];
      j := j - 1;
    }
    a[j] := x;
    assert a[..i + 1] == t[..j] + [x] + t[j..];
    InsertAt(x, t, j, key);
  }

  /** Sorts `a` in place, stably, in non-increasing order of `key`. */
  method SortInPlace<T>(a: array<T>, key: T -> int)
    modifies a
    ensures a[..] == SortDesc(old(a[..]), key)
  {
    var i := 0;
    while i < a.Length
      invariant 0 <= i <= a.Length
      invariant a[..i] == SortDesc(old(a[..])[..i], key)
      invariant a[i..] == old(a[..])[i..]
    {
      SortSorted(old(a[..])[..i], key);
      InsertLast(a, i, key);
      assert old(a[..])[..i + 1][..i] == old(a[..])[..i];
      i := i + 1;
    }
    assert a[..] == a[..a.Length];
    assert old(a[..])[..a.Length] == old(a[..]);
  }
}
