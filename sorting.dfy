/**
 * The two orderings the core relies on:
 *  - a stable sort into non-increasing order of a numeric key, which is what
 *    Stream.sorted with a descending comparator does to a list (operator rows
 *    by total duration, thread keys by summed CPU usage);
 *  - String.compareTo's lexicographic order, and Collections.sort over it
 *    (device names in the iostat summary).
 */
module Sorting {

  // ---------------------------------------------------------------------------
  // Stable descending sort by a real-valued key
  // ---------------------------------------------------------------------------

  ghost predicate NonIncreasing<T>(s: seq<T>, key: T -> real) {
    forall i, j :: 0 <= i < j < |s| ==> key(s[i]) >= key(s[j])
  }

  /** The elements of s whose key is exactly v, in their order in s. */
  function WithKey<T>(s: seq<T>, key: T -> real, v: real): (r: seq<T>)
    ensures |r| <= |s|
  {
    if s == [] then []
    else (if key(s[0]) == v then [s[0]] else []) + WithKey(s[1..], key, v)
  }

  /** Puts x after every element of s whose key is at least x's key. */
  function InsertDesc<T>(x: T, s: seq<T>, key: T -> real): (r: seq<T>)
    ensures |r| == |s| + 1
    ensures multiset(r) == multiset(s) + multiset{x}
  {
    if s == [] then [x]
    else
      assert s == [s[0]] + s[1..];
      if key(s[0]) >= key(x) then [s[0]] + InsertDesc(x, s[1..], key)
      else [x] + s
  }

  /** Insertion sort, taking the input from left to right, so equal keys keep their input order. */
  function SortDesc<T>(s: seq<T>, key: T -> real): (r: seq<T>)
    ensures |r| == |s|
  {
    if s == [] then [] else InsertDesc(s[|s| - 1], SortDesc(s[..|s| - 1], key), key)
  }

  lemma InsertDescMember<T>(x: T, s: seq<T>, key: T -> real, y: T)
    requires y in InsertDesc(x, s, key)
    ensures y == x || y in s
  {
    assert y in multiset(InsertDesc(x, s, key));
  }

  lemma AppendAssoc<T>(a: seq<T>, b: seq<T>, c: seq<T>)
    ensures a + (b + c) == (a + b) + c
  {
  }

  lemma NonIncreasingTail<T>(s: seq<T>, key: T -> real)
    requires s != [] && NonIncreasing(s, key)
    ensures NonIncreasing(s[1..], key)
  {
    forall i, j | 0 <= i < j < |s| - 1 ensures key(s[1..][i]) >= key(s[1..][j]) {
      assert s[1..][i] == s[i + 1] && s[1..][j] == s[j + 1];
    }
  }

  lemma {:induction false} WithKeyAppend<T>(a: seq<T>, b: seq<T>, key: T -> real, v: real)
    ensures WithKey(a + b, key, v) == WithKey(a, key, v) + WithKey(b, key, v)
  {
    if a == [] {
      assert a + b == b;
    } else {
      assert (a + b)[0] == a[0];
      assert (a + b)[1..] == a[1..] + b;
      WithKeyAppend(a[1..], b, key, v);
      var h := if key(a[0]) == v then [a[0]] else [];
      assert WithKey(a + b, key, v) == h + (WithKey(a[1..], key, v) + WithKey(b, key, v));
      AppendAssoc(h, WithKey(a[1..], key, v), WithKey(b, key, v));
    }
  }

  lemma WithKeyNone<T>(s: seq<T>, key: T -> real, v: real)
    requires forall i :: 0 <= i < |s| ==> key(s[i]) != v
    ensures WithKey(s, key, v) == []
  {
    if s != [] {
      WithKeyNone(s[1..], key, v);
    }
  }

  lemma {:induction false} InsertDescSorted<T>(x: T, s: seq<T>, key: T -> real)
    requires NonIncreasing(s, key)
    ensures NonIncreasing(InsertDesc(x, s, key), key)
    decreases |s|
  {
    if s != [] && key(s[0]) >= key(x) {
      var t := InsertDesc(x, s[1..], key);
      assert NonIncreasing(t, key) by {
        NonIncreasingTail(s, key);
        InsertDescSorted(x, s[1..], key);
      }
      forall j | 0 <= j < |t| ensures key(t[j]) <= key(s[0]) {
        InsertDescMember(x, s[1..], key, t[j]);
        if t[j] != x {
          var m :| 0 <= m < |s[1..]| && s[1..][m] == t[j];
          assert s[m + 1] == t[j];
        }
      }
      assert InsertDesc(x, s, key) == [s[0]] + t;
    }
  }

  lemma {:induction false} InsertDescWithKey<T>(x: T, s: seq<T>, key: T -> real, v: real)
    requires NonIncreasing(s, key)
    ensures WithKey(InsertDesc(x, s, key), key, v) ==
            WithKey(s, key, v) + (if key(x) == v then [x] else [])
    decreases |s|
  {
    if s == [] {
      assert WithKey([x], key, v) == (if key(x) == v then [x] else []) + WithKey([], key, v);
    } else if key(s[0]) >= key(x) {
      var t := InsertDesc(x, s[1..], key);
      NonIncreasingTail(s, key);
      InsertDescWithKey(x, s[1..], key, v);
      assert ([s[0]] + t)[1..] == t;
      AppendAssoc(if key(s[0]) == v then [s[0]] else [], WithKey(s[1..], key, v), if key(x) == v then [x] else []);
    } else {
      assert ([x] + s)[1..] == s;
      if key(x) == v {
        WithKeyNone(s, key, v);
      }
    }
  }

  /** SortDesc returns its input in non-increasing key order. */
  lemma {:induction false} SortDescSorted<T>(s: seq<T>, key: T -> real)
    ensures NonIncreasing(SortDesc(s, key), key)
  {
    if s != [] {
      SortDescSorted(s[..|s| - 1], key);
      InsertDescSorted(s[|s| - 1], SortDesc(s[..|s| - 1], key), key);
    }
  }

  /** SortDesc is a permutation of its input. */
  lemma {:induction false} SortDescPermutation<T>(s: seq<T>, key: T -> real)
    ensures multiset(SortDesc(s, key)) == multiset(s)
  {
    if s != [] {
      SortDescPermutation(s[..|s| - 1], key);
      assert s == s[..|s| - 1] + [s[|s| - 1]];
    }
  }

  /** SortDesc is stable: the elements sharing any one key keep their input order. */
  lemma {:induction false} SortDescStable<T>(s: seq<T>, key: T -> real, v: real)
    ensures WithKey(SortDesc(s, key), key, v) == WithKey(s, key, v)
  {
    if s != [] {
      var init := s[..|s| - 1];
      assert WithKey(SortDesc(init, key), key, v) == WithKey(init, key, v) by {
        SortDescStable(init, key, v);
      }
      assert WithKey(SortDesc(s, key), key, v) ==
             WithKey(SortDesc(init, key), key, v) + (if key(s[|s| - 1]) == v then [s[|s| - 1]] else []) by {
        SortDescSorted(init, key);
        InsertDescWithKey(s[|s| - 1], SortDesc(init, key), key, v);
      }
      assert WithKey(s, key, v) == WithKey(init, key, v) + WithKey([s[|s| - 1]], key, v) by {
        WithKeyAppend(init, [s[|s| - 1]], key, v);
        assert init + [s[|s| - 1]] == s;
      }
    }
  }

  // ---------------------------------------------------------------------------
  // String.compareTo order and Collections.sort of distinct strings
  // ---------------------------------------------------------------------------

  /** a.compareTo(b) <= 0: lexicographic by character code, a proper prefix first. */
  predicate StrLe(a: string, b: string) {
    if a == [] then true
    else if b == [] then false
    else if a[0] != b[0] then a[0] < b[0]
    else StrLe(a[1..], b[1..])
  }

  lemma {:induction false} StrLeTotal(a: string, b: string)
    ensures StrLe(a, b) || StrLe(b, a)
  {
    if a != [] && b != [] && a[0] == b[0] {
      StrLeTotal(a[1..], b[1..]);
    }
  }

  lemma {:induction false} StrLeAntisymmetric(a: string, b: string)
    requires StrLe(a, b) && StrLe(b, a)
    ensures a == b
  {
    if a != [] && b != [] {
      StrLeAntisymmetric(a[1..], b[1..]);
      assert a == [a[0]] + a[1..] && b == [b[0]] + b[1..];
    }
  }

  lemma {:induction false} StrLeTransitive(a: string, b: string, c: string)
    requires StrLe(a, b) && StrLe(b, c)
    ensures StrLe(a, c)
  {
    if a != [] && b != [] && c != [] && a[0] == b[0] && b[0] == c[0] {
      StrLeTransitive(a[1..], b[1..], c[1..]);
    }
  }

  /** Strictly increasing in String.compareTo order: sorted and without repeats. */
  ghost predicate StrictlySorted(s: seq<string>) {
    forall i, j :: 0 <= i < j < |s| ==> StrLe(s[i], s[j]) && s[i] != s[j]
  }

  function InsertAsc(x: string, s: seq<string>): (r: seq<string>)
    ensures multiset(r) == multiset(s) + multiset{x}
  {
    if s == [] then [x]
    else
      assert s == [s[0]] + s[1..];
      if StrLe(x, s[0]) then [x] + s
      else [s[0]] + InsertAsc(x, s[1..])
  }

  /** Collections.sort on a list of strings (insertion sort). */
  function SortStrings(s: seq<string>): (r: seq<string>)
    ensures multiset(r) == multiset(s)
  {
    if s == [] then []
    else
      assert s == s[..|s| - 1] + [s[|s| - 1]];
      InsertAsc(s[|s| - 1], SortStrings(s[..|s| - 1]))
  }

  lemma InsertAscMember(x: string, s: seq<string>, y: string)
    requires y in InsertAsc(x, s)
    ensures y == x || y in s
  {
    assert y in multiset(InsertAsc(x, s));
  }

  lemma StrictlySortedTail(s: seq<string>)
    requires s != [] && StrictlySorted(s)
    ensures StrictlySorted(s[1..])
  {
    forall i, j | 0 <= i < j < |s| - 1 ensures StrLe(s[1..][i], s[1..][j]) && s[1..][i] != s[1..][j] {
      assert s[1..][i] == s[i + 1] && s[1..][j] == s[j + 1];
    }
  }

  lemma {:induction false} InsertAscSorted(x: string, s: seq<string>)
    requires StrictlySorted(s) && x !in s
    ensures StrictlySorted(InsertAsc(x, s))
    decreases |s|, 1
  {
    if s != [] && !StrLe(x, s[0]) {
      InsertAscSortedBehind(x, s);
    } else if s != [] {
      InsertAscSortedFront(x, s);
    }
  }

  lemma {:induction false} InsertAscSortedBehind(x: string, s: seq<string>)
    requires StrictlySorted(s) && x !in s && s != [] && !StrLe(x, s[0])
    ensures StrictlySorted(InsertAsc(x, s))
    decreases |s|, 0
  {
    var t := InsertAsc(x, s[1..]);
    assert StrictlySorted(t) by {
      assert x !in s[1..];
      StrictlySortedTail(s);
      InsertAscSorted(x, s[1..]);
    }
    assert StrLe(s[0], x) by {
      StrLeTotal(x, s[0]);
    }
    forall j | 0 <= j < |t| ensures StrLe(s[0], t[j]) && s[0] != t[j] {
      InsertAscMember(x, s[1..], t[j]);
      if t[j] != x {
        var m :| 0 <= m < |s[1..]| && s[1..][m] == t[j];
        assert s[m + 1] == t[j];
      }
    }
    assert InsertAsc(x, s) == [s[0]] + t;
    ConsSorted(s[0], t);
  }

  lemma ConsSorted(a: string, t: seq<string>)
    requires StrictlySorted(t)
    requires forall j :: 0 <= j < |t| ==> StrLe(a, t[j]) && a != t[j]
    ensures StrictlySorted([a] + t)
  {
    forall i, j | 0 <= i < j < |t| + 1 ensures StrLe(([a] + t)[i], ([a] + t)[j]) && ([a] + t)[i] != ([a] + t)[j] {
      if i > 0 {
        assert ([a] + t)[i] == t[i - 1];
      }
      assert ([a] + t)[j] == t[j - 1];
    }
  }

  lemma InsertAscSortedFront(x: string, s: seq<string>)
    requires StrictlySorted(s) && x !in s && s != [] && StrLe(x, s[0])
    ensures StrictlySorted(InsertAsc(x, s))
  {
    forall j | 0 <= j < |s| ensures StrLe(x, s[j]) && x != s[j] {
      if j > 0 {
        StrLeTransitive(x, s[0], s[j]);
      }
    }
    assert InsertAsc(x, s) == [x] + s;
    ConsSorted(x, s);
  }

  /** Sorting distinct strings gives the same strings, strictly increasing. */
  lemma {:induction false} SortStringsSorted(s: seq<string>)
    requires forall i, j :: 0 <= i < j < |s| ==> s[i] != s[j]
    ensures StrictlySorted(SortStrings(s))
    ensures multiset(SortStrings(s)) == multiset(s)
  {
    if s != [] {
      var init := s[..|s| - 1];
      SortStringsSorted(init);
      var x := s[|s| - 1];
      forall m | 0 <= m < |init| ensures init[m] != x {
        assert init[m] == s[m];
      }
      assert x !in multiset(init);
      assert x !in multiset(SortStrings(init));
      InsertAscSorted(x, SortStrings(init));
    }
  }

  /**
   * A strictly increasing sequence is fixed by its elements: whatever order the
   * strings were collected in, sorting them gives one and the same list.
   */
  lemma {:induction false} StrictlySortedUnique(a: seq<string>, b: seq<string>)
    requires StrictlySorted(a) && StrictlySorted(b)
    requires forall x :: x in a <==> x in b
    ensures a == b
    decreases |a|
  {
    assert a != [] <==> b != [] by {
      if a != [] { assert a[0] in b; }
      if b != [] { assert b[0] in a; }
    }
    if a != [] {
      assert a[0] in b;
      var j :| 0 <= j < |b| && b[j] == a[0];
      assert b[0] in a;
      var i :| 0 <= i < |a| && a[i] == b[0];
      assert StrLe(b[0], a[0]) by {
        if j > 0 { assert StrLe(b[0], b[j]); }
        else { StrLeTotal(b[0], a[0]); }
      }
      assert StrLe(a[0], b[0]) by {
        if i > 0 { assert StrLe(a[0], a[i]); }
        else { StrLeTotal(a[0], b[0]); }
      }
      StrLeAntisymmetric(a[0], b[0]);
      StrictlySortedTail(a);
      StrictlySortedTail(b);
      forall x ensures x in a[1..] <==> x in b[1..] {
        if x in a[1..] {
          var k :| 0 <= k < |a[1..]| && a[1..][k] == x;
          assert x == a[k + 1] && x != a[0];
          assert x in b;
          var m :| 0 <= m < |b| && b[m] == x;
          assert m != 0;
          assert x == b[1..][m - 1];
        }
        if x in b[1..] {
          var k :| 0 <= k < |b[1..]| && b[1..][k] == x;
          assert x == b[k + 1] && x != b[0];
          assert x in a;
          var m :| 0 <= m < |a| && a[m] == x;
          assert m != 0;
          assert x == a[1..][m - 1];
        }
      }
      StrictlySortedUnique(a[1..], b[1..]);
      assert a == [a[0]] + a[1..] && b == [b[0]] + b[1..];
    }
  }
}
