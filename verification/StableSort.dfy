/** Python's `sorted(xs, key=...)`: a stable sort, as left-to-right insertion. */
module StableSort {
  function InsertBy<T>(s: seq<T>, x: T, key: T -> int): seq<T> {
    if s == [] || key(s[|s| - 1]) <= key(x) then s + [x]
    else InsertBy(s[..|s| - 1], x, key) + [s[|s| - 1]]
  }

  function SortBy<T>(s: seq<T>, key: T -> int): seq<T> {
    if s == [] then [] else InsertBy(SortBy(s[..|s| - 1], key), s[|s| - 1], key)
  }

  ghost predicate OrderedBy<T>(s: seq<T>, key: T -> int) {
    forall i, j :: 0 <= i <= j < |s| ==> key(s[i]) <= key(s[j])
  }

  ghost predicate StrictlyBy<T>(s: seq<T>, key: T -> int) {
    forall i, j :: 0 <= i < j < |s| ==> key(s[i]) < key(s[j])
  }

  lemma {:induction false} InsertPermutes<T>(s: seq<T>, x: T, key: T -> int)
    ensures multiset(InsertBy(s, x, key)) == multiset(s) + multiset{x}
  {
    if s != [] && key(s[|s| - 1]) > key(x) {
      var n := |s| - 1;
      InsertPermutes(s[..n], x, key);
      assert s == s[..n] + [s[n]];
    }
  }

  lemma {:induction false} InsertIsOrdered<T>(s: seq<T>, x: T, key: T -> int)
    requires OrderedBy(s, key)
    ensures OrderedBy(InsertBy(s, x, key), key)
  {
    if s != [] && key(s[|s| - 1]) > key(x) {
      var n := |s| - 1;
      InsertIsOrdered(s[..n], x, key);
      var r := InsertBy(s[..n], x, key);
      InsertPermutes(s[..n], x, key);
      forall i | 0 <= i < |r| ensures key(r[i]) <= key(s[n]) {
        assert r[i] in multiset(r);
        assert r[i] == x || r[i] in s[..n];
      }
      SnocIsOrdered(r, s[n], key);
    }
  }

  lemma SnocIsOrdered<T>(s: seq<T>, x: T, key: T -> int)
    requires OrderedBy(s, key) && forall i | 0 <= i < |s| :: key(s[i]) <= key(x)
    ensures OrderedBy(s + [x], key)
  {
  }

  lemma {:induction false} SortIsOrdered<T>(s: seq<T>, key: T -> int)
    ensures OrderedBy(SortBy(s, key), key)
    ensures multiset(SortBy(s, key)) == multiset(s)
  {
    if s != [] {
      var n := |s| - 1;
      assert s == s[..n] + [s[n]];
      SortIsOrdered(s[..n], key);
      InsertIsOrdered(SortBy(s[..n], key), s[n], key);
      InsertPermutes(SortBy(s[..n], key), s[n], key);
    }
  }

  /** An ordered sequence is left alone: ties keep their order. */
  /** The elements with one key, in their order. */
  function WithKey<T>(s: seq<T>, key: T -> int, k: int): seq<T> {
    if s == [] then [] else WithKey(s[..|s| - 1], key, k) + if key(s[|s| - 1]) == k then [s[|s| - 1]] else []
  }

  lemma WithKeySnoc<T>(s: seq<T>, x: T, key: T -> int, k: int)
    ensures WithKey(s + [x], key, k) == WithKey(s, key, k) + if key(x) == k then [x] else []
  {
    assert (s + [x])[..|s|] == s;
  }

  lemma {:induction false} InsertIsStable<T>(s: seq<T>, x: T, key: T -> int, k: int)
    ensures WithKey(InsertBy(s, x, key), key, k) == WithKey(s, key, k) + if key(x) == k then [x] else []
  {
    if s == [] || key(s[|s| - 1]) <= key(x) {
      WithKeySnoc(s, x, key, k);
    } else {
      var n := |s| - 1;
      InsertIsStable(s[..n], x, key, k);
      WithKeySnoc(InsertBy(s[..n], x, key), s[n], key, k);
      assert key(s[n]) == k ==> key(x) != k;
    }
  }

  /** Sorting keeps the order of elements with equal keys. */
  lemma {:induction false} SortIsStable<T>(s: seq<T>, key: T -> int, k: int)
    ensures WithKey(SortBy(s, key), key, k) == WithKey(s, key, k)
  {
    if s != [] {
      var n := |s| - 1;
      SortIsStable(s[..n], key, k);
      InsertIsStable(SortBy(s[..n], key), s[n], key, k);
    }
  }

  lemma {:induction false} SortOfOrdered<T>(s: seq<T>, key: T -> int)
    requires OrderedBy(s, key)
    ensures SortBy(s, key) == s
  {
    if s != [] {
      SortOfOrdered(s[..|s| - 1], key);
    }
  }

  lemma SnocIsStrict<T>(s: seq<T>, x: T, key: T -> int)
    requires StrictlyBy(s, key) && forall i | 0 <= i < |s| :: key(s[i]) < key(x)
    ensures StrictlyBy(s + [x], key)
  {
  }

  lemma {:induction false} InsertIsStrict<T>(s: seq<T>, x: T, key: T -> int)
    requires StrictlyBy(s, key) && forall i | 0 <= i < |s| :: key(s[i]) != key(x)
    ensures StrictlyBy(InsertBy(s, x, key), key)
  {
    if s != [] && key(s[|s| - 1]) > key(x) {
      var n := |s| - 1;
      InsertIsStrict(s[..n], x, key);
      InsertPermutes(s[..n], x, key);
      var r := InsertBy(s[..n], x, key);
      forall i | 0 <= i < |r| ensures key(r[i]) < key(s[n]) {
        assert r[i] in multiset(r);
        assert r[i] == x || r[i] in s[..n];
      }
      SnocIsStrict(r, s[n], key);
    } else {
      forall i | 0 <= i < |s| ensures key(s[i]) < key(x) {
        assert key(s[i]) <= key(s[|s| - 1]);
      }
      SnocIsStrict(s, x, key);
    }
  }

  ghost predicate DistinctBy<T>(s: seq<T>, key: T -> int) {
    forall i, j :: 0 <= i < j < |s| ==> key(s[i]) != key(s[j])
  }

  /** Sorting by a key without repeats gives a strictly increasing sequence. */
  lemma {:induction false} SortIsStrict<T>(s: seq<T>, key: T -> int)
    requires DistinctBy(s, key)
    ensures StrictlyBy(SortBy(s, key), key)
  {
    if s != [] {
      var n := |s| - 1;
      SortIsStrict(s[..n], key);
      SortIsOrdered(s[..n], key);
      var r := SortBy(s[..n], key);
      forall i | 0 <= i < |r| ensures key(r[i]) != key(s[n]) {
        assert r[i] in multiset(r);
        assert r[i] in s[..n];
      }
      InsertIsStrict(r, s[n], key);
    }
  }

  lemma SortHasSame<T>(s: seq<T>, key: T -> int)
    ensures forall y :: y in SortBy(s, key) <==> y in s
  {
    SortIsOrdered(s, key);
    forall y ensures y in SortBy(s, key) <==> y in s {
      assert y in multiset(SortBy(s, key)) <==> y in multiset(s);
    }
  }

  /** Strictly increasing sequences with the same elements are the same. */
  lemma {:induction false} StrictIsUnique<T>(a: seq<T>, b: seq<T>, key: T -> int)
    requires StrictlyBy(a, key) && StrictlyBy(b, key) && forall y :: y in a <==> y in b
    ensures a == b
  {
    if a == [] {
      forall y ensures multiset(b)[y] == 0 {
        assert y in multiset(b) <==> y in b;
        assert y in b <==> y in a;
      }
      assert multiset(b) == multiset{} && |multiset(b)| == |b|;
    } else {
      assert a[|a| - 1] in b;
      assert b != [] && b[|b| - 1] in a;
      DropLast(a, key);
      DropLast(b, key);
      OneEach(a, b, key);
      var restA, restB := a[..|a| - 1], b[..|b| - 1];
      forall y | y in restA ensures y in restB {
        assert y in a && y in b;
      }
      forall y | y in restB ensures y in restA {
        assert y in b && y in a;
      }
      StrictIsUnique(restA, restB, key);
    }
  }

  lemma LastIsLargest<T>(s: seq<T>, y: T, key: T -> int)
    requires StrictlyBy(s, key) && y in s
    ensures key(y) <= key(s[|s| - 1]) && (key(y) == key(s[|s| - 1]) ==> y == s[|s| - 1])
  {
    var i :| 0 <= i < |s| && s[i] == y;
  }

  lemma DropLast<T>(s: seq<T>, key: T -> int)
    requires StrictlyBy(s, key) && s != []
    ensures forall y :: y in s[..|s| - 1] <==> y in s && y != s[|s| - 1]
  {
    var n := |s| - 1;
    assert s == s[..n] + [s[n]];
    forall i | 0 <= i < n ensures s[i] != s[n] {
      assert key(s[i]) < key(s[n]);
    }
  }

  lemma OneEach<T>(a: seq<T>, b: seq<T>, key: T -> int)
    requires a != [] && b != []
    requires StrictlyBy(a, key) && StrictlyBy(b, key) && forall y :: y in a <==> y in b
    ensures a[|a| - 1] == b[|b| - 1]
  {
    assert b[|b| - 1] in a && a[|a| - 1] in b;
    LastIsLargest(a, b[|b| - 1], key);
    LastIsLargest(b, a[|a| - 1], key);
  }
}
