/** `Array.prototype.sort` with a numeric comparator `(a, b) => key(a) - key(b)`.
    Since ES2019 the sort is stable: elements with equal keys keep their
    relative order. Modelled as insertion sort over an immutable sequence. */
module StableSort {

  ghost predicate Sorted<T>(s: seq<T>, key: T -> real) {
    forall i, j | 0 <= i < j < |s| :: key(s[i]) <= key(s[j])
  }

  /** The elements whose key is `k`, in their order in `s`. Stability is
      "every key class is the same before and after". */
  function KeyClass<T>(s: seq<T>, key: T -> real, k: real): seq<T>
    decreases |s|
  {
    if s == [] then []
    else (if key(s[0]) == k then [s[0]] else []) + KeyClass(s[1..], key, k)
  }

  /** Places `x` before the first element with a strictly greater key, so
      that `x` comes after every element with an equal key. */
  function Insert<T>(s: seq<T>, x: T, key: T -> real): (r: seq<T>)
    ensures multiset(r) == multiset(s) + multiset{x}
    ensures |r| == |s| + 1
    decreases |s|
  {
    if s == [] then [x]
    else if key(x) < key(s[0]) then [x] + s
    else
      assert s == [s[0]] + s[1..];
      [s[0]] + Insert(s[1..], x, key)
  }

  lemma {:induction false} InsertSorted<T>(s: seq<T>, x: T, key: T -> real)
    requires Sorted(s, key)
    ensures Sorted(Insert(s, x, key), key)
    decreases |s|
  {
    if s != [] && key(x) >= key(s[0]) {
      var rest := Insert(s[1..], x, key);
      InsertSorted(s[1..], x, key);
      forall j | 0 <= j < |rest| ensures key(s[0]) <= key(rest[j]) {
        assert rest[j] in multiset(rest);
        if rest[j] != x {
          assert rest[j] in multiset(s[1..]);
          var i :| 0 <= i < |s[1..]| && s[1..][i] == rest[j];
          assert s[i + 1] == rest[j];
        }
      }
      var r := [s[0]] + rest;
      forall i, j | 0 <= i < j < |r| ensures key(r[i]) <= key(r[j]) {
        if i > 0 {
          assert r[i] == rest[i - 1] && r[j] == rest[j - 1];
        } else {
          assert r[j] == rest[j - 1];
        }
      }
    }
  }

  /** `s.slice().sort((a, b) => key(a) - key(b))`. */
  function SortBy<T>(s: seq<T>, key: T -> real): (r: seq<T>)
    ensures Sorted(r, key)
    ensures multiset(r) == multiset(s)
    ensures |r| == |s|
    decreases |s|
  {
    if s == [] then []
    else
      var n := |s| - 1;
      assert s == s[..n] + [s[n]];
      InsertSorted(SortBy(s[..n], key), s[n], key);
      Insert(SortBy(s[..n], key), s[n], key)
  }

  lemma {:induction false} KeyClassAppend<T>(a: seq<T>, b: seq<T>, key: T -> real, k: real)
    ensures KeyClass(a + b, key, k) == KeyClass(a, key, k) + KeyClass(b, key, k)
    decreases |a|
  {
    if a == [] {
      assert a + b == b;
    } else {
      var c := a + b;
      var h := if key(a[0]) == k then [a[0]] else [];
      assert c[0] == a[0] && c[1..] == a[1..] + b;
      assert KeyClass(c, key, k) == h + KeyClass(a[1..] + b, key, k);
      KeyClassAppend(a[1..], b, key, k);
      assert KeyClass(a, key, k) == h + KeyClass(a[1..], key, k);
    }
  }

  lemma KeyClassLast<T>(s: seq<T>, key: T -> real, k: real)
    requires s != []
    ensures KeyClass(s, key, k)
         == KeyClass(s[..|s| - 1], key, k) + (if key(s[|s| - 1]) == k then [s[|s| - 1]] else [])
  {
    var n := |s| - 1;
    assert [s[n]][1..] == [];
    assert s[..n] + [s[n]] == s;
    KeyClassAppend(s[..n], [s[n]], key, k);
  }

  /** No element of `s` has key `k` when `k` is below the first key. */
  lemma {:induction false} NoKeyBelow<T>(s: seq<T>, key: T -> real, k: real)
    requires Sorted(s, key)
    requires s != [] && k < key(s[0])
    ensures KeyClass(s, key, k) == []
    decreases |s|
  {
    if |s| > 1 {
      assert key(s[0]) <= key(s[1]);
      NoKeyBelow(s[1..], key, k);
    }
  }

  /** Inserting `x` appends it to the end of its own key class and leaves every
      other class alone. */
  lemma {:induction false} InsertKeyClass<T>(s: seq<T>, x: T, key: T -> real, k: real)
    requires Sorted(s, key)
    ensures KeyClass(Insert(s, x, key), key, k)
         == KeyClass(s, key, k) + (if key(x) == k then [x] else [])
    decreases |s|
  {
    if s == [] {
    } else if key(x) < key(s[0]) {
      var r := [x] + s;
      assert r[0] == x && r[1..] == s;
      if key(x) == k {
        NoKeyBelow(s, key, k);
      }
    } else {
      var rest := Insert(s[1..], x, key);
      var r := [s[0]] + rest;
      var h := if key(s[0]) == k then [s[0]] else [];
      assert r[0] == s[0] && r[1..] == rest;
      assert KeyClass(r, key, k) == h + KeyClass(rest, key, k);
      SortedTail(s, key);
      InsertKeyClass(s[1..], x, key, k);
      assert KeyClass(s, key, k) == h + KeyClass(s[1..], key, k);
    }
  }

  lemma SortedTail<T>(s: seq<T>, key: T -> real)
    requires s != [] && Sorted(s, key)
    ensures Sorted(s[1..], key)
  {
    forall i, j | 0 <= i < j < |s| - 1 ensures key(s[1..][i]) <= key(s[1..][j]) {
      assert s[1..][i] == s[i + 1] && s[1..][j] == s[j + 1];
    }
  }

  /** Stability: sorting keeps every key class exactly as it was. */
  lemma {:induction false} SortByStable<T>(s: seq<T>, key: T -> real, k: real)
    ensures KeyClass(SortBy(s, key), key, k) == KeyClass(s, key, k)
    decreases |s|
  {
    if s != [] {
      var n := |s| - 1;
      SortByStable(s[..n], key, k);
      InsertKeyClass(SortBy(s[..n], key), s[n], key, k);
      KeyClassLast(s, key, k);
    }
  }

  /** Insertion after the last element is appending. */
  lemma {:induction false} InsertLast<T>(s: seq<T>, x: T, key: T -> real)
    requires forall i | 0 <= i < |s| :: key(s[i]) <= key(x)
    ensures Insert(s, x, key) == s + [x]
    decreases |s|
  {
    if s != [] {
      InsertLast(s[1..], x, key);
      assert [s[0]] + (s[1..] + [x]) == s + [x];
    }
  }

  /** Sorting an already sorted sequence changes nothing. */
  lemma {:induction false} SortBySorted<T>(s: seq<T>, key: T -> real)
    requires Sorted(s, key)
    ensures SortBy(s, key) == s
    decreases |s|
  {
    if s != [] {
      var n := |s| - 1;
      SortBySorted(s[..n], key);
      InsertLast(s[..n], s[n], key);
      assert s[..n] + [s[n]] == s;
    }
  }

  /** Sorting twice is sorting once. */
  lemma SortByIdempotent<T>(s: seq<T>, key: T -> real)
    ensures SortBy(SortBy(s, key), key) == SortBy(s, key)
  {
    SortBySorted(SortBy(s, key), key);
  }
}
