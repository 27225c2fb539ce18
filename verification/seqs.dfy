/** `Array.prototype` operations on immutable sequences: `filter` by element,
    `filter` by index, `slice` from the front and from the back. */
module Seqs {

  /** `s.filter(p)`. */
  function Filter<T(!new)>(s: seq<T>, p: T -> bool): (r: seq<T>)
    ensures |r| <= |s|
    ensures forall x | x in r :: x in s && p(x)
    ensures forall x | x in s && p(x) :: x in r
    ensures forall x :: multiset(r)[x] == if p(x) then multiset(s)[x] else 0
  {
    if s == [] then []
    else
      var rest := Filter(s[1..], p);
      assert s == [s[0]] + s[1..];
      (if p(s[0]) then [s[0]] else []) + rest
  }

  lemma {:induction false} FilterAppend<T(!new)>(a: seq<T>, b: seq<T>, p: T -> bool)
    ensures Filter(a + b, p) == Filter(a, p) + Filter(b, p)
    decreases |a|
  {
    if a == [] {
      assert a + b == b;
    } else {
      assert (a + b)[0] == a[0] && (a + b)[1..] == a[1..] + b;
      FilterCons(a + b, p);
      FilterCons(a, p);
      FilterAppend(a[1..], b, p);
      AppendAssoc(if p(a[0]) then [a[0]] else [], Filter(a[1..], p), Filter(b, p));
    }
  }

  lemma AppendAssoc<T>(x: seq<T>, y: seq<T>, z: seq<T>)
    ensures x + (y + z) == (x + y) + z
  {
  }

  /** Filtering peels off the first element. */
  lemma FilterCons<T(!new)>(s: seq<T>, p: T -> bool)
    requires s != []
    ensures Filter(s, p) == (if p(s[0]) then [s[0]] else []) + Filter(s[1..], p)
  {
  }

  /** A filter whose predicate every element meets keeps the sequence as is. */
  lemma {:induction false} FilterAll<T(!new)>(s: seq<T>, p: T -> bool)
    requires forall x | x in s :: p(x)
    ensures Filter(s, p) == s
    decreases |s|
  {
    if s != [] {
      assert s[0] in s;
      assert forall x | x in s[1..] :: x in s;
      FilterAll(s[1..], p);
    }
  }

  /** `s.filter(p).length`. */
  function Count<T(!new)>(s: seq<T>, p: T -> bool): nat {
    |Filter(s, p)|
  }

  lemma {:induction false} CountAppend<T(!new)>(a: seq<T>, b: seq<T>, p: T -> bool)
    ensures Count(a + b, p) == Count(a, p) + Count(b, p)
  {
    FilterAppend(a, b, p);
  }

  /** Filtering depends only on which elements the predicate keeps. */
  lemma {:induction false} FilterExt<T(!new)>(s: seq<T>, p: T -> bool, q: T -> bool)
    requires forall x :: p(x) == q(x)
    ensures Filter(s, p) == Filter(s, q)
    decreases |s|
  {
    if s != [] {
      FilterExt(s[1..], p, q);
    }
  }

  /** Counting peels off the first element. */
  lemma CountCons<T(!new)>(s: seq<T>, p: T -> bool)
    requires s != []
    ensures Count(s, p) == (if p(s[0]) then 1 else 0) + Count(s[1..], p)
  {
  }

  /** `s.filter((_, j) => j !== i)`: every element except the one at index `i`. */
  function RemoveIndex<T>(s: seq<T>, i: int): (r: seq<T>)
    decreases |s|
  {
    if s == [] then []
    else (if i == 0 then [] else [s[0]]) + RemoveIndex(s[1..], i - 1)
  }

  /** Removing index `i` drops exactly that element and keeps the order of the
      rest; an index out of range removes nothing. */
  lemma RemoveIndexSpec<T>(s: seq<T>, i: int)
    ensures 0 <= i < |s| ==> RemoveIndex(s, i) == s[..i] + s[i + 1..]
    ensures !(0 <= i < |s|) ==> RemoveIndex(s, i) == s
  {
    if 0 <= i < |s| {
      RemoveIndexInRange(s, i);
    } else {
      RemoveIndexOutOfRange(s, i);
    }
  }

  lemma {:induction false} RemoveIndexInRange<T>(s: seq<T>, i: int)
    requires 0 <= i < |s|
    ensures RemoveIndex(s, i) == s[..i] + s[i + 1..]
    decreases |s|
  {
    var t := s[1..];
    if i == 0 {
      RemoveIndexOutOfRange(t, -1);
      assert s[..i] == [] && s[i + 1..] == t;
    } else {
      RemoveIndexInRange(t, i - 1);
      assert s[..i] == [s[0]] + t[..i - 1];
      assert s[i + 1..] == t[i..];
      AppendAssoc([s[0]], t[..i - 1], t[i..]);
    }
  }

  lemma {:induction false} RemoveIndexOutOfRange<T>(s: seq<T>, i: int)
    requires !(0 <= i < |s|)
    ensures RemoveIndex(s, i) == s
    decreases |s|
  {
    if s != [] {
      RemoveIndexOutOfRange(s[1..], i - 1);
      assert s == [s[0]] + s[1..];
    }
  }

  /** `s.slice(0, n)` for `n >= 0`. */
  function Take<T>(s: seq<T>, n: nat): (r: seq<T>)
    ensures |r| == if n < |s| then n else |s|
    ensures r <= s
  {
    if n < |s| then s[..n] else s
  }

  /** `s.slice(-n)` for `n > 0`: the last `n` elements, or all of them when
      there are fewer. */
  function TakeLast<T>(s: seq<T>, n: nat): (r: seq<T>)
    requires n > 0
    ensures |r| == if n < |s| then n else |s|
    ensures r == s[|s| - |r|..]
  {
    if n < |s| then s[|s| - n..] else s
  }

  /** The predicate `y => y !== x`. */
  function Except<T(==)>(x: T): T -> bool {
    y => y != x
  }

  /** `s.includes(x) ? s.filter(y => y !== x) : [...s, x]`: a present element
      is removed everywhere, an absent one is appended. */
  function Toggle<T(==,!new)>(s: seq<T>, x: T): (r: seq<T>)
    ensures x in r <==> x !in s
    ensures forall y | y != x :: y in r <==> y in s
  {
    if x in s then Filter(s, Except(x)) else s + [x]
  }

  /** Toggling never reorders the other elements. */
  lemma ToggleKeepsOthers<T(!new)>(s: seq<T>, x: T)
    ensures Filter(Toggle(s, x), Except(x)) == Filter(s, Except(x))
  {
    if x in s {
      FilterAll(Filter(s, Except(x)), Except(x));
    } else {
      FilterAppend(s, [x], Except(x));
      FilterAll(s, Except(x));
      assert Filter([x], Except(x)) == [];
    }
  }

  /** Toggling an absent element twice restores the sequence; toggling a
      present one twice moves it to the end. */
  lemma ToggleTwice<T(!new)>(s: seq<T>, x: T)
    ensures x !in s ==> Toggle(Toggle(s, x), x) == s
    ensures x in s ==> Toggle(Toggle(s, x), x) == Filter(s, Except(x)) + [x]
  {
    if x !in s {
      FilterAppend(s, [x], Except(x));
      FilterAll(s, Except(x));
      assert Filter([x], Except(x)) == [];
    }
  }

  ghost predicate NoDuplicates<T>(s: seq<T>) {
    forall i, j | 0 <= i < j < |s| :: s[i] != s[j]
  }

  lemma NoDuplicatesMultiset<T>(s: seq<T>)
    ensures NoDuplicates(s) <==> forall x | x in multiset(s) :: multiset(s)[x] == 1
  {
    if NoDuplicates(s) {
      NoDuplicatesCount(s);
    } else {
      var i, j :| 0 <= i < j < |s| && s[i] == s[j];
      MultisetAtLeastTwo(s, i, j);
    }
  }

  lemma {:induction false} NoDuplicatesCount<T>(s: seq<T>)
    requires NoDuplicates(s)
    ensures forall x | x in multiset(s) :: multiset(s)[x] == 1
    decreases |s|
  {
    if s != [] {
      NoDuplicatesCount(s[1..]);
      assert s == [s[0]] + s[1..];
      assert s[0] !in s[1..];
    }
  }

  lemma MultisetAtLeastTwo<T>(s: seq<T>, i: int, j: int)
    requires 0 <= i < j < |s| && s[i] == s[j]
    ensures multiset(s)[s[i]] >= 2
  {
    assert s == s[..j] + [s[j]] + s[j + 1..];
    assert s[i] in s[..j];
  }

  /** A duplicate-free sequence stays duplicate-free under toggling. */
  lemma ToggleKeepsNoDuplicates<T(!new)>(s: seq<T>, x: T)
    requires NoDuplicates(s)
    ensures NoDuplicates(Toggle(s, x))
  {
    NoDuplicatesMultiset(s);
    NoDuplicatesMultiset(Toggle(s, x));
  }

  /** `prev.has(x) ? delete x : add x` on a `Set`. */
  function ToggleSet<T>(s: set<T>, x: T): (r: set<T>)
    ensures x in r <==> x !in s
    ensures r - {x} == s - {x}
  {
    if x in s then s - {x} else s + {x}
  }

  lemma ToggleSetTwice<T>(s: set<T>, x: T)
    ensures ToggleSet(ToggleSet(s, x), x) == s
  {
  }
}
