/** A plain JavaScript object with string keys, as an association list in
    insertion order (the order `Object.keys`/`Object.values`/`Object.entries`
    report). `{ ...obj, [k]: v }` is `Set`. */
module Dict {
  import opened Wrappers

  datatype Entry<V> = Entry(key: string, value: V)

  type Dict<V> = seq<Entry<V>>

  ghost predicate UniqueKeys<V>(d: Dict<V>) {
    forall i, j | 0 <= i < j < |d| :: d[i].key != d[j].key
  }

  function Keys<V>(d: Dict<V>): set<string>
    decreases |d|
  {
    if d == [] then {} else {d[0].key} + Keys(d[1..])
  }

  lemma {:induction false} KeysIndex<V>(d: Dict<V>, k: string)
    ensures k in Keys(d) <==> exists i | 0 <= i < |d| :: d[i].key == k
    decreases |d|
  {
    if d != [] {
      KeysIndex(d[1..], k);
      if k in Keys(d[1..]) {
        var i :| 0 <= i < |d[1..]| && d[1..][i].key == k;
        assert d[i + 1].key == k;
      }
      if exists i | 0 <= i < |d| :: d[i].key == k {
        var i :| 0 <= i < |d| && d[i].key == k;
        if i > 0 {
          assert d[1..][i - 1].key == k;
        }
      }
    }
  }

  /** `obj[k]`: the value stored under `k`, `None` for `undefined`. */
  function Get<V>(d: Dict<V>, k: string): (r: Option<V>)
    ensures r.None? <==> k !in Keys(d)
    decreases |d|
  {
    if d == [] then None
    else if d[0].key == k then Some(d[0].value)
    else Get(d[1..], k)
  }

  /** The entry at `i` is what `Get` finds for its key when no earlier entry
      has that key. */
  lemma {:induction false} GetAt<V>(d: Dict<V>, i: int)
    requires 0 <= i < |d| && forall j | 0 <= j < i :: d[j].key != d[i].key
    ensures Get(d, d[i].key) == Some(d[i].value)
    decreases i
  {
    if i > 0 {
      assert d[1..][i - 1] == d[i];
      assert forall j | 0 <= j < i - 1 :: d[1..][j] == d[j + 1];
      GetAt(d[1..], i - 1);
    }
  }

  /** The index of the first entry with key `k`: the one `Get` reads. */
  function FirstIndex<V>(d: Dict<V>, k: string): (i: nat)
    requires k in Keys(d)
    ensures i < |d| && d[i].key == k
    ensures forall j | 0 <= j < i :: d[j].key != k
    ensures Get(d, k) == Some(d[i].value)
    decreases |d|
  {
    if d[0].key == k then 0 else 1 + FirstIndex(d[1..], k)
  }

  /** `{ ...d, [k]: v }`: an existing key keeps its position and takes the new
      value; a new key is appended. */
  function Set<V>(d: Dict<V>, k: string, v: V): (r: Dict<V>)
    ensures Keys(r) == Keys(d) + {k}
    ensures |r| == if k in Keys(d) then |d| else |d| + 1
    decreases |d|
  {
    if d == [] then [Entry(k, v)]
    else if d[0].key == k then
      assert ([Entry(k, v)] + d[1..])[1..] == d[1..];
      [Entry(k, v)] + d[1..]
    else
      var rest := Set(d[1..], k, v);
      assert ([d[0]] + rest)[1..] == rest;
      [d[0]] + rest
  }

  /** Reading back a key just written yields the written value; every other
      key reads as before. */
  lemma {:induction false} GetSet<V>(d: Dict<V>, k: string, v: V, j: string)
    ensures Get(Set(d, k, v), j) == if j == k then Some(v) else Get(d, j)
    decreases |d|
  {
    if d != [] && d[0].key != k {
      GetSet(d[1..], k, v, j);
    }
  }

  lemma {:induction false} SetKeepsUnique<V>(d: Dict<V>, k: string, v: V)
    requires UniqueKeys(d)
    ensures UniqueKeys(Set(d, k, v))
    decreases |d|
  {
    if d != [] && d[0].key != k {
      SetKeepsUnique(d[1..], k, v);
      var rest := Set(d[1..], k, v);
      KeysIndex(d[1..], d[0].key);
      KeysIndex(rest, d[0].key);
    }
  }

  /** Writing the value a key already holds changes nothing. */
  lemma {:induction false} SetSame<V>(d: Dict<V>, k: string)
    requires k in Keys(d)
    ensures Set(d, k, Get(d, k).value) == d
    decreases |d|
  {
    if d[0].key != k {
      SetSame(d[1..], k);
      assert [d[0]] + d[1..] == d;
    } else {
      assert [Entry(k, d[0].value)] + d[1..] == d;
    }
  }

  /** A second write to the same key overrides the first. */
  lemma {:induction false} SetSet<V>(d: Dict<V>, k: string, v: V, w: V)
    ensures Set(Set(d, k, v), k, w) == Set(d, k, w)
    decreases |d|
  {
    if d != [] && d[0].key != k {
      SetSet(d[1..], k, v, w);
    }
  }

  /** `Object.values(d)`. */
  function Values<V>(d: Dict<V>): (r: seq<V>)
    ensures |r| == |d|
    ensures forall i | 0 <= i < |d| :: r[i] == d[i].value
  {
    if d == [] then [] else [d[0].value] + Values(d[1..])
  }
}
