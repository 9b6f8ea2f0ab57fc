/**
 * Python's insertion-ordered `dict`, as an association list whose keys are
 * pairwise distinct.  Assigning to a present key replaces its value in place;
 * assigning to a new key appends it.  `Sum` is `sum(d.values())`, and `Incr`
 * is `d[k] += 1` on a `defaultdict(int)`.
 */
module Dicts {
  import opened Wrappers

  type Dict<K, V> = seq<(K, V)>

  /** The keys, in insertion order (`list(d.keys())`). */
  function Keys<K, V>(d: Dict<K, V>): (ks: seq<K>)
    ensures |ks| == |d|
    ensures forall i :: 0 <= i < |d| ==> ks[i] == d[i].0
  {
    seq(|d|, i requires 0 <= i < |d| => d[i].0)
  }

  /** What makes an association list a dictionary: no key twice. */
  predicate Distinct<K(==), V>(d: Dict<K, V>) {
    forall i, j :: 0 <= i < j < |d| ==> d[i].0 != d[j].0
  }

  predicate HasKey<K(==), V>(d: Dict<K, V>, k: K) {
    exists i :: 0 <= i < |d| && d[i].0 == k
  }

  lemma KeysHasKey<K, V>(d: Dict<K, V>, k: K)
    ensures k in Keys(d) <==> HasKey(d, k)
  {
    if HasKey(d, k) {
      var i :| 0 <= i < |d| && d[i].0 == k;
      assert Keys(d)[i] == k;
    }
  }

  /** The position of the first entry with key `k` at or after `start`. */
  function IndexFrom<K(==), V>(d: Dict<K, V>, k: K, start: nat): (i: nat)
    requires exists j :: start <= j < |d| && d[j].0 == k
    ensures start <= i < |d| && d[i].0 == k
    ensures forall j :: start <= j < i ==> d[j].0 != k
    decreases |d| - start
  {
    if d[start].0 == k then start else IndexFrom(d, k, start + 1)
  }

  function IndexOf<K(==), V>(d: Dict<K, V>, k: K): (i: nat)
    requires HasKey(d, k)
    ensures i < |d| && d[i].0 == k
    ensures forall j :: 0 <= j < i ==> d[j].0 != k
  {
    IndexFrom(d, k, 0)
  }

  /** `d.get(k)`. */
  function Get<K(==), V>(d: Dict<K, V>, k: K): (r: Option<V>)
    ensures r.Some? <==> HasKey(d, k)
  {
    if HasKey(d, k) then Some(d[IndexOf(d, k)].1) else None
  }

  /** `d.get(k, default)`. */
  function GetOr<K(==), V>(d: Dict<K, V>, k: K, default: V): V {
    Get(d, k).GetOr(default)
  }

  /** `d[k] = v`. */
  function Put<K(==), V>(d: Dict<K, V>, k: K, v: V): (r: Dict<K, V>)
    ensures HasKey(d, k) ==> |r| == |d|
    ensures !HasKey(d, k) ==> r == d + [(k, v)]
  {
    if HasKey(d, k) then d[IndexOf(d, k) := (k, v)] else d + [(k, v)]
  }

  /** In a dictionary, the entry at position `i` is what `Get` finds for its key. */
  lemma GetAt<K, V>(d: Dict<K, V>, i: nat)
    requires Distinct(d) && i < |d|
    ensures Get(d, d[i].0) == Some(d[i].1)
  {
    assert HasKey(d, d[i].0);
  }

  /** Assignment keeps the key order, appending a new key at the end. */
  lemma PutKeys<K, V>(d: Dict<K, V>, k: K, v: V)
    ensures Keys(Put(d, k, v)) == if HasKey(d, k) then Keys(d) else Keys(d) + [k]
    ensures forall k' :: HasKey(Put(d, k, v), k') <==> HasKey(d, k') || k' == k
  {
    var r := Put(d, k, v);
    if !HasKey(d, k) {
      assert Keys(r) == Keys(d) + [k];
      forall k' | HasKey(r, k') ensures HasKey(d, k') || k' == k {
        var i :| 0 <= i < |r| && r[i].0 == k';
        if i < |d| { assert d[i].0 == k'; }
      }
      forall k' | HasKey(d, k') || k' == k ensures HasKey(r, k') {
        if k' == k {
          assert r[|d|].0 == k;
        } else {
          var i :| 0 <= i < |d| && d[i].0 == k';
          assert r[i].0 == k';
        }
      }
    } else {
      forall k' | HasKey(d, k') ensures HasKey(r, k') {
        var i :| 0 <= i < |d| && d[i].0 == k';
        assert r[i].0 == k';
      }
      forall k' | k' == k ensures HasKey(r, k') {
        assert r[IndexOf(d, k)].0 == k;
      }
    }
  }

  /** Assignment keeps a dictionary a dictionary. */
  lemma PutDistinct<K, V>(d: Dict<K, V>, k: K, v: V)
    requires Distinct(d)
    ensures Distinct(Put(d, k, v))
  {
    if !HasKey(d, k) {
      var r := Put(d, k, v);
      forall i, j | 0 <= i < j < |r| ensures r[i].0 != r[j].0 {
        if j == |d| {
          assert d[i].0 != k;
        }
      }
    }
  }

  /** Reading after `d[k] = v`: `v` at `k`, the old value elsewhere. */
  lemma GetPut<K, V>(d: Dict<K, V>, k: K, v: V, k': K)
    requires Distinct(d)
    ensures Get(Put(d, k, v), k') == if k' == k then Some(v) else Get(d, k')
  {
    var r := Put(d, k, v);
    PutDistinct(d, k, v);
    PutKeys(d, k, v);
    if k' == k {
      if HasKey(d, k) {
        GetAt(r, IndexOf(d, k));
      } else {
        GetAt(r, |d|);
      }
    } else if HasKey(d, k') {
      var i := IndexOf(d, k');
      assert r[i] == d[i];
      GetAt(r, i);
    }
  }

  /** `{k: f(v) for k, v in d.items()}`. */
  function MapValues<K, V, W>(d: Dict<K, V>, f: V -> W): Dict<K, W> {
    seq(|d|, i requires 0 <= i < |d| => (d[i].0, f(d[i].1)))
  }

  /** Mapping the values keeps the keys in order, and looks up `f` of the old value. */
  lemma MapValuesGet<K, V, W>(d: Dict<K, V>, f: V -> W, k: K)
    ensures Keys(MapValues(d, f)) == Keys(d)
    ensures Get(MapValues(d, f), k) == if HasKey(d, k) then Some(f(Get(d, k).value)) else None
  {
    var m := MapValues(d, f);
    assert Keys(m) == Keys(d);
    KeysHasKey(d, k);
    KeysHasKey(m, k);
    if HasKey(d, k) {
      var i, j := IndexOf(d, k), IndexOf(m, k);
      assert m[i].0 == k && d[j].0 == k;
      assert i == j;
    }
  }

  /** The comprehension over one more entry is one entry longer. */
  lemma MapValuesSnoc<K, V, W>(d: Dict<K, V>, f: V -> W, i: nat)
    requires i < |d|
    ensures MapValues(d[..i + 1], f) == MapValues(d[..i], f) + [(d[i].0, f(d[i].1))]
  {
  }

  /** In a dictionary, no key is repeated before its own position. */
  lemma NotBefore<K, V>(d: Dict<K, V>, i: nat)
    requires Distinct(d) && i < |d|
    ensures !HasKey(d[..i], d[i].0)
  {
  }

  /** `sum(d.values())`. */
  function Sum<K>(d: Dict<K, nat>): nat {
    if d == [] then 0 else Sum(d[..|d| - 1]) + d[|d| - 1].1
  }

  lemma SumAppend<K>(d: Dict<K, nat>, x: (K, nat))
    ensures Sum(d + [x]) == Sum(d) + x.1
  {
    assert (d + [x])[..|d|] == d;
  }

  lemma {:induction false} SumConcat<K>(d: Dict<K, nat>, e: Dict<K, nat>)
    ensures Sum(d + e) == Sum(d) + Sum(e)
    decreases |e|
  {
    if e == [] {
      assert d + e == d;
    } else {
      var e' := e[..|e| - 1];
      assert d + e == (d + e') + [e[|e| - 1]];
      SumAppend(d + e', e[|e| - 1]);
      SumConcat(d, e');
    }
  }

  /** Replacing one value changes the sum by the difference. */
  lemma {:induction false} SumUpdate<K>(d: Dict<K, nat>, i: nat, x: (K, nat))
    requires i < |d|
    ensures Sum(d[i := x]) + d[i].1 == Sum(d) + x.1
    decreases |d|
  {
    var n := |d| - 1;
    if i == n {
      assert d[i := x][..n] == d[..n];
    } else {
      assert d[i := x][..n] == d[..n][i := x];
      SumUpdate(d[..n], i, x);
    }
  }

  /** `c[v]` on a `defaultdict(int)`: zero for a value never counted. */
  function Count<K(==)>(c: Dict<K, nat>, v: K): nat {
    GetOr(c, v, 0)
  }

  /** `c[v] += 1` on a `defaultdict(int)`. */
  function Incr<K(==)>(c: Dict<K, nat>, v: K): Dict<K, nat> {
    Put(c, v, Count(c, v) + 1)
  }

  /** Counting `v` adds one to `v` and changes no other count. */
  lemma IncrCount<K>(c: Dict<K, nat>, v: K, w: K)
    requires Distinct(c)
    ensures Distinct(Incr(c, v))
    ensures Count(Incr(c, v), w) == Count(c, w) + (if v == w then 1 else 0)
  {
    PutDistinct(c, v, Count(c, v) + 1);
    GetPut(c, v, Count(c, v) + 1, w);
  }

  /** Counting `v` adds one to the sum of the counts. */
  lemma IncrSum<K>(c: Dict<K, nat>, v: K)
    requires Distinct(c)
    ensures Sum(Incr(c, v)) == Sum(c) + 1
  {
    if HasKey(c, v) {
      var i := IndexOf(c, v);
      GetAt(c, i);
      SumUpdate(c, i, (v, c[i].1 + 1));
    } else {
      SumAppend(c, (v, 1));
    }
  }
}
