/**
 * Python dictionaries keep their keys in insertion order, and several of the
 * modelled operations emit rows in that order. A dictionary is therefore an
 * association list: a sequence of (key, value) pairs whose keys are distinct.
 */
module Assoc {
  import opened Wrappers

  type Dict<K, V> = seq<(K, V)>

  function Keys<K, V>(d: Dict<K, V>): (ks: seq<K>)
    ensures |ks| == |d|
    ensures forall i :: 0 <= i < |d| ==> ks[i] == d[i].0
  {
    if d == [] then [] else [d[0].0] + Keys(d[1..])
  }

  predicate HasKey<K(==), V>(d: Dict<K, V>, k: K) {
    exists i :: 0 <= i < |d| && d[i].0 == k
  }

  predicate DistinctKeys<K(==), V>(d: Dict<K, V>) {
    forall i, j :: 0 <= i < j < |d| ==> d[i].0 != d[j].0
  }

  /** The position of the first pair with key `k`. */
  function IndexOf<K(==), V>(d: Dict<K, V>, k: K): (i: nat)
    requires HasKey(d, k)
    ensures i < |d| && d[i].0 == k
    ensures forall j :: 0 <= j < i ==> d[j].0 != k
  {
    if d[0].0 == k then 0
    else
      assert HasKey(d[1..], k) by {
        var i :| 0 <= i < |d| && d[i].0 == k;
        assert d[1..][i - 1].0 == k;
      }
      1 + IndexOf(d[1..], k)
  }

  /** `d.get(k)`: the value of the first pair with key `k`. */
  function Lookup<K(==), V>(d: Dict<K, V>, k: K): (r: Option<V>)
    ensures r.Some? <==> HasKey(d, k)
    ensures r.Some? ==> exists i :: 0 <= i < |d| && d[i] == (k, r.value)
  {
    if HasKey(d, k) then Some(d[IndexOf(d, k)].1) else None
  }

  /** Looking up in a non-empty dictionary: the first pair, or else the rest. */
  lemma LookupCons<K, V>(d: Dict<K, V>, k: K)
    requires d != []
    ensures Lookup(d, k) == if d[0].0 == k then Some(d[0].1) else Lookup(d[1..], k)
  {
    if d[0].0 != k {
      HasKeyTail(d, k);
      if HasKey(d, k) {
        var i := IndexOf(d, k);
        var j := IndexOf(d[1..], k);
        assert d[j + 1].0 == k;
        assert d[1..][i - 1].0 == k;
      }
    }
  }

  /** In a dictionary, the value stored at position `i` is the value of its key. */
  lemma {:induction false} LookupAt<K, V>(d: Dict<K, V>, i: nat)
    requires DistinctKeys(d) && i < |d|
    ensures Lookup(d, d[i].0) == Some(d[i].1)
  {
    if i > 0 {
      assert d[0].0 != d[i].0;
      assert d[1..][i - 1] == d[i];
      LookupAt(d[1..], i - 1);
    }
  }

  /**
   * `d[k] = v`: an existing key keeps its position and takes the new value,
   * a new key is appended at the end.
   */
  function Put<K(==), V>(d: Dict<K, V>, k: K, v: V): (r: Dict<K, V>)
    ensures |r| == if HasKey(d, k) then |d| else |d| + 1
    ensures forall i :: 0 <= i < |d| ==> r[i].0 == d[i].0
    ensures !HasKey(d, k) ==> r[|d|] == (k, v)
  {
    if HasKey(d, k) then d[IndexOf(d, k) := (k, v)] else d + [(k, v)]
  }

  /** Putting into a non-empty dictionary: replace the first pair, or else put into the rest. */
  lemma PutCons<K, V>(d: Dict<K, V>, k: K, v: V)
    requires d != []
    ensures Put(d, k, v) == if d[0].0 == k then [(k, v)] + d[1..] else [d[0]] + Put(d[1..], k, v)
  {
    if d[0].0 != k {
      HasKeyTail(d, k);
      if HasKey(d, k) {
        var i := IndexOf(d, k);
        var j := IndexOf(d[1..], k);
        assert d[j + 1].0 == k;
        assert d[1..][i - 1].0 == k;
        assert i == j + 1;
      }
    }
  }

  /** `PutLookup` with both outcomes named, for callers whose values are costly to unfold. */
  lemma PutLookupCases<K, V>(d: Dict<K, V>, k: K, v: V, j: K, before: Option<V>, after: Option<V>)
    requires Lookup(d, j) == before
    requires j == k ==> after == Some(v)
    requires j != k ==> after == before
    ensures Lookup(Put(d, k, v), j) == after
  {
    PutLookup(d, k, v, j);
  }

  /** Distinctness depends on the keys alone. */
  lemma SameKeysDistinct<K, V, W>(a: Dict<K, V>, b: Dict<K, W>)
    requires Keys(a) == Keys(b) && DistinctKeys(b)
    ensures DistinctKeys(a)
  {
    assert forall i :: 0 <= i < |a| ==> a[i].0 == Keys(b)[i] == b[i].0;
  }

  lemma SameKeysHasKey<K, V, W>(a: Dict<K, V>, b: Dict<K, W>, k: K)
    requires Keys(a) == Keys(b) && HasKey(b, k)
    ensures HasKey(a, k)
  {
    var p :| 0 <= p < |b| && b[p].0 == k;
    assert Keys(a)[p] == Keys(b)[p];
  }

  /** Overwriting an existing key leaves the keys and their order as they were. */
  lemma PutKeys<K, V>(d: Dict<K, V>, k: K, v: V)
    requires HasKey(d, k)
    ensures Keys(Put(d, k, v)) == Keys(d)
  {
    var r := Put(d, k, v);
    assert forall i :: 0 <= i < |d| ==> Keys(r)[i] == Keys(d)[i];
  }

  lemma {:induction false} PutLookup<K, V>(d: Dict<K, V>, k: K, v: V, j: K)
    ensures Lookup(Put(d, k, v), j) == if j == k then Some(v) else Lookup(d, j)
  {
    if d != [] && d[0].0 != k {
      PutLookup(d[1..], k, v, j);
    }
  }

  lemma {:induction false} PutKeepsDistinct<K, V>(d: Dict<K, V>, k: K, v: V)
    requires DistinctKeys(d)
    ensures DistinctKeys(Put(d, k, v))
    ensures HasKey(Put(d, k, v), k)
  {
    var r := Put(d, k, v);
    PutLookup(d, k, v, k);
    if !HasKey(d, k) {
      forall i, j | 0 <= i < j < |r| ensures r[i].0 != r[j].0 {
        if j == |d| {
          assert !(d[i].0 == k);
        }
      }
    } else {
      var p :| 0 <= p < |d| && d[p].0 == k;
      forall i, j | 0 <= i < j < |r| ensures r[i].0 != r[j].0 {
        assert r[i].0 == d[i].0 && r[j].0 == d[j].0;
      }
    }
  }

  /** Putting a new key appends its pair. */
  lemma {:induction false} PutNew<K, V>(d: Dict<K, V>, k: K, v: V)
    requires !HasKey(d, k)
    ensures Put(d, k, v) == d + [(k, v)]
  {
    if d != [] {
      assert forall i :: 0 <= i < |d[1..]| ==> d[1..][i] == d[i + 1];
      PutNew(d[1..], k, v);
      assert d == [d[0]] + d[1..];
    }
  }

  /** Putting a key that sits at position `p` replaces that pair and nothing else. */
  lemma {:induction false} PutExisting<K, V>(d: Dict<K, V>, p: nat, v: V)
    requires DistinctKeys(d) && p < |d|
    ensures Put(d, d[p].0, v) == d[p := (d[p].0, v)]
  {
    if p > 0 {
      assert d[0].0 != d[p].0;
      assert d[1..][p - 1] == d[p];
      PutExisting(d[1..], p - 1, v);
      assert d[p := (d[p].0, v)] == [d[0]] + d[1..][p - 1 := (d[p].0, v)];
    }
  }

  /** `{**a, **b}`: the keys of `b` are put into `a` one after the other, so `b` wins. */
  function Merge<K(==), V>(a: Dict<K, V>, b: Dict<K, V>): Dict<K, V>
    decreases |b|
  {
    if b == [] then a else Merge(Put(a, b[0].0, b[0].1), b[1..])
  }

  lemma {:induction false} MergeLookup<K, V>(a: Dict<K, V>, b: Dict<K, V>, k: K)
    requires DistinctKeys(b)
    ensures Lookup(Merge(a, b), k) == if HasKey(b, k) then Lookup(b, k) else Lookup(a, k)
    decreases |b|
  {
    if b != [] {
      var a' := Put(a, b[0].0, b[0].1);
      assert DistinctKeys(b[1..]) by {
        forall i, j | 0 <= i < j < |b[1..]| ensures b[1..][i].0 != b[1..][j].0 {
          assert b[i + 1].0 != b[j + 1].0;
        }
      }
      MergeLookup(a', b[1..], k);
      PutLookup(a, b[0].0, b[0].1, k);
      if HasKey(b[1..], k) {
        var i :| 0 <= i < |b[1..]| && b[1..][i].0 == k;
        assert b[i + 1].0 == k;
        assert b[0].0 != k;
      }
      if HasKey(b, k) && !HasKey(b[1..], k) {
        var i :| 0 <= i < |b| && b[i].0 == k;
        if i > 0 { assert b[1..][i - 1].0 == k; }
      }
    }
  }

  lemma {:induction false} MergeKeepsDistinct<K, V>(a: Dict<K, V>, b: Dict<K, V>)
    requires DistinctKeys(a)
    ensures DistinctKeys(Merge(a, b))
    decreases |b|
  {
    if b != [] {
      PutKeepsDistinct(a, b[0].0, b[0].1);
      MergeKeepsDistinct(Put(a, b[0].0, b[0].1), b[1..]);
    }
  }

  /** Builds a dictionary from pairs, a later pair overwriting an earlier one with the same key. */
  function FromPairs<K(==), V>(ps: seq<(K, V)>): Dict<K, V> {
    Merge([], ps)
  }

  /** The value of `k` in a dictionary built from pairs is the value of its LAST pair. */
  lemma {:induction false} FromPairsLast<K, V>(ps: seq<(K, V)>, k: K, i: nat)
    requires i < |ps| && ps[i].0 == k
    requires forall j :: i < j < |ps| ==> ps[j].0 != k
    ensures Lookup(FromPairs(ps), k) == Some(ps[i].1)
  {
    MergeLastWins([], ps, k, i);
  }

  lemma {:induction false} MergeLastWins<K, V>(a: Dict<K, V>, ps: seq<(K, V)>, k: K, i: nat)
    requires i < |ps| && ps[i].0 == k
    requires forall j :: i < j < |ps| ==> ps[j].0 != k
    ensures Lookup(Merge(a, ps), k) == Some(ps[i].1)
    decreases |ps|
  {
    var a' := Put(a, ps[0].0, ps[0].1);
    if i == 0 {
      PutLookup(a, ps[0].0, ps[0].1, k);
      MergeUntouched(a', ps[1..], k);
    } else {
      MergeLastWins(a', ps[1..], k, i - 1);
    }
  }

  lemma {:induction false} MergeUntouched<K, V>(a: Dict<K, V>, ps: seq<(K, V)>, k: K)
    requires forall j :: 0 <= j < |ps| ==> ps[j].0 != k
    ensures Lookup(Merge(a, ps), k) == Lookup(a, k)
    decreases |ps|
  {
    if ps != [] {
      PutLookup(a, ps[0].0, ps[0].1, k);
      MergeUntouched(Put(a, ps[0].0, ps[0].1), ps[1..], k);
    }
  }

  /** Past a first pair with another key, a dictionary and its tail hold the same keys. */
  lemma HasKeyTail<K, V>(d: Dict<K, V>, k: K)
    requires d != [] && d[0].0 != k
    ensures HasKey(d, k) <==> HasKey(d[1..], k)
  {
    if HasKey(d, k) {
      var i :| 0 <= i < |d| && d[i].0 == k;
      assert d[1..][i - 1].0 == k;
    }
    if HasKey(d[1..], k) {
      var i :| 0 <= i < |d[1..]| && d[1..][i].0 == k;
      assert d[i + 1].0 == k;
    }
  }

  /** The tail of a dictionary is a dictionary without the first key. */
  lemma DistinctTail<K, V>(d: Dict<K, V>)
    requires d != [] && DistinctKeys(d)
    ensures DistinctKeys(d[1..]) && !HasKey(d[1..], d[0].0)
  {
    forall i, j | 0 <= i < j < |d[1..]| ensures d[1..][i].0 != d[1..][j].0 {
      assert d[i + 1].0 != d[j + 1].0;
    }
    forall i | 0 <= i < |d[1..]| ensures d[1..][i].0 != d[0].0 {
      assert d[i + 1].0 != d[0].0;
    }
  }

  /** Looking a key up in a concatenation finds it in the first part when it is there. */
  lemma {:induction false} LookupAppend<K, V>(x: Dict<K, V>, y: Dict<K, V>, k: K)
    ensures Lookup(x + y, k) == if HasKey(x, k) then Lookup(x, k) else Lookup(y, k)
  {
    if x != [] {
      assert (x + y)[0] == x[0];
      if x[0].0 == k {
        assert HasKey(x, k);
      } else {
        assert (x + y)[1..] == x[1..] + y;
        LookupAppend(x[1..], y, k);
        HasKeyTail(x, k);
      }
    } else {
      assert x + y == y;
    }
  }

  /** Two dictionaries with no key in common concatenate into a dictionary. */
  lemma DistinctAppend<K, V>(x: Dict<K, V>, y: Dict<K, V>)
    requires DistinctKeys(x) && DistinctKeys(y)
    requires forall i :: 0 <= i < |y| ==> !HasKey(x, y[i].0)
    ensures DistinctKeys(x + y)
  {
    forall i, j | 0 <= i < j < |x + y| ensures (x + y)[i].0 != (x + y)[j].0 {
      if i < |x| && j >= |x| {
        var k := y[j - |x|].0;
        assert !HasKey(x, k);
        assert x[i].0 != k;
      }
    }
  }

  /** Appending one pair to what is merged is one more `d[k] = v`. */
  lemma {:induction false} MergeSnoc<K, V>(a: Dict<K, V>, ps: seq<(K, V)>, p: (K, V))
    ensures Merge(a, ps + [p]) == Put(Merge(a, ps), p.0, p.1)
    decreases |ps|
  {
    if ps == [] {
      assert ps + [p] == [p];
    } else {
      assert (ps + [p])[1..] == ps[1..] + [p];
      MergeSnoc(Put(a, ps[0].0, ps[0].1), ps[1..], p);
    }
  }

  /** `del d[k]` on a dictionary that holds `k`; the other pairs keep their order. */
  function Remove<K(==), V>(d: Dict<K, V>, k: K): (r: Dict<K, V>)
    ensures !HasKey(r, k)
    ensures |r| <= |d|
  {
    if d == [] then []
    else if d[0].0 == k then Remove(d[1..], k)
    else [d[0]] + Remove(d[1..], k)
  }

  lemma {:induction false} RemoveLookup<K, V>(d: Dict<K, V>, k: K, j: K)
    ensures Lookup(Remove(d, k), j) == if j == k then None else Lookup(d, j)
  {
    if d != [] {
      RemoveLookup(d[1..], k, j);
      LookupCons(d, j);
      if d[0].0 != k {
        LookupCons(Remove(d, k), j);
      }
    }
  }

  /** `{k: f(v) for k, v in d.items()}`. */
  function MapValues<K, V, W>(d: Dict<K, V>, f: V -> W): (r: Dict<K, W>)
    ensures |r| == |d|
    ensures forall i :: 0 <= i < |d| ==> r[i] == (d[i].0, f(d[i].1))
  {
    seq(|d|, i requires 0 <= i < |d| => (d[i].0, f(d[i].1)))
  }

  lemma {:induction false} MapValuesLookup<K, V, W>(d: Dict<K, V>, f: V -> W, k: K)
    ensures Lookup(MapValues(d, f), k) == match Lookup(d, k) case None => None case Some(v) => Some(f(v))
  {
    if d != [] {
      assert MapValues(d, f)[1..] == MapValues(d[1..], f);
      MapValuesLookup(d[1..], f, k);
    }
  }
}
