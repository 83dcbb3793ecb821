/** Python dictionaries keep their keys in insertion order, and much of the modelled code
    turns that order into the order of the lists it writes. A `Dict` is therefore a
    sequence of key/value pairs; assigning to a key that is present keeps its position,
    assigning to a new key appends it, exactly as a Python `d[k] = v` does. */
module OrderedDict {
  import opened Wrappers

  type Dict<K, V> = seq<(K, V)>

  function Keys<K, V>(d: Dict<K, V>): (ks: seq<K>)
    ensures |ks| == |d|
    ensures forall i :: 0 <= i < |d| ==> ks[i] == d[i].0
  {
    seq(|d|, i requires 0 <= i < |d| => d[i].0)
  }

  function Values<K, V>(d: Dict<K, V>): (vs: seq<V>)
    ensures |vs| == |d|
    ensures forall i :: 0 <= i < |d| ==> vs[i] == d[i].1
  {
    seq(|d|, i requires 0 <= i < |d| => d[i].1)
  }

  /** No key occurs twice: every value a Python dict can hold. */
  predicate DistinctKeys<K(==), V>(d: Dict<K, V>) {
    forall i, j :: 0 <= i < j < |d| ==> d[i].0 != d[j].0
  }

  predicate Distinct<K(==)>(s: seq<K>) {
    forall i, j :: 0 <= i < j < |s| ==> s[i] != s[j]
  }

  /** The position of the pair with key `k`. */
  function KeyIndex<K(==), V>(d: Dict<K, V>, k: K): (i: nat)
    requires k in Keys(d)
    ensures i < |d| && d[i].0 == k && k !in Keys(d)[..i]
  {
    FirstIndex(Keys(d), k)
  }

  /** `d.get(k)`. */
  function Get<K(==), V>(d: Dict<K, V>, k: K): (r: Option<V>)
    ensures r.None? <==> k !in Keys(d)
  {
    if k in Keys(d) then Some(d[KeyIndex(d, k)].1) else None
  }

  lemma GetAt<K, V>(d: Dict<K, V>, i: int)
    requires DistinctKeys(d) && 0 <= i < |d|
    ensures Get(d, d[i].0) == Some(d[i].1)
  {
    assert Keys(d)[i] == d[i].0;
  }

  /** `d[k] = v`: a present key keeps its position, a new key goes last. */
  function Put<K(==), V>(d: Dict<K, V>, k: K, v: V): (r: Dict<K, V>)
    ensures Keys(r) == if k in Keys(d) then Keys(d) else Keys(d) + [k]
    ensures DistinctKeys(d) ==> DistinctKeys(r)
  {
    if k in Keys(d) then d[KeyIndex(d, k) := (k, v)] else d + [(k, v)]
  }

  lemma PutAppends<K, V>(d: Dict<K, V>, k: K, v: V)
    requires k !in Keys(d)
    ensures Put(d, k, v) == d + [(k, v)]
  {
  }

  /** After `d[k] = v`, the key `k` holds `v` and every other key holds what it held. */
  lemma PutGet<K, V>(d: Dict<K, V>, k: K, v: V, k': K)
    ensures Get(Put(d, k, v), k') == if k' == k then Some(v) else Get(d, k')
  {
    var r := Put(d, k, v);
    if k' in Keys(d) && k !in Keys(d) {
      assert Keys(r)[..|d|] == Keys(d);
      FirstIndexOfPrefix(Keys(r), |d|, k');
    }
  }

  /** The distinct elements of `s` in the order of their first appearance. */
  function Dedup<K(==)>(s: seq<K>): (r: seq<K>)
    ensures Distinct(r)
  {
    if s == [] then []
    else
      var p := Dedup(s[..|s| - 1]);
      if s[|s| - 1] in p then p else p + [s[|s| - 1]]
  }

  /** Dedup keeps exactly the elements of `s`. */
  lemma {:induction false} DedupMembers<K>(s: seq<K>)
    ensures forall x | x in Dedup(s) :: x in s
    ensures forall x | x in s :: x in Dedup(s)
  {
    if s != [] {
      DedupMembers(s[..|s| - 1]);
      assert s == s[..|s| - 1] + [s[|s| - 1]];
    }
  }

  /** Dedup of a sequence one element longer. */
  lemma DedupSnoc<K>(s: seq<K>, x: K)
    ensures Dedup(s + [x]) == if x in Dedup(s) then Dedup(s) else Dedup(s) + [x]
  {
    assert (s + [x])[..|s|] == s;
  }

  lemma DedupOfDistinct<K>(s: seq<K>)
    requires Distinct(s)
    ensures Dedup(s) == s
  {
    if s != [] {
      DedupOfDistinct(s[..|s| - 1]);
      assert s == s[..|s| - 1] + [s[|s| - 1]];
    }
  }

  /** Removing repeats before appending more changes nothing once repeats are removed again. */
  lemma {:induction false} DedupAppend<K>(a: seq<K>, b: seq<K>)
    ensures Dedup(Dedup(a) + b) == Dedup(a + b)
    decreases |b|
  {
    if b == [] {
      assert Dedup(a) + b == Dedup(a) && a + b == a;
      DedupOfDistinct(Dedup(a));
    } else {
      var b', x := b[..|b| - 1], b[|b| - 1];
      DedupAppend(a, b');
      assert Dedup(a) + b == (Dedup(a) + b') + [x];
      assert a + b == (a + b') + [x];
      DedupSnoc(Dedup(a) + b', x);
      DedupSnoc(a + b', x);
    }
  }

  /** The position of the first occurrence of `x` in `s`. */
  function FirstIndex<K(==)>(s: seq<K>, x: K): (i: nat)
    requires x in s
    ensures i < |s| && s[i] == x && x !in s[..i]
  {
    if s[0] == x then 0 else 1 + FirstIndex(s[1..], x)
  }

  /** Dedup keeps the order of first appearance. */
  lemma {:induction false} DedupFirstAppearance<K>(s: seq<K>, a: int, b: int)
    requires 0 <= a < b < |Dedup(s)|
    ensures Dedup(s)[a] in s && Dedup(s)[b] in s
    ensures FirstIndex(s, Dedup(s)[a]) < FirstIndex(s, Dedup(s)[b])
  {
    DedupMembers(s);
    var n := |s| - 1;
    var p := Dedup(s[..n]);
    assert s == s[..n] + [s[n]];
    var x, y := Dedup(s)[a], Dedup(s)[b];
    if b < |p| {
      assert x == p[a] && y == p[b];
      DedupFirstAppearance(s[..n], a, b);
      FirstIndexOfPrefix(s, n, x);
      FirstIndexOfPrefix(s, n, y);
    } else {
      DedupMembers(s[..n]);
      assert y == s[n] && y !in s[..n];
      assert a < |p| && x == p[a] && x in s[..n];
      FirstIndexOfPrefix(s, n, x);
      assert FirstIndex(s, y) == n;
    }
  }

  lemma FirstIndexOfPrefix<K>(s: seq<K>, n: int, x: K)
    requires 0 <= n <= |s| && x in s[..n]
    ensures x in s && FirstIndex(s, x) == FirstIndex(s[..n], x)
  {
    var i := FirstIndex(s[..n], x);
    assert s[i] == x;
    var j := FirstIndex(s, x);
  }

  /** The concatenation, in order, of the batches filed under key `k`. */
  function Collect<K(==), V>(es: seq<(K, seq<V>)>, k: K): seq<V> {
    if es == [] then []
    else Collect(es[..|es| - 1], k) + (if es[|es| - 1].0 == k then es[|es| - 1].1 else [])
  }

  /** With a key filed once, collecting it gives just its own batch. */
  lemma {:induction false} CollectSingle<K, V>(es: seq<(K, seq<V>)>, i: int)
    requires 0 <= i < |es|
    requires forall j :: 0 <= j < |es| && j != i ==> es[j].0 != es[i].0
    ensures Collect(es, es[i].0) == es[i].1
  {
    var n := |es| - 1;
    if i < n {
      CollectSingle(es[..n], i);
    } else {
      CollectAbsent(es[..n], es[i].0);
    }
  }

  lemma {:induction false} CollectAbsent<K, V>(es: seq<(K, seq<V>)>, k: K)
    requires forall j :: 0 <= j < |es| ==> es[j].0 != k
    ensures Collect(es, k) == []
  {
    if es != [] {
      CollectAbsent(es[..|es| - 1], k);
    }
  }
}
