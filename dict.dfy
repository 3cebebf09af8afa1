/**
 * A string-keyed JavaScript object viewed as its entry list: `Object.entries` order is
 * insertion order, so an object is a sequence of (key, value) pairs whose keys are distinct.
 */
module Dict {
  import opened Wrappers

  type Entries<V> = seq<(string, V)>

  /** `Object.keys(d)` */
  function Keys<V>(d: Entries<V>): (ks: seq<string>)
    ensures |ks| == |d|
    ensures forall i :: 0 <= i < |d| ==> ks[i] == d[i].0
  {
    if d == [] then [] else [d[0].0] + Keys(d[1..])
  }

  predicate Distinct(ks: seq<string>) {
    forall i, j :: 0 <= i < j < |ks| ==> ks[i] != ks[j]
  }

  predicate DistinctKeys<V>(d: Entries<V>) {
    Distinct(Keys(d))
  }

  /** `d[k]`, which is `undefined` for a missing key. */
  function Get<V>(d: Entries<V>, k: string): (r: Option<V>)
    ensures r.None? <==> k !in Keys(d)
    ensures r.Some? ==> (k, r.value) in d
  {
    if d == [] then None
    else if d[0].0 == k then Some(d[0].1)
    else Get(d[1..], k)
  }

  /** In an object, looking up the key of the i-th entry yields that entry's value. */
  lemma {:induction false} GetAt<V>(d: Entries<V>, i: nat)
    requires DistinctKeys(d) && i < |d|
    ensures Get(d, d[i].0) == Some(d[i].1)
  {
    if i > 0 {
      assert Keys(d)[0] != Keys(d)[i];
      assert Keys(d[1..]) == Keys(d)[1..];
      GetAt(d[1..], i - 1);
    }
  }

  /** Two entries of an object with the same key are the same entry. */
  lemma SameKeySameValue<V>(d: Entries<V>, k: string, a: V, b: V)
    requires DistinctKeys(d) && (k, a) in d && (k, b) in d
    ensures a == b
  {
    var i :| 0 <= i < |d| && d[i] == (k, a);
    var j :| 0 <= j < |d| && d[j] == (k, b);
    assert Keys(d)[i] == Keys(d)[j];
  }

  /** `{...d, [k]: v}`: an existing key keeps its position, a new key goes last. */
  function Put<V>(d: Entries<V>, k: string, v: V): (r: Entries<V>)
    ensures Keys(r) == if k in Keys(d) then Keys(d) else Keys(d) + [k]
    ensures Get(r, k) == Some(v)
    ensures forall k' :: k' != k ==> Get(r, k') == Get(d, k')
  {
    if d == [] then [(k, v)]
    else if d[0].0 == k then
      var r := [(k, v)] + d[1..];
      assert r[1..] == d[1..];
      r
    else
      var rest := Put(d[1..], k, v);
      PutBehindHead(d, k, v, rest);
      [d[0]] + rest
  }

  /** Putting behind a head entry with another key: the head is kept and the rest is updated. */
  lemma PutBehindHead<V>(d: Entries<V>, k: string, v: V, rest: Entries<V>)
    requires d != [] && d[0].0 != k
    requires Keys(rest) == if k in Keys(d[1..]) then Keys(d[1..]) else Keys(d[1..]) + [k]
    requires Get(rest, k) == Some(v)
    requires forall k' :: k' != k ==> Get(rest, k') == Get(d[1..], k')
    ensures Keys([d[0]] + rest) == if k in Keys(d) then Keys(d) else Keys(d) + [k]
    ensures Get([d[0]] + rest, k) == Some(v)
    ensures forall k' :: k' != k ==> Get([d[0]] + rest, k') == Get(d, k')
  {
    var r := [d[0]] + rest;
    assert r[1..] == rest;
    assert Keys(r) == [d[0].0] + Keys(rest);
    assert Keys(d) == [d[0].0] + Keys(d[1..]);
    assert k in Keys(d) <==> k in Keys(d[1..]);
  }

  /** `a` is `b` with some elements left out, the rest kept in their original order. */
  predicate IsSubsequence<T(==)>(a: seq<T>, b: seq<T>)
    decreases |b|
  {
    a == [] || (b != [] && ((a[0] == b[0] && IsSubsequence(a[1..], b[1..])) || IsSubsequence(a, b[1..])))
  }
}
