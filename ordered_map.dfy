/** A Python dict as Dafny sees it: a sequence of (key, value) entries in
    insertion order.  `dict.items()`, `dict.values()` and `list(d.items())[i]`
    depend on that order, so it is kept explicit. */
module OrderedMap {
  import opened Wrappers
  import opened Lists

  type OMap<K, V> = seq<(K, V)>

  function Keys<K, V>(m: OMap<K, V>): (ks: seq<K>)
    ensures |ks| == |m|
    ensures forall i :: 0 <= i < |m| ==> ks[i] == m[i].0
  {
    seq(|m|, i requires 0 <= i < |m| => m[i].0)
  }

  /** `list(d.values())`: the values in insertion order. */
  function Values<K, V>(m: OMap<K, V>): (vs: seq<V>)
    ensures |vs| == |m|
    ensures forall i :: 0 <= i < |m| ==> vs[i] == m[i].1
  {
    seq(|m|, i requires 0 <= i < |m| => m[i].1)
  }

  /** What every Python dict satisfies. */
  predicate DistinctKeys<K(==), V>(m: OMap<K, V>)
  {
    NoDup(Keys(m))
  }

  /** `d[k]`, with `None` where Python raises KeyError. */
  function Lookup<K(==), V>(m: OMap<K, V>, k: K): (r: Option<V>)
    ensures r.None? <==> k !in Keys(m)
  {
    if m == [] then None
    else if m[0].0 == k then Some(m[0].1)
    else Lookup(m[1..], k)
  }

  /** What lookup returns is the value of an entry with that key. */
  lemma {:induction false} LookupFound<K, V>(m: OMap<K, V>, k: K)
    requires Lookup(m, k).Some?
    ensures (k, Lookup(m, k).value) in m
  {
    if m[0].0 != k {
      LookupFound(m[1..], k);
    }
  }

  /** In a dict, an entry is what lookup of its key returns. */
  lemma {:induction false} LookupEntry<K, V>(m: OMap<K, V>, k: K, v: V)
    requires DistinctKeys(m)
    requires (k, v) in m
    ensures Lookup(m, k) == Some(v)
  {
    if m[0] != (k, v) {
      assert Keys(m)[0] == m[0].0;
      assert m[0].0 != k by {
        var i :| 0 <= i < |m| && m[i] == (k, v);
        assert Keys(m)[i] == k;
      }
      assert Keys(m[1..]) == Keys(m)[1..];
      LookupEntry(m[1..], k, v);
    }
  }

  /** `d[k] = v`: an existing key keeps its place and gets the new value, a
      new key goes to the end. */
  function Put<K(==), V>(m: OMap<K, V>, k: K, v: V): (r: OMap<K, V>)
    ensures Keys(r) == if k in Keys(m) then Keys(m) else Keys(m) + [k]
    ensures forall i :: 0 <= i < |m| && m[i].0 != k ==> r[i] == m[i]
    ensures Lookup(r, k) == Some(v)
  {
    if m == [] then [(k, v)]
    else if m[0].0 == k then [(k, v)] + m[1..]
    else [m[0]] + Put(m[1..], k, v)
  }

  /** Writing a key leaves every other key's lookup alone. */
  lemma {:induction false} PutOther<K, V>(m: OMap<K, V>, k: K, v: V, k': K)
    requires k' != k
    ensures Lookup(Put(m, k, v), k') == Lookup(m, k')
  {
    if m != [] && m[0].0 != k && m[0].0 != k' {
      PutOther(m[1..], k, v, k');
    }
  }
}
