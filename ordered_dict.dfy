/**
 * A Python dict as the calculator uses it: an insertion-ordered mapping, held
 * as the sequence of its (key, value) entries in iteration order.
 */
module OrderedDict {

  datatype Option<T> = None | Some(value: T)

  type Dict<K, V> = seq<(K, V)>

  /** The keys in iteration order (`d.keys()`). */
  function Keys<K, V>(d: Dict<K, V>): (ks: seq<K>)
    ensures |ks| == |d|
    ensures forall i :: 0 <= i < |d| ==> ks[i] == d[i].0
  {
    if d == [] then [] else [d[0].0] + Keys(d[1..])
  }

  /** The values in iteration order (`list(d.values())`). */
  function Values<K, V>(d: Dict<K, V>): (vs: seq<V>)
    ensures |vs| == |d|
    ensures forall i :: 0 <= i < |d| ==> vs[i] == d[i].1
  {
    if d == [] then [] else [d[0].1] + Values(d[1..])
  }

  /** A well-formed dict (every Python dict) has pairwise distinct keys. */
  predicate DistinctKeys<K(==), V>(d: Dict<K, V>) {
    forall i, j :: 0 <= i < j < |d| ==> d[i].0 != d[j].0
  }

  /** Lookup `d[k]`, None when k is not a key. */
  function Get<K(==), V>(d: Dict<K, V>, k: K): (r: Option<V>)
    ensures r.Some? <==> k in Keys(d)
  {
    if d == [] then None else if d[0].0 == k then Some(d[0].1) else Get(d[1..], k)
  }

  /**
   * Assignment `d[k] = v`: a new key goes to the end of the iteration order,
   * an existing key keeps its place and gets the new value.
   */
  function Insert<K(==), V>(d: Dict<K, V>, k: K, v: V): (r: Dict<K, V>)
    ensures k !in Keys(d) ==> r == d + [(k, v)]
    ensures k in Keys(d) ==> Keys(r) == Keys(d)
  {
    if d == [] then [(k, v)]
    else if d[0].0 == k then [(k, v)] + d[1..]
    else [d[0]] + Insert(d[1..], k, v)
  }

  /** After `d[k] = v`, looking up k gives v and every other key gives what it gave before. */
  lemma {:induction false} InsertLookup<K, V>(d: Dict<K, V>, k: K, v: V, other: K)
    ensures Get(Insert(d, k, v), k) == Some(v)
    ensures other != k ==> Get(Insert(d, k, v), other) == Get(d, other)
  {
    if d != [] && d[0].0 != k {
      InsertLookup(d[1..], k, v, other);
    }
  }

  /** Assignment keeps the keys of a dict pairwise distinct. */
  lemma {:induction false} InsertKeepsDistinct<K, V>(d: Dict<K, V>, k: K, v: V)
    requires DistinctKeys(d)
    ensures DistinctKeys(Insert(d, k, v))
  {
    if d != [] && d[0].0 != k {
      InsertKeepsDistinct(d[1..], k, v);
      var r := Insert(d, k, v);
      assert Keys(r) == [d[0].0] + Keys(Insert(d[1..], k, v));
      InsertLookup(d[1..], k, v, d[0].0);
      assert d[0].0 !in Keys(d[1..]);
      assert d[0].0 !in Keys(Insert(d[1..], k, v));
    }
  }
}
