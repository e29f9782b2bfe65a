/** Python's `dict` as the tool registry uses it: assigning an existing key
    replaces its value in place, a new key goes to the end, and iteration
    follows insertion order. */
module PyDict {
  import Dedup

  datatype Dict<K(==), V> = Dict(keys: seq<K>, entries: map<K, V>) {

    /** The key order lists each key of the map exactly once. */
    predicate Valid() {
      && (forall i, j :: 0 <= i < j < |keys| ==> keys[i] != keys[j])
      && entries.Keys == (set k | k in keys)
    }

    /** `d[k] = v`. */
    function Put(k: K, v: V): (d: Dict<K, V>)
      requires Valid()
      ensures d.Valid()
      ensures d.entries.Keys == entries.Keys + {k} && d.entries[k] == v
      ensures forall k' :: k' in entries && k' != k ==> d.entries[k'] == entries[k']
      ensures k in entries ==> d.keys == keys
      ensures k !in entries ==> d.keys == keys + [k]
    {
      Dict(if k in entries then keys else keys + [k], entries[k := v])
    }

    /** `d.values()`, in iteration order. */
    function Values(): (vs: seq<V>)
      requires Valid()
      ensures |vs| == |keys|
      ensures forall i :: 0 <= i < |keys| ==> vs[i] == entries[keys[i]]
    {
      seq(|keys|, i requires 0 <= i < |keys| => entries[keys[i]])
    }
  }

  function Empty<K(==), V>(): (d: Dict<K, V>)
    ensures d.Valid() && d.keys == [] && d.entries == map[]
  {
    Dict([], map[])
  }

  /** `for v in vs: d[key(v)] = v`. */
  function PutAll<K(==), V>(d: Dict<K, V>, vs: seq<V>, key: V -> K): (r: Dict<K, V>)
    requires d.Valid()
    ensures r.Valid()
    decreases |vs|
  {
    if vs == [] then d
    else PutAll(d, vs[..|vs| - 1], key).Put(key(vs[|vs| - 1]), vs[|vs| - 1])
  }

  /** Starting from an empty dict, the key order is the order in which the
      keys were first assigned: each key once, however often it was assigned. */
  lemma {:induction false} PutAllKeys<K, V>(vs: seq<V>, key: V -> K)
    ensures PutAll(Empty(), vs, key).keys == Dedup.Project(Dedup.FirstSeen(vs, key), key)
    ensures PutAll(Empty(), vs, key).entries.Keys == Dedup.KeySet(vs, key)
    decreases |vs|
  {
    if vs != [] {
      var init := vs[..|vs| - 1];
      assert vs == init + [vs[|vs| - 1]];
      PutAllKeys(init, key);
      PutAllSnoc(init, vs[|vs| - 1], key);
    }
  }

  /** One more assignment: a new key is appended to the order, an old one is not. */
  lemma PutAllSnoc<K, V>(xs: seq<V>, x: V, key: V -> K)
    requires PutAll(Empty(), xs, key).keys == Dedup.Project(Dedup.FirstSeen(xs, key), key)
    requires PutAll(Empty(), xs, key).entries.Keys == Dedup.KeySet(xs, key)
    ensures PutAll(Empty(), xs + [x], key).keys == Dedup.Project(Dedup.FirstSeen(xs + [x], key), key)
    ensures PutAll(Empty(), xs + [x], key).entries.Keys == Dedup.KeySet(xs + [x], key)
  {
    var ys := xs + [x];
    assert ys[..|xs|] == xs && ys[|xs|] == x;
    Dedup.KeySetSnoc(ys, key);
    if key(x) !in Dedup.KeySet(xs, key) {
      ProjectSnoc(Dedup.FirstSeen(xs, key), x, key);
    }
  }

  lemma ProjectSnoc<T, K>(xs: seq<T>, x: T, key: T -> K)
    ensures Dedup.Project(xs + [x], key) == Dedup.Project(xs, key) + [key(x)]
  {
  }

  /** Each key holds the value assigned to it last. */
  lemma {:induction false} PutAllLastWins<K, V>(vs: seq<V>, key: V -> K, i: nat)
    requires i < |vs|
    requires forall j :: i < j < |vs| ==> key(vs[j]) != key(vs[i])
    ensures key(vs[i]) in PutAll(Empty(), vs, key).entries
    ensures PutAll(Empty(), vs, key).entries[key(vs[i])] == vs[i]
    decreases |vs|
  {
    if i < |vs| - 1 {
      var init := vs[..|vs| - 1];
      PutAllLastWins(init, key, i);
    }
  }

  /** The number of keys is the number of distinct keys assigned. */
  lemma PutAllSize<K, V>(vs: seq<V>, key: V -> K)
    ensures |PutAll(Empty(), vs, key).keys| == |Dedup.KeySet(vs, key)|
  {
    PutAllKeys(vs, key);
    Dedup.FirstSeenLength(vs, key);
  }
}
