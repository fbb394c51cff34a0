/**
 * backend/repositories/MemoryStorage.js: a key-value store over a JavaScript Map. A Map
 * remembers insertion order, so the model keeps the keys in `order` beside `data`.
 */
module Storage {
  import opened Wrappers
  import opened Seqs

  /** `order` lists each key of `data` once, in insertion order. */
  ghost predicate Indexes<K(!new), V>(order: seq<K>, data: map<K, V>) {
    NoDup(order) && forall k :: k in order <==> k in data
  }

  /** The store holds as many entries as its order lists keys. */
  lemma KeyCount<K(!new), V>(order: seq<K>, data: map<K, V>)
    requires Indexes(order, data)
    ensures |data| == |order|
  {
    NoDupCard(order);
    assert data.Keys == (set k | k in order);
  }

  /** Setting a present key keeps the size; a new key adds one at the end of the order. */
  lemma SetCount<K(!new), V>(order: seq<K>, data: map<K, V>, key: K, value: V)
    requires Indexes(order, data)
    ensures Indexes(PushNew(order, key), data[key := value])
    ensures |data[key := value]| == |data| + (if key in data then 0 else 1)
  {
    PushNewKeepsNoDup(order, key);
    KeyCount(order, data);
    KeyCount(PushNew(order, key), data[key := value]);
  }

  /** Deleting removes exactly that key from the order. */
  lemma DeleteCount<K(!new), V>(order: seq<K>, data: map<K, V>, key: K)
    requires Indexes(order, data)
    ensures Indexes(Without(order, key), data - {key})
    ensures |data - {key}| == |data| - (if key in data then 1 else 0)
  {
    WithoutKeepsNoDup(order, key);
    KeyCount(order, data);
    KeyCount(Without(order, key), data - {key});
  }

  class MemoryStorage<K(==,!new), V> {
    var data: map<K, V>
    var order: seq<K>

    ghost predicate Valid()
      reads this
    {
      Indexes(order, data)
    }

    constructor ()
      ensures Valid() && data == map[] && order == []
    {
      data := map[];
      order := [];
    }

    /** set: a new key goes last in the order, an existing key keeps its place. */
    method Set(key: K, value: V)
      requires Valid()
      modifies this
      ensures Valid()
      ensures data == old(data)[key := value] && order == PushNew(old(order), key)
      ensures Size() == old(Size()) + (if key in old(data) then 0 else 1)
    {
      SetCount(order, data, key, value);
      data := data[key := value];
      order := PushNew(order, key);
    }

    /** get; `undefined` is `None`. */
    function Get(key: K): (r: Option<V>)
      reads this
      ensures r.Some? <==> key in data
      ensures r.Some? ==> r.value == data[key]
    {
      if key in data then Some(data[key]) else None
    }

    /** delete: reports whether the key was present. */
    method Delete(key: K) returns (present: bool)
      requires Valid()
      modifies this
      ensures Valid() && present == (key in old(data))
      ensures data == old(data) - {key} && order == Without(old(order), key)
      ensures !Has(key)
      ensures Size() == old(Size()) - (if present then 1 else 0)
    {
      DeleteCount(order, data, key);
      present := key in data;
      data := data - {key};
      order := Without(order, key);
    }

    function Has(key: K): (b: bool)
      reads this
      ensures b <==> Get(key).Some?
    {
      key in data
    }

    method Clear()
      modifies this
      ensures Valid() && data == map[] && order == [] && Size() == 0 && Keys() == []
    {
      data := map[];
      order := [];
    }

    /** keys: each stored key once, in insertion order. */
    function Keys(): (ks: seq<K>)
      requires Valid()
      reads this
      ensures NoDup(ks) && forall k :: k in ks <==> k in data
    {
      order
    }

    /** values: the value of each key, in the order of Keys. */
    function Values(): (vs: seq<V>)
      requires Valid()
      reads this
      ensures |vs| == |Keys()|
      ensures forall i | 0 <= i < |vs| :: Keys()[i] in data && vs[i] == data[Keys()[i]]
    {
      seq(|order|, i requires 0 <= i < |order| && order[i] in data reads this =>
        data[order[i]])
    }

    /** entries: key-value pairs, aligned with Keys and Values. */
    function Entries(): (es: seq<(K, V)>)
      requires Valid()
      reads this
      ensures |es| == |Keys()| == |Values()|
      ensures forall i | 0 <= i < |es| :: es[i] == (Keys()[i], Values()[i])
    {
      seq(|order|, i requires 0 <= i < |order| && order[i] in data reads this =>
        (order[i], data[order[i]]))
    }

    /** size: the number of distinct keys stored. */
    function Size(): (n: nat)
      requires Valid()
      reads this
      ensures n == |data| == |Keys()|
    {
      KeyCount(order, data);
      |order|
    }
  }

  /** get(k) after set(k, v) is v, and the other keys read as before. */
  method SetThenGet<K(==,!new), V>(store: MemoryStorage<K, V>, k: K, v: V, other: K)
    requires store.Valid() && other != k
    modifies store
    ensures store.Get(k) == Some(v) && store.Get(other) == old(store.Get(other))
  {
    store.Set(k, v);
  }
}
