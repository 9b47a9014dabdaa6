/** vector_map: two parallel vectors of fixed capacity that stand for a map. */
module VectorMaps {

  /** Position of the first occurrence of `k`, or the length if there is none. */
  function Index<K(==)>(keys: seq<K>, k: K): (i: nat)
    ensures i <= |keys|
    ensures i < |keys| ==> keys[i] == k
    ensures i == |keys| <==> k !in keys
    ensures forall j :: 0 <= j < i ==> keys[j] != k
  {
    if keys == [] then 0
    else if keys[0] == k then 0
    else 1 + Index(keys[1..], k)
  }

  predicate Distinct<K(==)>(keys: seq<K>) {
    forall i, j :: 0 <= i < j < |keys| ==> keys[i] != keys[j]
  }

  /** The map the vectors stand for: lookup takes the first occurrence. */
  function AsMap<K(!new), V>(keys: seq<K>, elems: seq<V>): (m: map<K, V>)
    requires |keys| == |elems|
    ensures forall k :: k in m <==> k in keys
  {
    map k | k in keys :: elems[Index(keys, k)]
  }

  function Without<T>(s: seq<T>, i: nat): (r: seq<T>)
    requires i < |s|
    ensures |r| == |s| - 1
    ensures forall j :: 0 <= j < |r| ==> r[j] == s[if j < i then j else j + 1]
  {
    s[..i] + s[i + 1..]
  }

  lemma IndexIs<K>(keys: seq<K>, i: nat)
    requires Distinct(keys) && i < |keys|
    ensures Index(keys, keys[i]) == i
  {}

  lemma AsMapAt<K(!new), V>(keys: seq<K>, elems: seq<V>, i: nat)
    requires |keys| == |elems| && Distinct(keys) && i < |keys|
    ensures keys[i] in keys && AsMap(keys, elems)[keys[i]] == elems[i]
  {
    IndexIs(keys, i);
  }

  /** Two aligned, duplicate-free vectors stand for a map as soon as every position agrees. */
  lemma AsMapIs<K(!new), V>(keys: seq<K>, elems: seq<V>, m: map<K, V>)
    requires |keys| == |elems| && Distinct(keys)
    requires forall k :: k in m ==> k in keys
    requires forall i :: 0 <= i < |keys| ==> keys[i] in m && m[keys[i]] == elems[i]
    ensures AsMap(keys, elems) == m
  {
    var a := AsMap(keys, elems);
    forall k | k in keys ensures k in m && a[k] == m[k] {
      AsMapAt(keys, elems, Index(keys, k));
    }
    assert a.Keys == m.Keys;
  }

  lemma AsMapSnoc<K(!new), V>(keys: seq<K>, elems: seq<V>, k: K, v: V)
    requires |keys| == |elems| && Distinct(keys) && k !in keys
    ensures Distinct(keys + [k])
    ensures AsMap(keys + [k], elems + [v]) == AsMap(keys, elems)[k := v]
  {
    var m := AsMap(keys, elems)[k := v];
    forall i | 0 <= i < |keys| + 1
      ensures (keys + [k])[i] in m && m[(keys + [k])[i]] == (elems + [v])[i]
    {
      if i < |keys| {
        AsMapAt(keys, elems, i);
      }
    }
    AsMapIs(keys + [k], elems + [v], m);
  }

  lemma {:induction false} IndexSnoc<K>(keys: seq<K>, k: K, x: K)
    ensures x in keys || x == k ==> Index(keys + [k], x) == Index(keys, x)
  {
    if keys == [] {
      assert keys + [k] == [k];
    } else if keys[0] != x {
      IndexSnoc(keys[1..], k, x);
      assert (keys + [k])[1..] == keys[1..] + [k];
    }
  }

  /** Of two elements under the same key the first is found. */
  lemma FirstIsFound<K(!new), V>(keys: seq<K>, elems: seq<V>, k: K, v: V)
    requires |keys| == |elems| && k in keys
    ensures AsMap(keys + [k], elems + [v]) == AsMap(keys, elems)
  {
    forall x | x in keys ensures Index(keys + [k], x) == Index(keys, x) {
      IndexSnoc(keys, k, x);
    }
    assert AsMap(keys + [k], elems + [v]).Keys == AsMap(keys, elems).Keys;
  }

  lemma NewIsFound<K(!new), V>(keys: seq<K>, elems: seq<V>, k: K, v: V)
    requires |keys| == |elems| && k !in keys
    ensures AsMap(keys + [k], elems + [v]) == AsMap(keys, elems)[k := v]
  {
    forall x | x in keys ensures Index(keys + [k], x) == Index(keys, x) {
      IndexSnoc(keys, k, x);
    }
    IndexSnoc(keys, k, k);
    assert AsMap(keys + [k], elems + [v]).Keys == AsMap(keys, elems)[k := v].Keys;
  }

  lemma AsMapWithout<K(!new), V>(keys: seq<K>, elems: seq<V>, i: nat)
    requires |keys| == |elems| && Distinct(keys) && i < |keys|
    ensures Distinct(Without(keys, i))
    ensures AsMap(Without(keys, i), Without(elems, i)) == AsMap(keys, elems) - {keys[i]}
  {
    var ks, es := Without(keys, i), Without(elems, i);
    var m := AsMap(keys, elems) - {keys[i]};
    forall j | 0 <= j < |ks| ensures ks[j] in m && m[ks[j]] == es[j] {
      var j' := if j < i then j else j + 1;
      assert ks[j] == keys[j'] && es[j] == elems[j'];
      AsMapAt(keys, elems, j');
    }
    forall k | k in m ensures k in ks {
      var j := Index(keys, k);
      assert ks[if j < i then j else j - 1] == k;
    }
    AsMapIs(ks, es, m);
  }

  lemma AsMapUpdate<K(!new), V>(keys: seq<K>, elems: seq<V>, i: nat, v: V)
    requires |keys| == |elems| && Distinct(keys) && i < |keys|
    ensures AsMap(keys, elems[i := v]) == AsMap(keys, elems)[keys[i] := v]
  {
    var m := AsMap(keys, elems)[keys[i] := v];
    forall j | 0 <= j < |keys| ensures keys[j] in m && m[keys[j]] == elems[i := v][j] {
      AsMapAt(keys, elems, j);
    }
    AsMapIs(keys, elems[i := v], m);
  }

  lemma {:induction false} DistinctSize<K>(keys: seq<K>)
    requires Distinct(keys)
    ensures |set k | k in keys| == |keys|
  {
    if keys != [] {
      DistinctSize(keys[1..]);
      assert (set k | k in keys) == {keys[0]} + (set k | k in keys[1..]);
    }
  }

  lemma AsMapSize<K(!new), V>(keys: seq<K>, elems: seq<V>)
    requires |keys| == |elems| && Distinct(keys)
    ensures |AsMap(keys, elems)| == |keys|
  {
    DistinctSize(keys);
    assert AsMap(keys, elems).Keys == set k | k in keys;
  }

  class VectorMap<K(==, !new), V> {
    const capacity: nat
    var m_keys: seq<K>
    var m_elems: seq<V>

    constructor (capacity: nat)
      ensures this.capacity == capacity && m_keys == [] && m_elems == [] && Valid()
    {
      this.capacity := capacity;
      m_keys, m_elems := [], [];
    }

    /** Holds whatever the callers do. */
    predicate Aligned()
      reads this
    {
      |m_keys| == |m_elems| <= capacity
    }

    /** Holds while the callers look a key up before they emplace it. */
    ghost predicate Valid()
      reads this
    {
      Aligned() && Distinct(m_keys)
    }

    ghost function Map(): (m: map<K, V>)
      reads this
      requires Aligned()
    {
      AsMap(m_keys, m_elems)
    }

    /** The position of the key's element, or the end position. */
    method Find(key: K) returns (it: nat)
      requires Aligned()
      ensures it == Index(m_keys, key)
      ensures it < |m_elems| <==> key in Map()
      ensures it < |m_elems| ==> m_elems[it] == Map()[key]
    {
      it := 0;
      while it < |m_keys| && m_keys[it] != key
        invariant it <= |m_keys|
        invariant forall j :: 0 <= j < it ==> m_keys[j] != key
      {
        it := it + 1;
      }
    }

    /** Appends without looking for the key; false when full. */
    method Emplace(key: K, elem: V) returns (emplaced: bool)
      requires Aligned()
      modifies this
      ensures Aligned() && emplaced == (old(|m_keys|) < capacity)
      ensures emplaced ==> m_keys == old(m_keys) + [key] && m_elems == old(m_elems) + [elem]
      ensures !emplaced ==> m_keys == old(m_keys) && m_elems == old(m_elems)
      ensures old(Valid()) && emplaced ==> (Valid() <==> key !in old(Map()))
      ensures old(Valid()) && emplaced && key !in old(Map()) ==> Map() == old(Map())[key := elem]
    {
      emplaced := |m_keys| < capacity;
      if emplaced {
        if Distinct(m_keys) && key !in m_keys {
          AsMapSnoc(m_keys, m_elems, key, elem);
        }
        ghost var i := Index(m_keys, key);
        m_keys := m_keys + [key];
        m_elems := m_elems + [elem];
        assert i < |m_keys| - 1 ==> m_keys[i] == m_keys[|m_keys| - 1];
      }
    }

    method Erase(it: nat)
      requires Aligned() && it < |m_elems|
      modifies this
      ensures Aligned()
      ensures m_keys == Without(old(m_keys), it) && m_elems == Without(old(m_elems), it)
      ensures old(Valid()) ==> Valid() && Map() == old(Map()) - {old(m_keys)[it]}
    {
      if Distinct(m_keys) {
        AsMapWithout(m_keys, m_elems, it);
      }
      m_keys := m_keys[..it] + m_keys[it + 1..];
      m_elems := m_elems[..it] + m_elems[it + 1..];
    }

    /** Writing through an iterator. */
    method Set(it: nat, elem: V)
      requires Aligned() && it < |m_elems|
      modifies this
      ensures Aligned() && m_keys == old(m_keys) && m_elems == old(m_elems)[it := elem]
      ensures old(Valid()) ==> Valid() && Map() == old(Map())[m_keys[it] := elem]
    {
      if Distinct(m_keys) {
        AsMapUpdate(m_keys, m_elems, it, elem);
      }
      m_elems := m_elems[it := elem];
    }

    method Clear()
      modifies this
      ensures m_keys == [] && m_elems == [] && Valid() && Map() == map[]
    {
      m_keys, m_elems := [], [];
    }
  }
}
