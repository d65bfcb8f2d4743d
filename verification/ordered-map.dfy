/** A JavaScript Map: keys keep the order in which they were first set. */
module OrderedMaps {
  import opened Wrappers

  type OrderedMap<K, V> = seq<(K, V)>

  function Get<K(==), V>(m: OrderedMap<K, V>, key: K): Option<V> {
    if m == [] then None else if m[0].0 == key then Some(m[0].1) else Get(m[1..], key)
  }

  function Set<K(==), V>(m: OrderedMap<K, V>, key: K, value: V): (r: OrderedMap<K, V>)
    ensures |r| == |m| + if Get(m, key).Some? then 0 else 1
  {
    if m == [] then [(key, value)]
    else if m[0].0 == key then [(key, value)] + m[1..]
    else [m[0]] + Set(m[1..], key, value)
  }

  function Delete<K(==), V>(m: OrderedMap<K, V>, key: K): (r: OrderedMap<K, V>)
    ensures |r| <= |m| && (Get(m, key).Some? ==> |r| < |m|) && (Get(m, key).None? ==> r == m)
  {
    if m == [] then []
    else if m[0].0 == key then Delete(m[1..], key)
    else [m[0]] + Delete(m[1..], key)
  }

  lemma {:induction false} SetThenGet<K, V>(m: OrderedMap<K, V>, key: K, value: V, other: K)
    ensures Get(Set(m, key, value), other) == if other == key then Some(value) else Get(m, other)
  {
    if m != [] && m[0].0 != key {
      SetThenGet(m[1..], key, value, other);
    }
  }

  lemma {:induction false} DeleteThenGet<K, V>(m: OrderedMap<K, V>, key: K, other: K)
    ensures Get(Delete(m, key), other) == if other == key then None else Get(m, other)
  {
    if m != [] {
      DeleteThenGet(m[1..], key, other);
    }
  }

  predicate Distinct<K(==), V>(m: OrderedMap<K, V>) { m != [] ==> Get(m[1..], m[0].0).None? && Distinct(m[1..]) }

  // The map without its order.
  function AsMap<K(==), V>(m: OrderedMap<K, V>): map<K, V> {
    if m == [] then map[] else AsMap(m[1..])[m[0].0 := m[0].1]
  }

  lemma {:induction false} AsMapGets<K, V>(m: OrderedMap<K, V>, key: K)
    ensures Get(m, key) == if key in AsMap(m) then Some(AsMap(m)[key]) else None
  {
    if m != [] { AsMapGets(m[1..], key); }
  }

  lemma {:induction false} AsMapSize<K, V>(m: OrderedMap<K, V>)
    requires Distinct(m)
    ensures |AsMap(m)| == |m|
  {
    if m != [] {
      AsMapSize(m[1..]);
      AsMapGets(m[1..], m[0].0);
      assert AsMap(m).Keys == AsMap(m[1..]).Keys + {m[0].0};
    }
  }

  lemma {:induction false} EachGets<K, V>(m: OrderedMap<K, V>, i: nat)
    requires Distinct(m) && i < |m|
    ensures Get(m, m[i].0) == Some(m[i].1) && (i > 0 ==> m[i].0 != m[0].0)
  {
    if i > 0 {
      EachGets(m[1..], i - 1);
    }
  }

  lemma {:induction false} GetsSome<K, V>(m: OrderedMap<K, V>, key: K) returns (i: nat)
    requires Get(m, key).Some?
    ensures i < |m| && m[i] == (key, Get(m, key).value)
  {
    if m[0].0 == key {
      i := 0;
    } else {
      i := GetsSome(m[1..], key);
      i := i + 1;
    }
  }

  lemma {:induction false} SetKeepsDistinct<K, V>(m: OrderedMap<K, V>, key: K, value: V)
    requires Distinct(m)
    ensures Distinct(Set(m, key, value))
  {
    if m != [] && m[0].0 != key {
      SetKeepsDistinct(m[1..], key, value);
      SetThenGet(m[1..], key, value, m[0].0);
    }
  }

  lemma {:induction false} SetSets<K, V>(m: OrderedMap<K, V>, key: K, value: V)
    ensures AsMap(Set(m, key, value)) == AsMap(m)[key := value]
  {
    if m != [] && m[0].0 != key {
      SetSets(m[1..], key, value);
    }
  }

  lemma {:induction false} DeleteKeepsDistinct<K, V>(m: OrderedMap<K, V>, key: K)
    requires Distinct(m)
    ensures Distinct(Delete(m, key))
  {
    if m != [] {
      DeleteKeepsDistinct(m[1..], key);
      DeleteThenGet(m[1..], key, m[0].0);
    }
  }

  lemma {:induction false} DeleteDeletes<K, V>(m: OrderedMap<K, V>, key: K)
    ensures AsMap(Delete(m, key)) == AsMap(m) - {key}
  {
    if m != [] {
      DeleteDeletes(m[1..], key);
    }
  }
}
