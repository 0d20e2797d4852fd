/** Python's `dict` as a value: a finite map that also remembers the order in which its keys
    were first inserted. Assigning to a key that is already present replaces its value and keeps
    its position; a new key goes to the end. */
module PyDict {
  import opened Exceptions

  ghost predicate Distinct<T>(s: seq<T>) {
    forall i, j :: 0 <= i < j < |s| ==> s[i] != s[j]
  }

  /** `x` occurs before `y` in `s`. */
  ghost predicate Precedes<T>(s: seq<T>, x: T, y: T) {
    exists a, b :: 0 <= a < b < |s| && s[a] == x && s[b] == y
  }

  datatype RawDict<K(==), V> = Dict(keys: seq<K>, items: map<K, V>)

  /** Every key occurs once in `keys`, and `keys` enumerates exactly the map's domain. */
  type Dict<K(==), V> = d: RawDict<K, V> | Distinct(d.keys) && d.items.Keys == set k | k in d.keys
    witness Dict([], map[])

  function Empty<K(==), V>(): Dict<K, V> {
    Dict([], map[])
  }

  /** `d.get(k)` */
  function Get<K(==), V>(d: Dict<K, V>, k: K): Option<V> {
    if k in d.items then Some(d.items[k]) else None
  }

  /** `d[k] = v` */
  function Set<K(==), V>(d: Dict<K, V>, k: K, v: V): Dict<K, V> {
    if k in d.items then Dict(d.keys, d.items[k := v])
    else
      assert forall i :: 0 <= i < |d.keys| ==> d.keys[i] in d.items;
      Dict(d.keys + [k], d.items[k := v])
  }

  /** `list(d.values())` */
  function Values<K(==), V>(d: Dict<K, V>): (vs: seq<V>)
    ensures |vs| == |d.keys|
    ensures forall i :: 0 <= i < |d.keys| ==> vs[i] == d.items[d.keys[i]]
  {
    seq(|d.keys|, i requires 0 <= i < |d.keys| => d.items[d.keys[i]])
  }

  /** Assignment overwrites the value and keeps the key's original position; a new key is
      appended; every other entry is untouched. */
  lemma SetPlacement<K, V>(d: Dict<K, V>, k: K, v: V)
    ensures Set(d, k, v).items == d.items[k := v]
    ensures k in d.items ==> Set(d, k, v).keys == d.keys
    ensures k !in d.items ==> Set(d, k, v).keys == d.keys + [k]
    ensures forall i :: 0 <= i < |d.keys| && d.keys[i] != k ==> Values(Set(d, k, v))[i] == Values(d)[i]
  {
  }

  /** `{k: v for k in ks}` and the equivalent loop of assignments: a repeated key is absorbed
      where it first occurred. */
  function FromKeys<K(==), V>(ks: seq<K>, v: V): (d: Dict<K, V>)
    ensures d.items.Keys == set k | k in ks
    ensures forall k :: k in d.items ==> d.items[k] == v
    ensures |d.keys| <= |ks|
    ensures Distinct(ks) ==> d.keys == ks
    decreases |ks|
  {
    if ks == [] then Empty()
    else
      var d := FromKeys(ks[..|ks| - 1], v);
      assert Distinct(ks) ==> Distinct(ks[..|ks| - 1]);
      assert ks == ks[..|ks| - 1] + [ks[|ks| - 1]];
      Set(d, ks[|ks| - 1], v)
  }

  /** `list(d.values())` holds exactly the values of `d`. */
  lemma ValuesEnumerate<K, V>(d: Dict<K, V>)
    ensures forall i :: 0 <= i < |d.keys| ==> Values(d)[i] in d.items.Values
    ensures forall k :: k in d.items ==> exists i :: 0 <= i < |d.keys| && Values(d)[i] == d.items[k]
  {
    forall i | 0 <= i < |d.keys| ensures Values(d)[i] in d.items.Values {
      assert d.keys[i] in d.items;
    }
    forall k | k in d.items ensures exists i :: 0 <= i < |d.keys| && Values(d)[i] == d.items[k] {
      var i :| 0 <= i < |d.keys| && d.keys[i] == k;
      assert Values(d)[i] == d.items[k];
    }
  }

  /** Every entry of `d` holds its own value. */
  predicate Injective<K(==), V(==)>(d: Dict<K, V>) {
    forall a, b :: a in d.items && b in d.items && a != b ==> d.items[a] != d.items[b]
  }

  /** Storing a value no entry holds keeps the entries' values apart. */
  lemma InjectiveSet<K, V>(d: Dict<K, V>, k: K, v: V)
    requires Injective(d) && forall k' :: k' in d.items ==> d.items[k'] != v
    ensures Injective(Set(d, k, v))
  {
    SetPlacement(d, k, v);
  }

  /** `list(d.values())` of an injective dict lists each of its values, and lists it once. */
  lemma ValuesOfInjective<K, V>(d: Dict<K, V>)
    requires Injective(d)
    ensures forall i :: 0 <= i < |d.keys| ==> Values(d)[i] in d.items.Values
    ensures forall i, j :: 0 <= i < |d.keys| && 0 <= j < |d.keys| && i != j ==> Values(d)[i] != Values(d)[j]
  {
    forall i | 0 <= i < |d.keys| ensures Values(d)[i] in d.items.Values {
      assert d.keys[i] in d.items;
    }
  }
}
