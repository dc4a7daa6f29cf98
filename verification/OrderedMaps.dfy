/** Insertion-ordered maps, as the plan and the supervisor keep their entries. */
module OrderedMaps {
  import opened Prelude

  datatype OrderedMap<K(==, !new), V> = OrderedMap(keys: seq<K>, vals: map<K, V>) {
    ghost predicate Valid() {
      Distinct(keys) && (forall k :: k in keys <==> k in vals)
    }

    /** A new key goes to the end; an old one keeps its place. */
    function Insert(k: K, v: V): OrderedMap<K, V> {
      OrderedMap(AddIfAbsent(keys, k), vals[k := v])
    }

    /** Removes a key and closes the gap. */
    function Remove(k: K): OrderedMap<K, V> {
      OrderedMap(Drop(keys, k), vals - {k})
    }
  }

  function EmptyMap<K(==, !new), V>(): OrderedMap<K, V> {
    OrderedMap([], map[])
  }

  /** All of `other` inserted into `m`: values of `other` win, keys keep the place of their first insertion. */
  function Extend<K(==, !new), V>(m: OrderedMap<K, V>, other: OrderedMap<K, V>): OrderedMap<K, V> {
    OrderedMap(AddAll(m.keys, other.keys), m.vals + other.vals)
  }

  /** The entries of the first `n` keys. */
  ghost function Front<K(!new), V>(m: OrderedMap<K, V>, n: nat): OrderedMap<K, V>
    requires m.Valid() && n <= |m.keys|
  {
    OrderedMap(m.keys[..n], map k | k in m.keys[..n] :: m.vals[k])
  }

  lemma FrontStep<K(!new), V>(m: OrderedMap<K, V>, n: nat)
    requires m.Valid() && n < |m.keys|
    ensures var k := m.keys[n];
            && Front(m, n + 1).keys == Front(m, n).keys + [k]
            && Front(m, n + 1).vals == Front(m, n).vals[k := m.vals[k]]
  {
    assert m.keys[..n + 1] == m.keys[..n] + [m.keys[n]];
  }

  lemma FrontAll<K(!new), V>(m: OrderedMap<K, V>)
    requires m.Valid()
    ensures Front(m, |m.keys|) == m
  {
    assert m.keys[..|m.keys|] == m.keys;
    assert Front(m, |m.keys|).vals == m.vals;
  }

  lemma ExtendStep<K(!new), V>(m: OrderedMap<K, V>, other: OrderedMap<K, V>, n: nat)
    requires other.Valid() && n < |other.keys|
    ensures var k := other.keys[n];
            Extend(m, Front(other, n)).Insert(k, other.vals[k]) == Extend(m, Front(other, n + 1))
  {
    hide AddAll, Front;
    FrontStep(other, n);
    AddAllStep(m.keys, Front(other, n).keys, other.keys[n]);
    MapUpdateSum(m.vals, Front(other, n).vals, other.keys[n], other.vals[other.keys[n]]);
  }

  lemma MapUpdateSum<K, V>(a: map<K, V>, b: map<K, V>, k: K, v: V)
    ensures a + b[k := v] == (a + b)[k := v]
  {
  }

  method ExtendInPlace<K(==, !new), V>(m: OrderedMap<K, V>, other: OrderedMap<K, V>) returns (r: OrderedMap<K, V>)
    requires other.Valid()
    ensures r == Extend(m, other)
  {
    hide Extend, Front;
    r := m;
    ExtendNothing(m, other);
    for i := 0 to |other.keys|
      invariant r == Extend(m, Front(other, i))
    {
      ExtendStep(m, other, i);
      r := r.Insert(other.keys[i], other.vals[other.keys[i]]);
    }
    FrontAll(other);
  }

  lemma ExtendNothing<K(!new), V>(m: OrderedMap<K, V>, other: OrderedMap<K, V>)
    requires other.Valid()
    ensures Extend(m, Front(other, 0)) == m
  {
    assert m.vals + Front(other, 0).vals == m.vals;
  }

  lemma ExtendAssociative<K(!new), V>(a: OrderedMap<K, V>, b: OrderedMap<K, V>, c: OrderedMap<K, V>)
    ensures Extend(Extend(a, b), c) == Extend(a, Extend(b, c))
  {
    hide AddAll;
    AddAllAssociative(a.keys, b.keys, c.keys);
    assert (a.vals + b.vals) + c.vals == a.vals + (b.vals + c.vals);
  }
}
