/** The insertion order of JavaScript's `Map` and of plain objects whose keys
    are not integer-like (the slice ids `slice_<uuid>` never are): `set` on a
    new key appends it, `set` on a present key keeps its position, and
    `delete` closes the gap. `keys()`, `Object.keys` and `Object.values`
    report entries in this order. */
module InsertionOrder {
  import opened Wrappers
  import opened Sequences

  datatype OrderedMap<V> = OrderedMap(keys: seq<string>, entries: map<string, V>) {

    /** Every key occurs once in the order, and the order lists exactly the
        keys that have an entry. */
    ghost predicate Valid() {
      Distinct(keys) && (forall k :: k in entries <==> k in keys)
    }

    /** `size`: the number of entries. */
    function Size(): nat {
      |keys|
    }

    /** `get`: the entry of `k`, or nothing when there is none. */
    function Get(k: string): (r: Option<V>)
      ensures r.Some? <==> k in entries
      ensures r.Some? ==> r.value == entries[k]
    {
      if k in entries then Some(entries[k]) else None
    }

    /** `set(k, v)` or `{...m, [k]: v}`: `k` maps to `v`, every other key keeps its
        entry; a new key goes last, a present key keeps its position. */
    function Set(k: string, v: V): (m: OrderedMap<V>)
      requires Valid()
      ensures m.Valid()
      ensures m.Get(k) == Some(v)
      ensures forall k' | k' != k :: m.Get(k') == Get(k')
      ensures k in entries ==> m.keys == keys
      ensures k !in entries ==> m.keys == keys + [k]
    {
      if k in entries then OrderedMap(keys, entries[k := v])
      else
        assert Distinct(keys + [k]);
        OrderedMap(keys + [k], entries[k := v])
    }

    /** `delete(k)`: `k` loses its entry, every other key keeps its entry and
        its relative order. */
    function Delete(k: string): (m: OrderedMap<V>)
      requires Valid()
      ensures m.Valid()
      ensures m.Get(k) == None
      ensures forall k' | k' != k :: m.Get(k') == Get(k')
      ensures m.keys == Without(keys, k)
      ensures k in entries ==> |m.keys| == |keys| - 1
    {
      WithoutDistinct(keys, k);
      if k in entries then
        WithoutAt(keys, IndexOf(keys, k));
        OrderedMap(Without(keys, k), entries - {k})
      else
        OrderedMap(Without(keys, k), entries - {k})
    }

    /** `Object.values`: the entries in key order. */
    function Values(): (vs: seq<V>)
      requires Valid()
      ensures |vs| == |keys|
      ensures forall i | 0 <= i < |keys| :: vs[i] == entries[keys[i]]
    {
      seq(|keys|, i requires 0 <= i < |keys| && keys[i] in entries => entries[keys[i]])
    }
  }

  /** The map with no entries. */
  function Empty<V>(): (m: OrderedMap<V>)
    ensures m.Valid() && m.Size() == 0
  {
    OrderedMap([], map[])
  }

  /** Setting a new key appends its value to the values. */
  lemma ValuesAfterSetNew<V>(m: OrderedMap<V>, k: string, v: V)
    requires m.Valid() && k !in m.entries
    ensures m.Set(k, v).Values() == m.Values() + [v]
  {
    var vs := m.Set(k, v).Values();
    assert forall i | 0 <= i < |m.keys| :: m.keys[i] != k;
  }

  /** Setting a present key replaces its value in place. */
  lemma ValuesAfterSetPresent<V>(m: OrderedMap<V>, k: string, v: V)
    requires m.Valid() && k in m.entries
    ensures IndexOf(m.keys, k) < |m.Values()|
    ensures m.Set(k, v).Values() == m.Values()[IndexOf(m.keys, k) := v]
  {
    var i := IndexOf(m.keys, k);
    var lhs, rhs := m.Set(k, v).Values(), m.Values()[i := v];
    forall j | 0 <= j < |lhs|
      ensures lhs[j] == rhs[j]
    {
      if j != i {
        assert m.keys[j] != m.keys[i];
        assert m.Set(k, v).Get(m.keys[j]) == m.Get(m.keys[j]);
      } else {
        assert m.Set(k, v).Get(k) == Some(v);
      }
    }
  }

  /** Deleting the key at index `i` cuts index `i` out of the key order. */
  lemma DeleteKeysAt<V>(m: OrderedMap<V>, i: nat)
    requires m.Valid() && i < |m.keys|
    ensures m.Delete(m.keys[i]).keys == m.keys[..i] + m.keys[i + 1..]
  {
    WithoutAt(m.keys, i);
  }

  /** After deleting the key at index `i`, position `j` holds the value that
      stood at `j`, or at `j + 1` from `i` on. */
  lemma DeleteValueAt<V>(m: OrderedMap<V>, i: nat, j: nat)
    requires m.Valid() && i < |m.keys| && j < |m.keys| - 1
    ensures m.Delete(m.keys[i]).Values()[j] == m.Values()[if j < i then j else j + 1]
  {
    var d := m.Delete(m.keys[i]);
    DeleteKeysAt(m, i);
    CutIndex(m.keys, i, j);
    var j' := if j < i then j else j + 1;
    assert d.keys[j] == m.keys[j'] != m.keys[i];
    assert d.Get(m.keys[j']) == m.Get(m.keys[j']);
  }

  /** Deleting the key at index `i` cuts index `i` out of the values. */
  lemma DeleteValuesAt<V>(m: OrderedMap<V>, i: nat)
    requires m.Valid() && i < |m.keys|
    ensures m.Delete(m.keys[i]).Values() == m.Values()[..i] + m.Values()[i + 1..]
  {
    var vs, ws := m.Values(), m.Delete(m.keys[i]).Values();
    forall j | 0 <= j < |ws|
      ensures ws[j] == (vs[..i] + vs[i + 1..])[j]
    {
      DeleteValueAt(m, i, j);
      CutIndex(vs, i, j);
    }
  }

  /** Deleting a present key removes its value and keeps the others in order. */
  lemma ValuesAfterDelete<V>(m: OrderedMap<V>, k: string)
    requires m.Valid() && k in m.entries
    ensures IndexOf(m.keys, k) < |m.Values()|
    ensures m.Delete(k).Values()
            == m.Values()[..IndexOf(m.keys, k)] + m.Values()[IndexOf(m.keys, k) + 1..]
  {
    DeleteValuesAt(m, IndexOf(m.keys, k));
  }
}
