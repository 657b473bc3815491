/**
 * JavaScript's `Map`: a finite map that also remembers the order in which
 * its keys were first inserted. `set` on a key already present replaces the
 * value and keeps the key where it was; `entries()` walks keys in that order.
 */
module OrderedMaps {

  datatype OrderedMap<K(==,!new), V> = OrderedMap(keys: seq<K>, values: map<K, V>) {

    /** The key order lists every key of the map exactly once. */
    ghost predicate Valid() {
      && (forall k :: k in values <==> k in keys)
      && (forall i, j :: 0 <= i < j < |keys| ==> keys[i] != keys[j])
    }

    /** `map.get(k) ?? default`. */
    function GetOr(k: K, default: V): V {
      if k in values then values[k] else default
    }

    /** `map.set(k, v)`. */
    function Set(k: K, v: V): (m: OrderedMap<K, V>)
      requires Valid()
      ensures m.Valid()
      ensures m.values == values[k := v]
      ensures m.keys == if k in values then keys else keys + [k]
    {
      OrderedMap(if k in values then keys else keys + [k], values[k := v])
    }

    /** `[...map.entries()]`. */
    function Entries(): (es: seq<(K, V)>)
      requires Valid()
      ensures |es| == |keys|
      ensures forall i :: 0 <= i < |es| ==> es[i] == (keys[i], values[keys[i]])
    {
      seq(|keys|, i requires 0 <= i < |keys| => (keys[i], values[keys[i]]))
    }
  }

  /**
   * The entries list the map itself: a pair is an entry exactly when its key
   * maps to its value, and no key is listed twice.
   */
  lemma EntriesListTheMap<K(!new), V>(m: OrderedMap<K, V>)
    requires m.Valid()
    ensures forall k, v :: (k, v) in m.Entries() <==> k in m.values && m.values[k] == v
    ensures forall i, j :: 0 <= i < j < |m.Entries()| ==> m.Entries()[i].0 != m.Entries()[j].0
  {
    var es := m.Entries();
    forall k, v ensures (k, v) in es <==> k in m.values && m.values[k] == v {
      if k in m.values && m.values[k] == v {
        var i :| 0 <= i < |m.keys| && m.keys[i] == k;
        assert es[i] == (k, v);
      }
    }
  }

  /** `new Map()`. */
  function Empty<K(==,!new), V>(): (m: OrderedMap<K, V>)
    ensures m.Valid() && m.keys == [] && m.values == map[]
  {
    OrderedMap([], map[])
  }
}
