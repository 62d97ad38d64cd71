/** Tables written out row by row. */
module Listings {
  datatype Entry<K, V> = Entry(key: K, value: V)

  /** `es` lists the entries of `m`, once each, in some order. */
  ghost predicate OrderOf<K, V>(es: seq<Entry<K, V>>, m: map<K, V>) {
    && (forall i :: 0 <= i < |es| ==> es[i].key in m && m[es[i].key] == es[i].value)
    && (forall i, j :: 0 <= i < j < |es| ==> es[i].key != es[j].key)
    && (forall k :: k in m ==> exists i :: 0 <= i < |es| && es[i].key == k)
  }
}
