/** Walking the keys of a hash-based collection, whose visiting order is left open. */
module Iteration {

  /** `order` lists every element of `keys` exactly once. */
  ghost predicate Enumerates<K(!new)>(order: seq<K>, keys: set<K>)
  {
    && (forall k :: k in order <==> k in keys)
    && (forall i, j :: 0 <= i < j < |order| ==> order[i] != order[j])
  }
}
