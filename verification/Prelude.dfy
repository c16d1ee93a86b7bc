/** Small datatypes and set facts shared by the other modules. */
module Prelude {

  datatype Option<+T> = None | Some(value: T)

  datatype Result<+T, +E> = Ok(value: T) | Err(error: E)

  function GetOr<K, V>(m: map<K, V>, k: K, default: V): V {
    if k in m then m[k] else default
  }

  lemma SubsetCard<T>(a: set<T>, b: set<T>)
    requires a <= b
    ensures |a| <= |b|
  {
    assert b == a + (b - a);
  }

  lemma RemoveCard<T>(a: set<T>, x: T)
    requires x in a
    ensures |a - {x}| == |a| - 1
  {}
}
