/** Optional values: the model's stand-in for JavaScript's null and undefined. */
module Wrappers {

  datatype Option<+T> = None | Some(value: T)

  /** Reading index `i` of a host array whose entries may be null: an index past
      the end reads `undefined`, which the source treats like null. */
  function At<T>(s: seq<Option<T>>, i: nat): (r: Option<T>)
  {
    if i < |s| then s[i] else None
  }
}
