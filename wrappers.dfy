/** Optional values: a toolchain query that may find nothing, a link call that may not be made. */
module Wrappers {

  datatype Option<+T> = None | Some(value: T)

  /** The zero- or one-element sequence holding the value of `o`, if any. */
  function OptionToSeq<T>(o: Option<T>): (r: seq<T>)
    ensures |r| == (if o.Some? then 1 else 0)
    ensures o.Some? ==> r[0] == o.value
  {
    match o
    case None => []
    case Some(v) => [v]
  }
}
