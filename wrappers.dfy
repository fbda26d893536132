/** A value that may be absent: a JavaScript `undefined`, a size left out, a click that opens nothing. */
module Wrappers {

  datatype Option<+T> = None | Some(value: T)

  /** The list of values an optional value contributes to a log. */
  function ToSeq<T>(o: Option<T>): (s: seq<T>)
    ensures |s| <= 1
    ensures o.Some? ==> s == [o.value]
    ensures o.None? <==> s == []
  {
    if o.Some? then [o.value] else []
  }
}
