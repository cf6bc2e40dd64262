/** Small value types shared by the three component models. */
module Wrappers {

  /** A value that may be absent (JavaScript `undefined`/`null`). */
  datatype Option<+T> = None | Some(value: T)

  /** How an awaited promise settled: with a value, or by rejecting (a thrown error). */
  datatype Settled<+V> = Fulfilled(value: V) | Rejected

  /** The list of requests a step hands to the environment (zero or one). */
  function AsList<T>(o: Option<T>): (r: seq<T>)
    ensures |r| <= 1
    ensures o.Some? <==> |r| == 1
    ensures o.Some? ==> r[0] == o.value
  {
    match o
    case None => []
    case Some(x) => [x]
  }
}
