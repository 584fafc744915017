/** Optional values and the outcome of a Python call that may raise. */
module Wrappers {

  datatype Option<+T> = None | Some(value: T) {
    function GetOr(default: T): T {
      match this
      case Some(v) => v
      case None => default
    }
  }

  /** A raised Python exception: `asyncio.TimeoutError`, or any other exception
      with its class name and its `str(exc)` text. */
  datatype Exc = Timeout | Error(kind: string, message: string)

  /** What a Python call does: returns a value, or raises. */
  datatype Outcome<+T> = Ok(value: T) | Raise(exc: Exc)

  /** The unit value, for calls that return nothing. */
  datatype Unit = Unit

  /** `prefix` followed by the items an outcome holds, or its exception. */
  function After<T>(prefix: seq<T>, x: Outcome<seq<T>>): (r: Outcome<seq<T>>)
    ensures r.Raise? <==> x.Raise?
    ensures x.Ok? ==> |r.value| == |prefix| + |x.value| && r.value[..|prefix|] == prefix && r.value[|prefix|..] == x.value
  {
    match x
    case Raise(e) => Raise(e)
    case Ok(more) => Ok(prefix + more)
  }

  lemma AfterEmpty<T>(x: Outcome<seq<T>>)
    ensures After([], x) == x
  {
    if x.Ok? {
      assert [] + x.value == x.value;
    }
  }
}
