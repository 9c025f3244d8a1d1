/** Shared helper types. */
module Prelude {
  datatype Option<+T> = None | Some(value: T) {
    function GetOr(default: T): T {
      match this
      case Some(v) => v
      case None => default
    }
  }

  /** A Redis value with its expiry instant. */
  datatype Expiring<T> = Expiring(value: T, expires: int)

  function Min(a: int, b: int): int {
    if a <= b then a else b
  }

  lemma {:induction false} Assoc<T>(a: seq<T>, b: seq<T>, c: seq<T>)
    ensures a + b + c == a + (b + c)
  {
  }
}
