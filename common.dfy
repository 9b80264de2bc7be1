/** Values that may be absent: a `find` that matched nothing, a storage key
    that was never written, a numeric field missing from a stored record. */
module Common {

  datatype Option<T> = None | Some(value: T) {

    /** `x || fallback` for a present-or-absent value. */
    function GetOr(fallback: T): T {
      if Some? then value else fallback
    }
  }

  function Min(a: int, b: int): int { if a <= b then a else b }

  function Max(a: int, b: int): int { if a >= b then a else b }
}
