/** Small value types shared by the cart engine and the product catalogue. */
module Common {

  /** A value that may be absent: JavaScript's `null`/`undefined` next to a real value. */
  datatype Option<T> = None | Some(value: T) {
    function GetOr(default: T): T {
      if Some? then value else default
    }
  }

  /** `s || null` for a string: a missing value and the empty string both count as absent. */
  function NonEmpty(s: Option<string>): (r: Option<string>)
    ensures r.Some? <==> s.Some? && s.value != ""
    ensures r.Some? ==> r == s
  {
    if s.Some? && s.value != "" then s else None
  }

  /** The `{ success, message }` object every mutating operation of the shop returns. */
  datatype Response = Response(success: bool, message: string)
}
