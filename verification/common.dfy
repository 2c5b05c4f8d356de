/** Values shared by every controller: optional request fields, record ids and HTTP replies. */
module Common {

  /** A request field or a nullable column: `None` stands for absent, `null` or `undefined`. */
  datatype Option<T> = None | Some(value: T) {
    /** JavaScript's `x ?? d`. */
    function GetOr(d: T): T {
      if Some? then value else d
    }
  }

  /** Primary keys, user ids and external (Stripe) identifiers are strings. */
  type Id = string

  /** What a handler sends back: a success status with its payload, or an error status. */
  datatype Reply<T> = Success(status: int, data: T) | Failure(status: int)

  /**
   * JavaScript truthiness of an optional string field: a missing field and the empty
   * string are both falsy (`if (!orderId) ...`, `x || null`).
   */
  function Present(s: Option<string>): (r: Option<string>)
    ensures r.Some? <==> s.Some? && s.value != ""
    ensures r.Some? ==> r == s
  {
    if s.Some? && s.value != "" then s else None
  }

  /** `String.prototype.toUpperCase` restricted to ASCII letters. */
  function UpperChar(c: char): (u: char)
    ensures 'a' <= c <= 'z' ==> 'A' <= u <= 'Z' && u as int - 'A' as int == c as int - 'a' as int
    ensures !('a' <= c <= 'z') ==> u == c
  {
    if 'a' <= c <= 'z' then (c as int - 'a' as int + 'A' as int) as char else c
  }

  function ToUpper(s: string): (r: string)
    ensures |r| == |s|
    ensures forall i :: 0 <= i < |s| ==> r[i] == UpperChar(s[i])
  {
    if s == [] then [] else [UpperChar(s[0])] + ToUpper(s[1..])
  }
}
