/** The JavaScript values the form code branches on: strings that may be
    null or undefined, thrown values, and the settlement of a promise. */
module JsValues {

  /** A value that may be missing (`null` or `undefined`). */
  datatype Option<+T> = None | Some(value: T)

  /** JavaScript truthiness of a string that may be missing: only a
      non-empty string is truthy. */
  predicate Truthy(s: Option<string>)
  {
    s.Some? && s.value != ""
  }

  /** The expression `s || fallback` for a string that may be missing. */
  function OrElse(s: Option<string>, fallback: string): string
  {
    if Truthy(s) then s.value else fallback
  }

  /** A string's `.length`: the number of UTF-16 code units, one for a
      character of the Basic Multilingual Plane and two (a surrogate pair)
      for any character above it. */
  function Utf16Length(s: string): (r: nat)
    ensures |s| <= r <= 2 * |s|
    ensures r == |s| <==> forall i :: 0 <= i < |s| ==> s[i] < '\U{10000}'
  {
    if s == [] then 0
    else
      assert forall i :: 1 <= i < |s| ==> s[1..][i - 1] == s[i];
      (if s[0] < '\U{10000}' then 1 else 2) + Utf16Length(s[1..])
  }

  /** A thrown value: an `Error` instance carrying its message, or anything else. */
  datatype Thrown = ErrorObject(message: string) | OtherValue

  /** How an `async` function's promise settles. */
  datatype Settled<+T> = Resolved(value: T) | Rejected(reason: Thrown)
}
