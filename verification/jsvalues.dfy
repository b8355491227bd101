/** The few JavaScript value conventions the client code relies on:
    optional strings (`string | null`, `string | undefined`), truthiness of a
    string, and the `a || b` defaulting idiom. */
module JsValues {

  /** A value that may be absent (`null` or `undefined` in the source). */
  datatype Option<+T> = None | Some(value: T)

  /** A string is truthy when it is present and non-empty: `null`,
      `undefined` and `''` are the falsy strings. */
  predicate Truthy(s: Option<string>) {
    s.Some? && s.value != ""
  }

  /** `s || fallback` for an optional string. */
  function OrElse(s: Option<string>, fallback: string): (r: string)
    ensures Truthy(s) ==> r == s.value
    ensures !Truthy(s) ==> r == fallback
    ensures fallback != "" ==> r != ""
  {
    if Truthy(s) then s.value else fallback
  }
}
