/** JavaScript values the client relies on: nullable values, the truthiness of
    strings, the `a || b` default idiom and JSON values with their text codec. */
module Js {

  /** A value that may be `null` or `undefined`. */
  datatype Option<+T> = None | Some(value: T)

  /** `!!s` for a string that may be missing: the empty string and null are falsy. */
  predicate Truthy(s: Option<string>) {
    s.Some? && s.value != ""
  }

  /** `a || fallback` where `a` is a string that may be missing. */
  function OrElse(a: Option<string>, fallback: string): string {
    if Truthy(a) then a.value else fallback
  }

  /** A JSON value as the server sends it (numbers are restricted to integers).
      `Null` is both JSON's and JavaScript's `null`. An object maps each member
      name to one value, as the object `JSON.parse` builds does (a repeated name
      keeps its last value), so member order is not part of the value. */
  datatype Json =
    | Null
    | Bool(b: bool)
    | Number(n: int)
    | Str(s: string)
    | Array(items: seq<Json>)
    | Object(members: map<string, Json>)

  /** `JSON.stringify` and `JSON.parse`; `parse` yields `None` where `JSON.parse` throws. */
  datatype Codec = Codec(stringify: Json -> string, parse: string -> Option<Json>)

  /** What the client assumes of the browser's JSON: the text of a value is never
      empty and parses back to the same value. */
  ghost predicate RoundTrips(c: Codec) {
    forall v :: c.stringify(v) != "" && c.parse(c.stringify(v)) == Some(v)
  }
}
