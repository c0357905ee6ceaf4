/** Value types shared by the push-notification components: optional JSON
    fields, request bodies as the route handlers receive them, and
    JavaScript's `||` fallback applied to a string field. */
module Basics {

  /** A JSON field that may be missing; `None` stands for `undefined` and `null`. */
  datatype Option<+T> = None | Some(value: T)

  /** The outcome of `await req.json()` followed by destructuring: a body, or
      the message of the error that was thrown. */
  datatype Incoming<+T> = Parsed(body: T) | Unparseable(message: string)

  /** JavaScript truthiness of an optional string: present and not "". */
  predicate Truthy(s: Option<string>) {
    s.Some? && s.value != ""
  }

  /** `s || fallback` for an optional string. */
  function OrElse(s: Option<string>, fallback: string): string {
    if Truthy(s) then s.value else fallback
  }
}
