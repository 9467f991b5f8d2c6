/** The few JavaScript value notions the editor's code relies on: optional values
    (`undefined`/`null`), thrown values, truthiness of strings and `String(x)`. */
module Js {

  /** An optional value: `None` stands for `undefined` or `null`. */
  datatype Option<+T> = None | Some(value: T)

  /** The result of a call that either returns or throws. */
  datatype Result<+T, +E> = Success(value: T) | Failure(error: E)

  /** A value passed to `throw`. Only `ErrorObject` passes `instanceof Error`;
      `Record` is a plain object literal with a message and an optional code
      (the shape of a GeminiError); `StringValue` is a thrown string. */
  datatype Thrown =
    | ErrorObject(message: string)
    | Record(message: string, code: Option<string>)
    | StringValue(text: string)

  /** JavaScript truthiness of a `string | undefined | null`: only a present,
      non-empty string is truthy. */
  predicate Truthy(s: Option<string>) {
    s.Some? && s.value != ""
  }

  /** `s || fallback` for an optional string. */
  function OrElse(s: Option<string>, fallback: string): string {
    if Truthy(s) then s.value else fallback
  }

  /** `String(t)` (also what a template literal `${t}` produces): an Error renders
      as its name followed by ": " and its message, or as the bare name when the
      message is empty; a plain object as "[object Object]"; a string as itself. */
  function Stringify(t: Thrown): string {
    match t
    case ErrorObject(m) => if m == "" then "Error" else "Error: " + m
    case Record(_, _) => "[object Object]"
    case StringValue(s) => s
  }
}
