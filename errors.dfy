/** Values shared by the modules: the JavaScript errors the seeder throws or
    re-throws, the outcome of an operation that may throw, and an optional
    value. */
module Errors {

  /** The class of a thrown JavaScript error, as far as the seeder tells
      classes apart: `readFile` only asks whether an error is a `SyntaxError`. */
  datatype ErrorKind =
    | PlainError            // `new Error(...)`
    | SyntaxError           // what `JSON.parse` throws on malformed text
    | OtherError(name: string)  // any other class (a file-system error, a driver error)

  datatype JsError = JsError(kind: ErrorKind, message: string)

  /** An operation either returns a value or throws an error. */
  datatype Outcome<T> = Ok(value: T) | Fail(error: JsError)

  datatype Option<T> = None | Some(value: T)
}
