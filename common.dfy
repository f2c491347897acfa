/** Value wrappers shared by every module of the model. */
module Common {

  /** An optional value; `None` also stands for JavaScript's `undefined`. */
  datatype Option<+T> = None | Some(value: T)

  /** A computation that either yields a value or fails with an error. */
  datatype Result<+T, +E> = Ok(value: T) | Err(error: E)

  /** The constructor of a thrown JavaScript error object. */
  datatype ErrorName = TypeError | SyntaxError | PlainError

  /** A thrown JavaScript error: its `name` and its `message`. */
  datatype JsError = JsError(name: ErrorName, message: string)

  /** `new Error(message)`. */
  function Error(message: string): JsError
  {
    JsError(PlainError, message)
  }
}
