/** Shapes of the JavaScript values the session layer handles: absent values,
    settled promises and thrown exceptions. */
module JsValues {

  /** A value that may be `null`/`undefined`. */
  datatype Option<+T> = None | Some(value: T)

  /** How an awaited call that yields nothing settles: it resolves, or it rejects
      with the value it throws. */
  datatype Outcome<+E> = Pass | Fail(error: E)

  /** How an awaited call that yields a value settles. */
  datatype Result<+T, +E> = Ok(value: T) | Err(error: E)

  /** A value caught by a `catch` clause. Every rejection of the identity
      provider and of the document store is an `ErrorObject` (an instance of
      `Error`, whose `message` is always a string); anything else that is thrown
      may or may not carry a string `message`. */
  datatype Thrown =
    | ErrorObject(message: string)
    | OtherValue(messageProperty: Option<string>)

  /** The string an optional string stands for in a `||` chain: an absent
      value is as falsy as the empty string. */
  function OrEmpty(o: Option<string>): string
  {
    match o
    case Some(s) => s
    case None => ""
  }
}
