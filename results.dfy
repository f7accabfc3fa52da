/** Outcomes of calls into the backend, as the storefront's client code sees them. */
module Results {

  /** An optional value: a key absent from localStorage, a missing JSON field, a null user. */
  datatype Option<T> = None | Some(value: T)

  /** What a rejected promise carries. */
  datatype Error =
    | NoResponse                                  // transport failure: the error has no `response`
    | Status(code: int, message: Option<string>)  // an HTTP error response: its status and `data.message`
    | Message(text: string)                       // an `Error` raised by the client code itself

  /** A settled promise: resolved with a value or rejected with an error. */
  datatype Result<T> = Ok(value: T) | Err(error: Error)
}
