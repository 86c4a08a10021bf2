/** Shared wrappers: optional values and the HTTP errors the handlers raise. */
module Base {

  /** Python's `None` or a present value. */
  datatype Option<+T> = None | Some(value: T)

  /** An `HTTPException(status_code, detail)` raised by a handler or a dependency. */
  datatype HttpError = HttpError(status: int, detail: string)

  /** The outcome of a request step: a value, or the HTTP error it raised. */
  datatype Result<+T> = Ok(value: T) | Err(error: HttpError)

  function Min(a: int, b: int): int { if a <= b then a else b }
}
