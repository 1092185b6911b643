/** Values shared by every part of the model: optional values, results, and the
    Python exceptions that the raster code raises. */
module Common {

  datatype Option<T> = None | Some(value: T)

  /** The outcome of an operation that produces a value or raises. */
  datatype Result<T> = Success(value: T) | Failure(error: Error)

  /** The outcome of an operation that only changes state or raises. */
  datatype Outcome = Pass | Fail(error: Error)

  /** The exceptions raised by the modelled code, with the messages it gives. */
  datatype Error =
    | ValueError(message: string)
    | RuntimeError(message: string)
    | AttributeError(name: string)
    | ZeroDivisionError
    | AssertionError
    | IndexError
    | KeyError(key: string)
}
