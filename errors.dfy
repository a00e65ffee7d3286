/** Errors of the client and the result type every fallible operation returns. */
module Errors {

  /** Stands in for a transport error raised by the HTTP layer; only its text is kept. */
  datatype TransportError = TransportError(message: string)

  /** The four error kinds the crate reports. */
  datatype CurrencyapiError =
    | ClientConstruction(source: TransportError)
    | UrlConstruction
    | RequestError(source: TransportError)
    | ResponseParsingError(body: string)

  /** Success or one of the crate's errors; usable with `:-`. */
  datatype Result<+T> = Ok(value: T) | Err(error: CurrencyapiError) {

    predicate IsFailure() {
      Err?
    }

    function PropagateFailure<U>(): Result<U>
      requires Err?
    {
      Err(error)
    }

    function Extract(): T
      requires Ok?
    {
      value
    }
  }

  datatype Option<+T> = None | Some(value: T)
}
