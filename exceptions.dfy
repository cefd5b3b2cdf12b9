/**
 * The exceptions that cross the validator: the request layer's own error and the bundle's
 * `CloudflareTurnstileException` family.
 */
module Exceptions {
  import opened Wrappers

  /** A request-level error (`RequestExceptionInterface`), e.g. a field the input bag refuses to read as a scalar. */
  datatype RequestError = RequestError(message: string)

  /**
   * A `CloudflareTurnstileException`. `InvalidResponse` is the invalid-response subclass and may carry
   * the request error it wraps as its previous exception; `ApiFailure` is the API subclass; `Generic`
   * is an instance of the base class itself.
   */
  datatype Failure =
    | InvalidResponse(message: string, previous: Option<RequestError>)
    | ApiFailure(message: string)
    | Generic(message: string)

  /** What `validate` can let escape: the framework's `UnexpectedTypeException`, or a re-raised bundle failure. */
  datatype Raised =
    | UnexpectedType(expectedType: string)
    | Turnstile(failure: Failure)
}
