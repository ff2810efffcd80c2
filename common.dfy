/** Shared vocabulary: optional values, validation outcomes, how a call of an
    async service settles, and the error kinds the services raise. */
module Common {

  datatype Option<+T> = None | Some(value: T) {
    function GetOr(default: T): T {
      match this
      case Some(v) => v
      case None => default
    }
  }

  /** The result of a synchronous check: it passes or throws one error. */
  datatype Outcome<+E> = Pass | Fail(error: E)

  /** How a call to a service that validates synchronously and then runs an
      async body ends: it throws before returning a promise, or the promise
      rejects, or the promise resolves with a value. */
  datatype Settled<+T> = Threw(thrown: Error) | Rejected(reason: Error) | Resolved(value: T) {
    predicate Failed() { !Resolved? }
  }

  /** The error classes of the shared error module, each with its message,
      and the language's own `Error` and `TypeError`. */
  datatype Error =
    | InvalidArgumentError(message: string)
    | CredentialError(message: string)
    | NotFoundError(message: string)
    | SystemError(message: string)
    | ContentError(message: string)
    | MatchError(message: string)
    | DuplicityError(message: string)
    | PlainError(message: string)
    | TypeError(message: string)
}
