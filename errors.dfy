/** Go error values as the core produces and inspects them.

    A Go function returning `(T, error)` is modelled as a `Result<T>`: `Err(e)`
    stands for "the zero value of T (nil, "") together with the error e". */
module Errors {

  datatype Option<+T> = None | Some(value: T)

  datatype Result<+T> = Ok(value: T) | Err(error: Error)

  /** The error values that flow through the core. */
  datatype Error =
    | ErrConn                               // mongodb.ErrConn, "failed to connect to db"
    | ErrPing                               // mongodb.ErrPing, "failed to ping db"
    | DeadlineExceeded                      // context.DeadlineExceeded
    | InvalidHex                            // a string that primitive.ObjectIDFromHex rejects
    | Message(text: string)                 // errors.New / errors.Errorf
    | Wrapped(text: string, cause: Error)   // errors.Wrap(cause, text)
    | RetryableMark(cause: Error)           // retry.RetryableError(cause)
    | External(code: nat)                   // an error of a collaborator that is not modelled

  /** `errors.Is(err, target)`: target is err itself or is found by unwrapping. */
  predicate Is(err: Error, target: Error)
  {
    err == target
    || (err.Wrapped? && Is(err.cause, target))
    || (err.RetryableMark? && Is(err.cause, target))
  }

  /** `errors.As(err, &retryableError)`: the chain holds a retry marker. */
  predicate IsMarkedRetryable(err: Error)
  {
    err.RetryableMark? || (err.Wrapped? && IsMarkedRetryable(err.cause))
  }

  /** Wrapping keeps every error the cause matches, and adds only the
      wrapper itself. */
  lemma WrapPreservesIs(text: string, cause: Error, target: Error)
    requires target != Wrapped(text, cause)
    ensures Is(Wrapped(text, cause), target) <==> Is(cause, target)
  {
  }
}
