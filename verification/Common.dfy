/** Small shared types. */
module Common {
  datatype Option<+T> = None | Some(value: T)

  /** Instants and durations are nanoseconds, as in Go's time package. */
  type Time = int

  /** The error values the modelled code distinguishes. */
  datatype Error =
    | ErrNotFound
    | ErrConflict
    | ErrLostClaim
    | ErrTransport(message: string)

  /** A failing database or Redis call, as opposed to an answer of the modelled code. */
  predicate Faulted(err: Option<Error>) {
    err.Some? && err.value.ErrTransport?
  }

  function FaultCount(err: Option<Error>): nat {
    if Faulted(err) then 1 else 0
  }
}
