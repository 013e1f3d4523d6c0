/** Errors raised by the server pool and the failure-compatible wrappers that carry them. */
module Results {

  /** Why an `LDAPServerPoolError` was raised; each reason is one kind of raise. */
  datatype PoolErrorReason =
    | ExhaustWithoutActive     // construction with exhaust and not active
    | NoServers                // get_server on an empty server list
    | ElementNotServer         // add of a sequence holding a non-Server, non-string element
    | NotServerOrList          // add of a value that is neither Server, string nor sequence
    | ServerNotInPool          // remove of a server that is not in the pool
    | ConnectionNotRegistered  // get_server / get_current_server before initialize

  datatype Error =
    | UnknownStrategy                   // LDAPUnknownStrategyError
    | ServerPoolError(reason: PoolErrorReason)  // LDAPServerPoolError
    | PoolExhausted                     // LDAPServerPoolExhaustedError
    | ValueError                        // random.randint(a, b) with a > b
    | IndexError                        // list subscript out of range
    | Blocked                           // a non-exhausting scan is still retrying when its fuel runs out

  datatype Option<T> = None | Some(value: T)

  datatype Result<T> = Ok(value: T) | Err(error: Error) {
    predicate IsFailure() { Err? }

    function PropagateFailure<U>(): Result<U>
      requires Err?
    {
      Err(error)
    }

    function Extract(): T
      requires Ok?
    {
      value
    }
  }

  /** The result of an operation that returns nothing: it passed, or raised `error`. */
  datatype Outcome = Pass | Fail(error: Error)
}
