/** Failure-compatible results shared by the model. */
module Wrappers {

  datatype Option<+T> = None | Some(value: T)

  /** Why a request is refused. `Conflict` carries which rule refused it; the other
      constructors are the remaining error categories of the service. */
  datatype Error =
    | Invalid
    | Internal
    | NotFound
    | Forbidden
    | Unauthorized
    | Conflict(refusal: Refusal)

  datatype Refusal =
    | MarketClosed
    | CreatorTrades
    | QuoteExpired
    | PriceChanged
    | QuoteChanged
    | LimitExceeded
    | InsufficientUnits
    | NotEnoughShares
    | ReserveCoverage
    | KeyReused
    | Busy
    | BudgetExhausted
    | InstanceExists
    | AlreadyFinal
    | NotClosed
    | WindowOpen
    | DeadlinePassed
    | AlreadyResolved
    | EventReused
    | RevisionExists
    | NotOpen

  datatype Result<+T> = Ok(value: T) | Err(error: Error) {

    predicate IsFailure() {
      Err?
    }

    function PropagateFailure<U>(): Result<U>
      requires Err?
    {
      Err(error)
    }

    function Extract(): T
      requires Ok?
    {
      value
    }
  }

  function Need(condition: bool, error: Error): Result<()> {
    if condition then Ok(()) else Err(error)
  }
}
