// Vocabulary shared by every table and every transaction of the takeover game.
module Base {

  datatype Option<+T> = None | Some(value: T)

  type BoardId = nat
  type BidId = nat
  type UserId = nat
  type EntityId = nat
  type CompetitionId = nat

  /** Microseconds of local wall-clock time since the day before 1 January of year 1. */
  type Time = nat

  const SECOND: nat := 1_000_000
  const MINUTE: nat := 60 * SECOND
  const HOUR: nat := 60 * MINUTE
  const DAY: nat := 24 * HOUR

  /** Why a transaction was rolled back. `ConstraintViolated` stands for every database integrity error. */
  datatype Refusal =
    | ConstraintViolated
    | MissingRow
    | BiddingPaused
    | UnknownEntity
    | NotWholeDollars
    | BidTooLow(required: nat)
    | AccountRefused
    | AgeNotConfirmed
    | ConfirmationRequired
    | RiskRefused
    | ApprovalRequired
    | CheckoutUnavailable
    | QueueUnavailable
    | ReasonRequired
    | ReleaseFailed(bid: BidId)

  /** The outcome of an atomic transaction: a value to commit, or a refusal that rolls everything back. */
  datatype Tx<+T> = Commit(value: T) | Abort(error: Refusal) {
    predicate IsFailure() {
      Abort?
    }

    function PropagateFailure<U>(): Tx<U>
      requires Abort?
    {
      Abort(error)
    }

    function Extract(): T
      requires Commit?
    {
      value
    }
  }
}
