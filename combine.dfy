/** Value types of the reactive-streams protocol that the tracking helpers and the
    map operator exchange: demand, completion, and the errors the tests use. */
module Combine {

  datatype Option<+T> = None | Some(value: T)

  /** `Subscribers.Demand`: how many more values a subscriber accepts. */
  datatype Demand = Unlimited | Max(n: nat)

  /** `Subscribers.Demand.none`, the demand of a subscriber that wants nothing more. */
  const NoDemand: Demand := Max(0)

  /** A call made on a `Subscription`: `request(_:)` with a demand, or `cancel()`. */
  datatype SubscriptionCall = Requested(demand: Demand) | Canceled

  /** `Subscribers.Completion<Failure>`: the terminal signal of a stream. */
  datatype Completion<+E> = Finished | Failure(error: E)

  /** The test suite's own error type, in the two forms the tests build:
      the case `oops` and a value written as a string literal ("too much"). */
  datatype TestingError = Oops | Described(message: string)

  /** A value of Swift's existential `Error` type: either a `TestingError` or an
      error of some other type, told apart from others of that type by `code`. */
  datatype AnyError = Testing(testing: TestingError) | Foreign(code: int)

  /** The dynamic cast `error as? TestingError`. */
  function AsTestingError(e: AnyError): Option<TestingError>
  {
    match e
    case Testing(t) => Some(t)
    case Foreign(_) => None
  }
}
