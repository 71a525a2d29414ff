/** Shared vocabulary: optional values, the payloads a workflow passes around, and how a child run ends. */
module Common {
  datatype Option<+T> = None | Some(value: T)

  /** Any serializable payload: a step's output, an event's value, a child's result. */
  type Value(==, 00, !new)

  /** What a failed step or child makes its caller throw. */
  datatype Failure = Failure(message: string, code: Option<string>, details: Option<Value>)

  datatype Completion = Ok(value: Value) | Err(failure: Failure)

  /** A child run's row: in flight, or terminal with the outcome it will always have. */
  datatype Row = InFlight | Terminal(outcome: Completion)

  /** The completion a child's own notification carries (`failedCompletion`). */
  function Notified(o: Completion): Completion { o }

  /** The completion its parent re-derives from the run row: code and details are not copied. */
  function FromRow(o: Completion): Completion {
    match o
    case Ok(_) => o
    case Err(f) => Err(Failure(f.message, None, None))
  }
}
