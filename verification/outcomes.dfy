/**
 * Outcomes of the calculator's operations. The program reports every error by
 * printing a message and terminating the process; here each such error is an
 * `Error` value carried by a `Result` or an `Outcome`, so that a caller sees
 * the failure instead of a process exit.
 */
module Outcomes {

  datatype Option<+T> = None | Some(value: T)

  /** Every fatal condition the program can raise, one per message it prints. */
  datatype Error =
    | InvalidOperationName
    | InvalidOperationSymbol
    | DivideByZero
    | ZeroToThePowerOfZero
    | NegativeRootOfNegative
    | FractionalRootOfNegative
    | InvalidOperator
    | InvalidCalculatorName
    | ZeroCapacity
    | CapacityExceeded

  /** The text the program writes to the error stream before terminating. */
  function Message(e: Error): (m: string)
    ensures m != []
  {
    match e
    case InvalidOperationName => "Invalid operation name!"
    case InvalidOperationSymbol => "Invalid operation symbol!"
    case DivideByZero => "Cannot divide by zero!"
    case ZeroToThePowerOfZero => "Cannot raise 0 to the power of 0!"
    case NegativeRootOfNegative => "Cannot take negative root of negative number!"
    case FractionalRootOfNegative => "Cannot take fractional root of negative number"
    case InvalidOperator => "Invalid operator!"
    case InvalidCalculatorName => "Invalid calculator name!"
    case ZeroCapacity => "Capacity for operations cannot be zero!"
    case CapacityExceeded => "Capacity for operations exceeded!"
  }

  /** No two errors print the same text, so the message tells which guard fired. */
  lemma MessagesDistinct(e1: Error, e2: Error)
    ensures e1 != e2 ==> Message(e1) != Message(e2)
  {
  }

  /** A computation that either yields a value or stops with a fatal error. */
  datatype Result<+T> = Success(value: T) | Failure(error: Error)

  /** A command that either completes or stops with a fatal error. */
  datatype Outcome = Pass | Fail(error: Error)
}
