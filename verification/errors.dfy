/**
 * Failure-compatible wrappers and the calculator's error kinds.
 *
 * The calculator signals every failure by throwing a runtime error whose
 * message names what went wrong; here each distinct throw site becomes one
 * constructor of `Error`, and a throwing operation returns a `Result` or an
 * `Outcome` instead.
 */
module Errors {

  /** Every way an evaluation can fail. */
  datatype Error =
    | StackEmpty                            // pop or peek on an empty stack
    | Underflow(op: string, required: nat)  // an operator found fewer operands than it needs
    | DivisionByZero                        // `/` with a zero divisor
    | NegativeSquareRoot                    // `sqrt` of a negative value
    | TangentUndefined                      // `tan` where the cosine of the angle is zero
    | FibonacciArgument                     // `fib` of a negative or non-integral value
    | NegativeFibonacci                     // the Fibonacci routine called with n < 0
    | PascalArguments                       // `pascal` with a non-integral row or column
    | PascalOutOfRange                      // the Pascal routine called outside 0 <= col <= row
    | UnknownOperator(op: string)           // dispatch reached an operator it does not know
    | InvalidToken(token: string)           // a token that is neither a number nor an operator
    | MalformedNumber(token: string)        // a number-shaped token the numeric conversion rejects
    | IncompleteExpression                  // the expression did not leave exactly one value

  datatype Option<+T> = None | Some(value: T)

  /** A value or the error that prevented it. */
  datatype Result<+T> = Ok(value: T) | Err(error: Error)

  /** Success or failure of an operation that produces no value. */
  datatype Outcome = Pass | Fail(error: Error)
}
