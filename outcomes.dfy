/**
 * Failure handling of the assembler.  Every `ERROR(...); exit(1)` of the
 * original (and every uncaught library exception) becomes a `Failure`
 * carrying the reason; nothing is recovered from.
 */
module Outcomes {

  datatype Option<+T> = None | Some(value: T)

  /** Why a run stopped; kinds are named as Token.h prints them. */
  datatype Error =
    | OutOfRange(last: string)                // no token follows the cursor; names the kind at it
    | Expected(wanted: string, got: string)   // a cursor helper met the wrong token kind
    | Unexpected(wanted: string, got: string) // Token.h's ExpectToken met the named kind
    | InvalidRegister(name: string)           // text that names no register
    | InvalidValue                            // a numeric operand that is not a number token
    | InvalidDestination(mnemonic: string)    // a destination that is not a register token
    | InvalidLabel                            // a jump target found in no label entry
    | InvalidArgument                         // the hex parser found no digit
    | NumberOutOfRange                        // the hex parser overflowed an unsigned long

  datatype Result<+T> = Success(value: T) | Failure(error: Error) {
    predicate IsFailure() { Failure? }

    function PropagateFailure<U>(): Result<U>
      requires Failure?
    {
      Failure(error)
    }

    function Extract(): T
      requires Success?
    {
      value
    }
  }
}
