/** Option and Result for the decoders. Every failure the core can raise is one
    `Error`; a `Result` is either the decoded value or the first error met,
    which is what a thrown exception amounts to in a pure decoder. */
module Wrappers {

  datatype Option<+T> = None | Some(value: T) {
    /** `x ?? d`: the value when present, `d` otherwise. */
    function GetOr(default: T): T {
      match this
      case Some(v) => v
      case None => default
    }
  }

  /** What the decoders and dispatchers throw. */
  datatype Error =
    | MalformedNumber(text: string)    // `BigInt(text)` rejects its argument
    | MalformedHex(text: string)       // `hexToBytes(text)` rejects its argument
    | UnknownEventType(text: string)   // the `Unknown event type: ...` error

  datatype Result<+T> = Ok(value: T) | Err(error: Error) {
    predicate IsFailure() {
      Err?
    }

    function PropagateFailure<U>(): Result<U>
      requires Err?
    {
      Err(error)
    }

    function Extract(): T
      requires Ok?
    {
      value
    }
  }
}
