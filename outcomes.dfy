/** Option values and the settlement of an awaited promise. */
module Outcomes {

  datatype Option<+T> = None | Some(value: T)

  /** A thrown value: an `Error` instance, or anything else (shown with `String(e)`). */
  datatype Thrown = ErrorObject(message: string) | OtherThrown(shown: string)

  /**
   * The text the code extracts from a caught value:
   * `e instanceof Error ? e.message : String(e)`.
   */
  function Message(e: Thrown): string
  {
    match e
    case ErrorObject(m) => m
    case OtherThrown(s) => s
  }

  /** How an awaited call settles: it resolves with a value or rejects with a thrown value. */
  datatype Outcome<+T> = Ok(value: T) | Err(error: Thrown)
}
