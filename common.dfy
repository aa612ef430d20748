/** Small wrapper types shared by every state holder of the delivery client. */
module Common {

  /** A value that may be absent: JavaScript's `null` / `undefined`. */
  datatype Option<+T> = None | Some(value: T)

  /** The `{ success, error }` records the providers return, and the
      outcome of a key-value storage write that may throw. */
  datatype Outcome = Success | Failure(message: string)

  /** An operation that either produces a value or fails with a message:
      the `{ success, ... }` records that carry a value on success (the
      saved address, the re-created order). `Outcome` stays separate for
      the many operations and storage writes whose success carries
      nothing, so their contracts read `write.Success?` rather than
      going through `Result<()>`. */
  datatype Result<+T> = Ok(value: T) | Err(message: string)

  /** JavaScript's `x || 0` on a numeric field that may be missing:
      a missing or zero value becomes 0, any other value is kept. */
  function OrZero(v: Option<int>): int
  {
    match v
    case None => 0
    case Some(x) => x
  }
}
