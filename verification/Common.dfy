/** Shared vocabulary: identifiers, optional columns and the HTTP errors that end an operation. */
module Common {
  type Id = nat

  /** Quantities validated with @Min(1). */
  type Pos = n: nat | n > 0 witness 1

  /** Payment amounts, validated to be positive. */
  type Amount = r: real | r > 0.0 witness 1.0

  datatype Option<+T> = None | Some(value: T)

  datatype Error = NotFound | Conflict | BadRequest | Forbidden | Unauthorized | NoActiveOrder

  datatype Result<+T> = Ok(value: T) | Err(error: Error)
}
