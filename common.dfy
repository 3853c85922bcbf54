/** Failure-carrying values shared by every module of the model. */
module Common {

  /** A value that may be absent (Python's `None`). */
  datatype Option<T> = None | Some(value: T)

  /** The value of an operation, or the message of the exception it raised. */
  datatype Result<T> = Ok(value: T) | Err(error: string)

  /** An operation that returns nothing, or the message of the exception it raised. */
  datatype Outcome = Pass | Fail(error: string)

  function Max(a: int, b: int): int { if a >= b then a else b }

  function Min(a: int, b: int): int { if a <= b then a else b }

  /** Concatenation regroups freely. */
  lemma AppendAssoc<T>(a: seq<T>, b: seq<T>, c: seq<T>)
    ensures (a + b) + c == a + (b + c)
  {
  }
}
