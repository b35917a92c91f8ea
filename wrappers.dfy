/** Optional values and results with an error message, standing for Python's
    `None` and for exceptions that the pipeline lets escape. */
module Wrappers {

  datatype Option<+T> = None | Some(value: T)

  datatype Result<+T> = Ok(value: T) | Err(error: string)

  /** What Python reports for a division whose divisor is zero. */
  const ZeroDivisionMsg := "ZeroDivisionError: division by zero"

  /** What pandas reports for `.iloc[0]` on an empty Series. */
  const IlocErrorMsg := "IndexError: single positional indexer is out-of-bounds"
}
