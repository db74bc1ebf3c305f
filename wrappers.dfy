/** Optional values, results and pass/fail outcomes, used wherever the source
    returns `null`, throws, or answers with an error response. */
module Wrappers {

  datatype Option<+T> = None | Some(value: T)

  datatype Result<+T, +E> = Ok(value: T) | Err(error: E)

  datatype Outcome<+E> = Pass | Fail(error: E)
}
