/** The failure-carrying types shared by every module: the API's error kinds and Rust's
    `Option` and `Result`, the latter usable with `:-` the way Rust uses `?`. */
module Wrappers {

  datatype Option<+T> = None | Some(value: T) {
    function GetOr(default: T): T {
      if Some? then value else default
    }
  }

  /** One constructor for each HTTP status the handlers answer with. */
  datatype ApiError =
    | BadRequest | Unauthorized | Forbidden | NotFound | Conflict
    | BadGateway | ServiceUnavailable | Internal

  datatype Result<+T> = Ok(value: T) | Err(error: ApiError) {
    predicate IsFailure() {
      Err?
    }

    function PropagateFailure<U>(): Result<U>
      requires Err?
    {
      Err(error)
    }

    function Extract(): T
      requires Ok?
    {
      value
    }
  }

  /** `Ok(())` when `condition` holds, the given error otherwise. */
  function Need(condition: bool, error: ApiError): Result<()> {
    if condition then Ok(()) else Err(error)
  }
}
