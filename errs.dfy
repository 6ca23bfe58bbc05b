/** Error values of the user store, after the error codes of openimsdk/tools/errs.
    `errs.Wrap` keeps the error it wraps, so a wrapped error is modelled by the
    same value. Each site that wraps a foreign error with `errs.WrapMsg` (the slot
    pipeline, the JSON encoder and the JSON decoder) has a constructor of its own,
    and none of those is not-found. */
module Errs {

  datatype Option<T> = None | Some(value: T)

  datatype Result<T> = Ok(value: T) | Err(error: Error)

  datatype Error =
    | RecordNotFound(msg: string)                        // errs.ErrRecordNotFound
    | ArgsInvalid(msg: string)                           // errs.ErrArgs
    | MarshalFailed                                      // json.Marshal failed inside the loader callback
    | UnmarshalFailed(key: string, value: string, expire: int)  // a stored value did not decode
    | SlotLookupFailed(cause: Error)                     // the CLUSTER KEYSLOT pipeline failed
    | External(code: int)                                // any other error of Redis, rockscache or the database

  /** The test `errs.ErrRecordNotFound.Is(specialerror.ErrCode(errs.Unwrap(err)))`. */
  predicate IsNotFound(e: Error) {
    e.RecordNotFound?
  }
}
