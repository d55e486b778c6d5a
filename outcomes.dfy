/** Values shared by both record stores: an optional value, and the outcome
    of one request handled by a store. */
module Outcomes {

  /** A value that may be missing (Python's `Optional[...]` / `None`). */
  datatype Option<T> = None | Some(value: T)

  /** What a handler produces: a value, one of the two HTTP errors the
      stores raise (404 and 422, each with its `detail` text), or nothing at
      all, for a handler that falls off its end and returns `None`. */
  datatype Response<T> =
    | Ok(value: T)
    | NotFound(detail: string)
    | Unprocessable(detail: string)
    | NoResponse
}
