/** Optional values and the settled outcome of a call to the remote log/alert gateway. */
module Wrappers {

  /** A value that may be missing: JavaScript's `null`/`undefined` become None. */
  datatype Option<+T> = None | Some(value: T)

  /** How an awaited gateway call settled: resolved with a value, or rejected.
      The rejection reason is only ever logged by the client, so it carries nothing. */
  datatype Response<+T> = Success(value: T) | Failure
}
