/** The optional values the request handlers deal in: an upload that may be
    absent, an exit code that is null when the worker was killed by a signal. */
module Wrappers {

  datatype Option<+T> = None | Some(value: T)
}
