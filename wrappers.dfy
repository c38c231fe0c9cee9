/** Optional values: the source's `undefined`/`null` results (a `find` that
    matches nothing, a validator that returns no message). */
module Wrappers {
  datatype Option<+T> = None | Some(value: T)
}
