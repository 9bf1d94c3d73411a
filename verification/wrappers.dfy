/** Optional values, used where the source raises an exception or yields
    `None`/`NaN` instead of a value. */
module Wrappers {

  datatype Option<+T> = None | Some(value: T)
}
