/** An optional value, used for the embed fields that discord leaves empty and
    for collaborators that may be missing. */
module Wrappers {

  datatype Option<+T> = None | Some(value: T)
}
