/** A value that may be absent: the stored list when nothing has been saved,
    a stored project without a `todos` field, a cancelled prompt. */
module Wrappers {
  datatype Option<+T> = None | Some(value: T)
}
