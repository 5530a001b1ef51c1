/** The usual optional value, for state the client may not have yet (the local player before `joined`). */
module Opt {
  datatype Option<+T> = None | Some(value: T)
}
