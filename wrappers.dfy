/** The optional value used where the source gets `undefined` back from `find`
    or `-1` back from `findIndex`. */
module Wrappers {
  datatype Option<+T> = None | Some(value: T)
}
