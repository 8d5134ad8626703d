/** An optional value, standing for the source's `T | null` state fields. */
module Wrappers {

  datatype Option<+T> = None | Some(value: T)
}
