/** An optional value: the state result is absent when no state is selected. */
module Wrappers {
  datatype Option<+T> = None | Some(value: T)
}
