/** The optional value used for absent response fields. */
module Wrappers {

  datatype Option<+T> = None | Some(value: T)
}
