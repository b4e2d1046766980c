/** The optional value used wherever a reading of the model can fail. */
module Wrappers {

  datatype Option<+T> = None | Some(value: T)
}
