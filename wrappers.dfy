/** The optional value used for every outside service that may answer "nothing". */
module Wrappers {

  datatype Option<+T> = None | Some(value: T)
}
