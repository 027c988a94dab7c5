/** The usual optional value, used for a document that may carry no data. */
module Wrappers {

  datatype Option<+T> = None | Some(value: T)

}
