/** The optional value used wherever the drag monitor or the DOM may hand back `null`. */
module Wrappers {

  datatype Option<T> = None | Some(value: T)

}
