/** The optional value used for every record field that the extraction service may leave out. */
module Wrappers {

  datatype Option<+T> = None | Some(value: T)

}
