/** The optional value used for lookups that may find nothing and for reads that may fail. */
module Wrappers {

  datatype Option<+T> = None | Some(value: T)

}
