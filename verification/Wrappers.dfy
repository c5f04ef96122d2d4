/** Result shapes shared by the whole project. */
module Wrappers {

  /** An optional value: a missing JSON field, a file that is not there, a refused call. */
  datatype Option<+T> = None | Some(value: T)
}
