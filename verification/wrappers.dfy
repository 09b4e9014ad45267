/** The optional value used wherever the browser answers `null`, an unset property, or `NaN`. */
module Wrappers {

  datatype Option<+T> = None | Some(value: T)
}
