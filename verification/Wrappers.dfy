/** The conventional optional value, used for nullable columns and absent request fields. */
module Wrappers {
  datatype Option<+T> = None | Some(value: T)
}
