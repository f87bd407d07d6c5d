/** The optional value used for the header's single confirmation-overlay slot. */
module Wrappers {
  datatype Option<+T> = None | Some(value: T)
}
