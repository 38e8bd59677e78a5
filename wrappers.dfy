/** The optional value used for the plugin's nullable `Instant` and `Duration` fields. */
module Wrappers {
  datatype Option<+T> = None | Some(value: T)
}
