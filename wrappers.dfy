/** The optional value used for "undefined" property reads, failed parses and lookups that miss. */
module Wrappers {
  datatype Option<+T> = None | Some(value: T)
}
