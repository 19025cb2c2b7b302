/** The optional values of the store: a `string | null` or `SequenceData | null` field. */
module Wrappers {
  datatype Option<+T> = None | Some(value: T)
}
