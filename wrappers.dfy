/** The optional value used where the dashboard keeps `string | null` state. */
module Wrappers {
  datatype Option<+T> = None | Some(value: T)
}
