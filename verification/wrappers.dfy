/** The nullable values of the dashboard's state (`T | null` in the source). */
module Wrappers {

  datatype Option<+T> = None | Some(value: T)
}
