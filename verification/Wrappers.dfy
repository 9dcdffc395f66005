/** What every component shares: the optional value used where the Go code returns a value and an ok flag, and points
    in time. */
module Wrappers {
  datatype Option<+T> = None | Some(value: T)

  type Time = int
}
