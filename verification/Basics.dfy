/** What the other modules share: an optional value and the unit of time. */
module Basics {
  datatype Option<T> = None | Some(value: T)

  // Dates and durations are nanoseconds.
  const SECOND: int := 1_000_000_000
}
