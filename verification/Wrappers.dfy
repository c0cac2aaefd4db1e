/** A value, or none. */
module Wrappers {
  datatype Maybe<+A> = Nothing | Just(value: A)
}
