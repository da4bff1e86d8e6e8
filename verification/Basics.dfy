/** Types every part shares: identifiers, clock readings in milliseconds, nullable values. */
module Basics {
  type Uuid = nat
  type Time = int

  datatype Option<+T> = None | Some(value: T)
}
