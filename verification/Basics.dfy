/** Types that the whole project shares. */
module Basics {

  /** Seconds. */
  type Time = real

  /** A service group id. */
  type Sg = nat

  datatype Option<+T> = None | Some(value: T)
}
