/** Stock optional-value datatype, used for `string | null` and for
    computations that may throw or reject. */
module Wrappers {
  datatype Option<+T> = None | Some(value: T)
}
