module Wrappers {
  /** Stands for Go's comma-ok results and for values that may be missing. */
  datatype Option<+T> = None | Some(value: T)
}
