/** Result types shared by the modules. */
module Common {
  datatype Option<+T> = None | Some(value: T)

  /** How a Go function returned: with a nil error, with an error, or by panicking on a nil pointer
      or an index out of range. */
  datatype Outcome = Ok | Err | Panic
}
