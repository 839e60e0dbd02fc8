/** How a run of the program can end early instead of returning. */
module Process {
  /** os.Exit(1) after a logged message, or a run-time panic (a nil
      dereference, a failed type assertion, an index out of range). */
  datatype Fatal = Exit | Panic
}
