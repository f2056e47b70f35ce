/** Failure-compatible values for the Go error returns and nil pointers of the hub and the agent. */
module Options {
  datatype Option<+T> = None | Some(value: T)

  datatype Result<+T, +E> = Success(value: T) | Failure(error: E)
}
