// Shared value types: optional values, results, and the optional fields that
// the Go source writes as nil pointers.
module Core {

  datatype Option<+T> = None | Some(value: T)

  datatype Result<+T, +E> = Ok(value: T) | Err(error: E)

  // Instants are integers: the source compares and orders them, and adds fixed
  // durations, but never looks inside one in the parts modelled here.
  type Instant = int
  type UserId = int
}
