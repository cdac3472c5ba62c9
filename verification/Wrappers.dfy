// The optional value: Go's nil pointer, nil error and comma-ok results.
module Wrappers {
  datatype Option<+T> = None | Some(value: T)
}
