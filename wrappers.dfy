// Optional values, used wherever the generator either raises an exception or
// works with a value that may be absent (Python None).
module Wrappers {

  datatype Option<+T> = None | Some(value: T)
}
