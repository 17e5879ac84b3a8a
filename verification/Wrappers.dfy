/** A value that may be absent, where the original answers with a null pointer. */
module Wrappers {

  datatype Option<+T> = Some(value: T) | None
}
