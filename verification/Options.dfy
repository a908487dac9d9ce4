/** A value that may be missing. */
module Options {
  datatype Option<+V> = Some(value: V) | None
}
