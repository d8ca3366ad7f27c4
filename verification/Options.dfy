/** Values that may be absent, used where the source has a nil pointer or an empty channel buffer. */
module Options {

  datatype Option<+T> = None | Some(value: T)
}
