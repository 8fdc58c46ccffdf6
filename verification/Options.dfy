/** A value that may be absent: a missing key, a None result, an optional argument. */
module Options {

  datatype Option<+T> = None | Some(value: T)
}
