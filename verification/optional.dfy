/** A value that may be absent: an entry read back from `localStorage` that was never written. */
module Optional {

  datatype Option<+T> = None | Some(value: T)
}
