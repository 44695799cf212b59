/** A value that may be missing: a dictionary lookup that misses, a key that `parseInt` turns into NaN. */
module Optional {
  datatype Option<+T> = None | Some(value: T)
}
