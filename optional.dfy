/** A value that may be missing: JavaScript's `null` / `undefined` in the model. */
module Optional {

  datatype Option<+T> = None | Some(value: T)
}
