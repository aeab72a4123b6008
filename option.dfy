/** A value that may be missing: the game's `undefined` and `null`. */
module Optional {

  datatype Option<+T> = None | Some(value: T)

}
