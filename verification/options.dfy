/** An optional value: the Dafny stand-in for the source's NULL pointers. */
module Options {

  datatype Option<+T> = None | Some(value: T)
}
