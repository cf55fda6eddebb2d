/** The conventional Some/None datatype, used where the source has a value that may be `null`. */
module Optional {

  datatype Option<+T> = None | Some(value: T)
}
