/** An optional value, for the arguments that default to `None`. */
module Options {

  datatype Option<+T> = None | Some(value: T)
}
