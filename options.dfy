/** An optional value, standing for Swift's `Optional`. */
module Options {

  datatype Option<+T> = None | Some(value: T)
}
