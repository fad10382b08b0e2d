/** The optional value used where the Python code holds either a value or `None`. */
module Options {

  datatype Option<+T> = None | Some(value: T)
}
