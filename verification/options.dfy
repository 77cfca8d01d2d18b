/** The optional value used wherever the handler reads `undefined`-or-something. */
module Options {

  datatype Option<+T> = None | Some(value: T)
}
