/** The optional value that JavaScript expresses with `undefined` or `null`. */
module Options {

  datatype Option<T> = None | Some(value: T)
}
