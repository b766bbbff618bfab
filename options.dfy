/** The optional value returned by the pattern decoders. */
module Options {

  datatype Option<T> = None | Some(value: T)
}
