/** A value that may be missing: the null references and error returns of the modelled code. */
module Options {

  datatype Option<+T> = None | Some(value: T)

}
