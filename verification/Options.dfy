/** The nullable columns, optional arguments and fallible results of the service. */
module Options {
  datatype Option<+T> = None | Some(value: T)
}
