/** Values that may be missing, in every module that has them. */
module Options {

  datatype Option<+T> = None | Some(value: T)
}
