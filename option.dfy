/** The optional value used for failed reads and for "no cable". */
module Optional {
  datatype Option<T> = None | Some(value: T)
}
