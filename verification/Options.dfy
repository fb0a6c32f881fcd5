/** The optional value used throughout for nil results and absent files. */
module Options {
  datatype Option<+T> = None | Some(value: T)
}
