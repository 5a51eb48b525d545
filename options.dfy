/** The optional value used wherever the source holds `T | null`. */
module Options {
  datatype Option<+T> = None | Some(value: T)
}
