/** The optional value used wherever the gateway returns std::optional or an empty id. */
module Options {
  datatype Option<+T> = None | Some(value: T)
}
