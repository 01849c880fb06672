/** The source's `X | None` results. */
module Option {
  datatype Option<+T> = None | Some(value: T)
}
