/** The optional value every other module uses for a field the source may leave out. */
module Options {
  datatype Option<+T> = None | Some(value: T)
}
