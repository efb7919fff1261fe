/** The optional value the source expresses with `null` (or `false`) for "nothing to report". */
module Options {

  datatype Option<+T> = None | Some(value: T)
}
