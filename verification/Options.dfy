/** An optional value: the program's std::optional, and its marks for an unset timestamp. */
module Options {

  datatype Option<+T> = None | Some(value: T)
}
