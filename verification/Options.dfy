/** The optional value the rest of the model uses for `std::optional`. */
module Options {
  datatype Option<+T> = None | Some(value: T)
}
