/** The optional value used in place of a null pointer or std::optional, and std::min. */
module Options {
  datatype Option<+T> = None | Some(value: T)

  function Min(a: int, b: int): int { if a < b then a else b }
}
