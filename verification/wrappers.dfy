/** Optional values, a minimum, and the truthiness test the server applies to request fields. */
module Wrappers {

  datatype Option<+T> = None | Some(value: T)

  function Min(a: int, b: int): int
  {
    if a < b then a else b
  }

  /** A request field counts as given only when it is present and not the empty
      string (the `!x` / `x || y` tests of the server treat "" like an absent field). */
  predicate Present(field: Option<string>)
  {
    field.Some? && field.value != ""
  }
}
