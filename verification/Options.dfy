/** An optional value. */
module Options {
  datatype Option<+T> = None | Some(value: T)

  /** The first of two optional values that is there. */
  function OrElse<T>(a: Option<T>, b: Option<T>): Option<T> {
    if a.Some? then a else b
  }

  function ValueOr<T>(a: Option<T>, fallback: T): T {
    if a.Some? then a.value else fallback
  }
}
