/** Small shared vocabulary: optional values (JavaScript's null/undefined) and integer minimum. */
module Common {

  /** A value that may be absent, as `null` or `undefined` is in the application. */
  datatype Option<+T> = None | Some(value: T)

  function Min(a: int, b: int): (r: int)
    ensures r <= a && r <= b
    ensures r == a || r == b
  {
    if a <= b then a else b
  }
}
