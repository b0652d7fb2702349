/** Option and Result values shared by every module of the model. */
module Common {

  /** A value that may be absent: `undefined`, `null` or `NaN` on the source's side. */
  datatype Option<T> = None | Some(value: T)

  /** The outcome of an operation that either returns a value or throws. */
  datatype Result<T, E> = Ok(value: T) | Err(error: E)

  function Min(a: int, b: int): (m: int)
    ensures m <= a && m <= b && (m == a || m == b)
  {
    if a <= b then a else b
  }

  function Max(a: int, b: int): (m: int)
    ensures m >= a && m >= b && (m == a || m == b)
  {
    if a >= b then a else b
  }
}
