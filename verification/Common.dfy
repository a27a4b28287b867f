/** What several modules use. */
module Common {
  datatype Option<T> = None | Some(value: T)

  /** C++ division and remainder round toward zero. */
  function Div(x: int, n: int): int
    requires n > 0
  {
    if x >= 0 then x / n else -((-x) / n)
  }

  function Rem(x: int, n: int): int
    requires n > 0
  {
    if x >= 0 then x % n else -((-x) % n)
  }
}
