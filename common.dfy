/** Small failure-carrying datatypes shared by the modules of this project. */
module Common {

  /** A value that may be missing (a JavaScript `undefined`, a Python `None`). */
  datatype Option<T> = None | Some(value: T)

  /** The outcome of an operation that either returns a value or raises an error. */
  datatype Result<T, E> = Ok(value: T) | Err(error: E)

  /** `max(n, 0)`: how many times `for (let i = 0; i < n; i++)` runs its body. */
  function Count(n: int): (k: nat)
    ensures n <= 0 ==> k == 0
    ensures n >= 0 ==> k == n
  {
    if n > 0 then n else 0
  }
}
