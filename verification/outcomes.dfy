/** Optional values and success-or-error results, used for every operation
    of the model that can return nothing or raise. */
module Outcomes {

  datatype Option<+T> = None | Some(value: T)

  /** `Err` stands for a raised exception (Python) or a thrown exception (C++). */
  datatype Result<+T, +E> = Ok(value: T) | Err(error: E)

  function Min(a: int, b: int): int
  {
    if a <= b then a else b
  }

  function Max(a: int, b: int): int
  {
    if a >= b then a else b
  }
}
