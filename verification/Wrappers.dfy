/** Result shapes and the like that the other modules share. */
module Wrappers {

  datatype Option<+T> = None | Some(value: T)

  /** What a call that may raise returns. */
  datatype Result<+T, +E> = Returned(value: T) | Raised(error: E)

  function Min(a: int, b: int): (m: int) {
    if a < b then a else b
  }

  function Max(a: int, b: int): (m: int) {
    if a < b then b else a
  }
}
