/** The optional-value type used for Python's `None`. */
module Wrappers {

  datatype Option<+T> = None | Some(value: T)

  /** A Python call that either returns a value or raises an exception
      whose `str()` is `message`. */
  datatype Call<+T> = Returned(value: T) | Raised(message: string)
}
