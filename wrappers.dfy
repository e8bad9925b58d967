/** Optional values and fallible results, as used by every other module. */
module Wrappers {

  datatype Option<+T> = None | Some(value: T) {

    /** This value if there is one, otherwise the other. */
    function Or(other: Option<T>): Option<T>
    {
      if Some? then this else other
    }
  }

  datatype Result<+T, +E> = Success(value: T) | Failure(error: E)
}
