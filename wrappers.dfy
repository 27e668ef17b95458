/** Optional values and error results shared by every module of the model. */
module Wrappers {

  /** A value that may be absent: a null handle, an empty weak reference, a missing map entry. */
  datatype Option<T> = None | Some(value: T)
  {
    predicate IsSome() { Some? }

    function GetOr(default: T): (r: T)
      ensures Some? ==> r == value
      ensures None? ==> r == default
    {
      match this
      case Some(v) => v
      case None => default
    }
  }

  /** The outcome of an operation that the source reports as an exception or an error return. */
  datatype Result<T, E> = Ok(value: T) | Err(error: E)
}
