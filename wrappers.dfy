/** Small option and result types shared by every module of the model. */
module Wrappers {
  datatype Option<T> = None | Some(value: T)
  {
    predicate IsSome() { Some? }

    function GetOr(default: T): T
    {
      match this
      case Some(v) => v
      case None => default
    }
  }

  /** An operation that either produces a value or raises the error named by the string. */
  datatype Result<T> = Ok(value: T) | Err(error: string)
}
