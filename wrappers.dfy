/**
 * Optional values and results shared by the modules of this model.
 * `None` stands for a Kotlin/Java `null`, `Failure` for an exception the
 * source throws.
 */
module Wrappers {

  datatype Option<T> = None | Some(value: T)
  {
    predicate IsSome() { Some? }

    function GetOr(default: T): T
    {
      match this
      case None => default
      case Some(v) => v
    }
  }

  datatype Result<T, E> = Success(value: T) | Failure(error: E)
  {
    predicate IsSuccess() { Success? }
  }
}
