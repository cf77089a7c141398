/**
 * `GrpcResult`: the outcome of a gRPC call, either a (possibly null) result
 * or the exception that was caught.
 */
module GrpcResults {
  import opened Wrappers

  /** A caught exception: its class and message. */
  datatype Throwable = Throwable(className: string, message: string)

  datatype GrpcResult<T> = GrpcResult(wasSuccessful: bool, result: Option<T>, thrown: Option<Throwable>)

  /** `of(result)`: a successful call. */
  function Of<T>(result: Option<T>): (g: GrpcResult<T>)
    ensures g.wasSuccessful && g.result == result && g.thrown == None
  {
    GrpcResult(true, result, None)
  }

  /** `ofError(thrown)`: a failed call. */
  function OfError<T>(thrown: Throwable): (g: GrpcResult<T>)
    ensures !g.wasSuccessful && g.result == None && g.thrown == Some(thrown)
  {
    GrpcResult(false, None, Some(thrown))
  }

  /** What the documented properties promise: success exactly without an exception, and no result after a failure. */
  predicate WellFormed<T>(g: GrpcResult<T>)
  {
    (g.wasSuccessful <==> g.thrown.None?) && (!g.wasSuccessful ==> g.result.None?)
  }

  /** The call as a `Result`: the result when successful, otherwise the exception. */
  function Outcome<T>(g: GrpcResult<T>): (r: Result<Option<T>, Throwable>)
    requires WellFormed(g)
    ensures r.Success? <==> g.wasSuccessful
  {
    if g.wasSuccessful then Success(g.result) else Failure(g.thrown.value)
  }

  /**
   * The two factories build exactly the well-formed results: each of their
   * results is well formed, and every well-formed result is the one a
   * factory builds from its outcome.
   */
  lemma FactoriesBuildExactlyWellFormed<T>(result: Option<T>, thrown: Throwable, g: GrpcResult<T>)
    ensures WellFormed(Of(result)) && Outcome(Of(result)) == Success(result)
    ensures WellFormed(OfError<T>(thrown)) && Outcome(OfError<T>(thrown)) == Failure(thrown)
    ensures WellFormed(g) ==> g == match Outcome(g) { case Success(r) => Of(r) case Failure(t) => OfError(t) }
  {
  }
}
