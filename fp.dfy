/** The two result wrappers the modelled code borrows from SwiftFP. */
module Fp {

  datatype Option<+T> = None | Some(value: T)

  /** SwiftFP's `Try`: a value, or the error that stands in its place. */
  datatype Try<+T, +E> = Success(value: T) | Failure(error: E)
  {
    /** `Try.map`: transforms a value and passes an error through untouched. */
    function Map<U>(f: T -> U): (r: Try<U, E>)
      ensures r.Success? <==> Success?
      ensures Success? ==> r.value == f(value)
      ensures Failure? ==> r.error == error
    {
      match this
      case Success(v) => Success(f(v))
      case Failure(e) => Failure(e)
    }
  }
}
