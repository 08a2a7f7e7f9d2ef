/** How a call on one of bowl's holders ends.

    The C++ holders hand their payload back by value and report misuse by
    throwing. Dafny has no exceptions, so every consuming call returns an
    `Outcome`: either the value it hands back or the exception it throws.
 */
module BowlSignals {

  datatype Option<T> = None | Some(value: T)

  datatype Outcome<V, E> =
    | Value(value: V)   // the call returned normally (with `()` for a void call)
    | MovedOut          // bowl::MovedOutException: the payload was already taken
    | FalseState        // bowl::FalseStateException: Expected unpacked on the wrong branch
    | RuntimeError      // std::runtime_error: MaybeError::unpack_error on an ok holder
    | Raised(error: E)  // the error's own exception, thrown by E::throw_as_exception
  {
    /** The same exception, escaping from a call whose normal result has another type. */
    function Rethrow<W>(): (r: Outcome<W, E>)
      requires !Value?
      ensures !r.Value?
      ensures MovedOut? == r.MovedOut? && FalseState? == r.FalseState?
      ensures RuntimeError? == r.RuntimeError? && Raised? == r.Raised?
      ensures Raised? ==> r.error == error
    {
      match this
      case MovedOut => MovedOut
      case FalseState => FalseState
      case RuntimeError => RuntimeError
      case Raised(e) => Raised(e)
    }
  }
}
