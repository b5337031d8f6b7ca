/**
 * The exception kinds that the driver raises or lets escape. Messages are not
 * modelled, only which kind of exception leaves an operation.
 */
module Errors {

  datatype Exception =
    | FishyError             // the emulator's generic error type
    | NotSupportedError      // a subclass of FishyError
    | ValueError             // Python's list.remove on an absent element
    | IndexError             // indexing an empty list
    | StopIteration          // next() on an exhausted generator
    | BackendError(name: string)  // anything a hypervisor call raises that is not a Fishy error

  /** True for the exceptions an `except FishyError` clause catches. */
  predicate IsFishy(e: Exception)
  {
    e.FishyError? || e.NotSupportedError?
  }

  /**
   * The wrapping rule of set_power_state: a Fishy error is re-raised unchanged,
   * any other exception is replaced by a FishyError.
   */
  function Wrap(e: Exception): (w: Exception)
    ensures IsFishy(w)
    ensures IsFishy(e) ==> w == e
    ensures !IsFishy(e) ==> w == FishyError
  {
    if IsFishy(e) then e else FishyError
  }
}
