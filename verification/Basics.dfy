// Option and the outcome of one effect, shared by every model.
module Basics {

  type Byte = b: int | 0 <= b < 256

  datatype Option<+T> = None | Some(value: T)

  function GetOr<T>(o: Option<T>, default: T): T {
    if o.Some? then o.value else default
  }

  // A Python truth test on an optional string.
  predicate Truthy(o: Option<string>) {
    o.Some? && o.value != ""
  }

  // The exceptions the models tell apart.  Cancelled stands for the exceptions that are
  // not subclasses of Exception (task cancellation, KeyboardInterrupt), OtherError for all
  // that have no handler of their own.
  datatype Exn =
    | StorageConflict
    | StorageError
    | RecoveryIncomplete
    | Infrastructure
    | OtherError
    | RateLimited
    | Cancelled

  predicate IsStorageError(e: Exn) {
    e == StorageConflict || e == StorageError
  }

  // What one step of the program can do: finish, raise, or never return because the
  // process died (before or after the step took effect).
  datatype Outcome<+T> = Done(value: T) | Raised(exn: Exn) | Killed {
    predicate IsFailure() {
      !Done?
    }

    function PropagateFailure<U>(): Outcome<U>
      requires IsFailure()
    {
      if Killed? then Killed else Raised(exn)
    }

    function Extract(): T
      requires !IsFailure()
    {
      value
    }
  }
}
