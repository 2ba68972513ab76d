/** Small failure-carrying datatypes shared by the whole model. */
module Wrappers {

  /** An optional value: Rust's `Option`, or the candid `[] | [T]` arrays of the TypeScript client. */
  datatype Option<+T> = None | Some(value: T)

  /** Why a client operation did not produce a result. */
  datatype Error =
    | CallFailed   // a remote call was rejected; the Rust client's `.unwrap()` traps, the TypeScript promise rejects
    | NoRun        // `begin_start` answered with no run and the Rust client unwraps it
    | OutOfFuel    // the model's bound on an otherwise unbounded loop was reached
    | NotASession  // a reply field that is not a session was used as one; the TypeScript client throws a TypeError

  /** The result of a client operation. */
  datatype Result<+T> = Success(value: T) | Failure(error: Error)
}
