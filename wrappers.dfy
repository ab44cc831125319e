/** Failure-compatible wrappers shared by every module of the compiler model.

    Rust distinguishes a recoverable `Err` (which `or_else` and `.ok()` can
    absorb) from a `panic!` (raised by `expect`, `unwrap`, `assert_eq!` and
    out-of-range indexing) that aborts the whole compilation. `Result` keeps
    the two apart so that the model can say which of them a given input meets. */
module Wrappers {

  datatype Option<+T> = None | Some(value: T) {
    function GetOr(default: T): T {
      match this
      case Some(v) => v
      case None => default
    }

    /** Rust's `Option::or`: the first present value wins. */
    function Or(other: Option<T>): Option<T> {
      if Some? then this else other
    }
  }

  datatype Result<+T> = Ok(value: T) | Err(error: string) | Panic(reason: string) {
    predicate IsFailure() {
      !Ok?
    }

    function PropagateFailure<U>(): Result<U>
      requires !Ok?
    {
      if Err? then Err(error) else Panic(reason)
    }

    function Extract(): T
      requires Ok?
    {
      value
    }
  }

  datatype Unit = Unit
}
