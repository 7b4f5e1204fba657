/** The ways a call can end in this crate, and the raw pointers the crate passes around; shared by every module of the model. */
module Outcomes {

  /** A raw C pointer, as an address. */
  type Ptr = nat

  /** Rust's `Option`. */
  datatype Option<+T> = None | Some(value: T)

  /** Rust's `Result`, here used for `std::thread::Result` and `CString::new`. */
  datatype Result<+T, +E> = Ok(value: T) | Err(error: E)

  /**
   * How a call ended: it returned `value`, it panicked with `message`
   * (unwinding, which a dispatch boundary may catch), it called
   * `std::process::exit(status)`, or it called `std::process::abort()`.
   */
  datatype Outcome<+T> =
    | Normal(value: T)
    | Panicked(message: string)
    | Exited(status: int)
    | Aborted
  {
    /** The same non-normal ending, at another value type. */
    function Propagate<U>(): (r: Outcome<U>)
      requires !Normal?
      ensures !r.Normal?
    {
      match this
      case Panicked(m) => Panicked(m)
      case Exited(c) => Exited(c)
      case Aborted => Aborted
    }
  }
}
