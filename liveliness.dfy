/**
 * The liveliness token shared by a strong handle and its weak handles: in
 * the crate an `Rc<AtomicBool>`. The `Rc`'s strong owner is the original
 * handle; once it is dropped every `Weak` fails to upgrade. The boolean is
 * the "borrowed" flag of the run-time single-borrow check. Everything runs
 * on one thread, so plain booleans stand for the atomic.
 */
module Liveliness {

  /** A token's state as a value: is the strong owner alive, is the flag set. */
  datatype TokenState = TokenState(alive: bool, borrowed: bool)

  class Token {
    /** The strong owner (the original handle) still exists. */
    var alive: bool
    /** The value stored in the `AtomicBool`. */
    var borrowed: bool

    /** `Rc::new(AtomicBool::new(false))`. */
    constructor ()
      ensures alive && !borrowed
    {
      alive := true;
      borrowed := false;
    }

    function State(): TokenState
      reads this
    {
      TokenState(alive, borrowed)
    }

    /** `AtomicBool::store`. */
    method Store(value: bool)
      modifies this
      ensures State() == old(State()).(borrowed := value)
    {
      borrowed := value;
    }

    /** The strong owner is dropped: the token is dead for good. */
    method Kill()
      modifies this
      ensures State() == old(State()).(alive := false)
    {
      alive := false;
    }
  }
}
