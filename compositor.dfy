/**
 * The part of the global compositor that the dispatch bracket and
 * `handle_unwind` touch: its re-entrancy lock, the slot where a caught
 * panic is saved, and whether its event loop is still running. The rest of
 * the compositor (src/compositor.rs) is not part of this model.
 */
module CompositorState {
  import opened Outcomes

  /** The payload of a caught panic (`Box<dyn Any + Send>`), as its message. */
  type PanicPayload = string

  /** What happened to the compositor on the panic path, in order. */
  datatype Event = PanicSaved(payload: PanicPayload) | Terminated

  class Compositor {
    /** `Compositor::lock`: set while a handler of any resource is running. */
    var lock: bool
    /** The panic saved by `save_panic_error`, re-raised once the event loop has stopped. */
    var panicError: Option<PanicPayload>
    /** The Wayland event loop has not been told to stop. */
    var running: bool
    ghost var events: seq<Event>

    constructor ()
      ensures !lock && panicError == None && running && events == []
    {
      lock := false;
      panicError := None;
      running := true;
      events := [];
    }

    /** `Compositor::save_panic_error`. */
    method SavePanicError(error: PanicPayload)
      modifies this
      ensures panicError == Some(error)
      ensures lock == old(lock) && running == old(running)
      ensures events == old(events) + [PanicSaved(error)]
    {
      panicError := Some(error);
      events := events + [PanicSaved(error)];
    }

    /** `compositor::terminate`: stops the event loop. */
    method Terminate()
      modifies this
      ensures !running
      ensures lock == old(lock) && panicError == old(panicError)
      ensures events == old(events) + [Terminated]
    {
      running := false;
      events := events + [Terminated];
    }
  }
}
