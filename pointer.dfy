/**
 * The pointer bookkeeping of the example compositor: `pointer_added` and
 * `PointerHandler::destroyed` keep the set of pointer handles and the
 * seat's advertised capabilities in step, so that the seat offers the
 * pointer capability exactly while some pointer is plugged in.
 */
module PointerInputs {
  import opened Outcomes

  /** `seat::Capability`: distinct bits of the seat's capability set. */
  datatype Capability = PointerCapability | KeyboardCapability | TouchCapability

  /** `pointer::Handle`, as stored in the `pointers` hash set (compared by identity). */
  datatype PointerHandle = PointerHandle(id: nat)

  /** The handler `pointer_added` hands back for the new pointer. */
  datatype PointerHandler = PointerHandler

  /** The bookkeeping as a value: `Inputs::pointers` and the seat's capabilities. */
  datatype Bookkeeping = Bookkeeping(pointers: set<PointerHandle>, capabilities: set<Capability>)

  /** The seat offers the pointer capability exactly while some pointer is known. */
  predicate Consistent(b: Bookkeeping)
  {
    PointerCapability in b.capabilities <==> b.pointers != {}
  }

  /** The bookkeeping after `pointer_added(h)`. */
  function AfterAdded(b: Bookkeeping, h: PointerHandle): Bookkeeping
  {
    var pointers := b.pointers + {h};
    Bookkeeping(pointers, if |pointers| == 1 then b.capabilities + {PointerCapability} else b.capabilities)
  }

  /** The bookkeeping after `destroyed(h)`. */
  function AfterDestroyed(b: Bookkeeping, h: PointerHandle): Bookkeeping
  {
    var pointers := b.pointers - {h};
    Bookkeeping(pointers, if |pointers| == 0 then b.capabilities - {PointerCapability} else b.capabilities)
  }

  class Seat {
    /** `seat.capabilities()`, replaced as a whole by `set_capabilities`. */
    var capabilities: set<Capability>

    constructor (capabilities: set<Capability>)
      ensures this.capabilities == capabilities
    {
      this.capabilities := capabilities;
    }
  }

  /** The fields of the example's `CompositorState` that pointers touch. */
  class CompositorState {
    var pointers: set<PointerHandle>
    const seat: Seat

    constructor (seat: Seat)
      ensures pointers == {} && this.seat == seat
    {
      pointers := {};
      this.seat := seat;
    }

    function Current(): Bookkeeping
      reads this, seat
    {
      Bookkeeping(pointers, seat.capabilities)
    }
  }

  /** `pointer_added`: records the pointer and always hands back a handler. */
  method PointerAdded(state: CompositorState, h: PointerHandle) returns (r: Option<PointerHandler>)
    modifies state, state.seat
    ensures r == Some(PointerHandler)
    ensures state.Current() == AfterAdded(old(state.Current()), h)
  {
    state.pointers := state.pointers + {h};
    if |state.pointers| == 1 {
      var cap := state.seat.capabilities;
      cap := cap + {PointerCapability};
      state.seat.capabilities := cap;
    }
    r := Some(PointerHandler);
  }

  /** `PointerHandler::destroyed`: forgets the pointer. */
  method Destroyed(state: CompositorState, h: PointerHandle)
    modifies state, state.seat
    ensures state.Current() == AfterDestroyed(old(state.Current()), h)
  {
    state.pointers := state.pointers - {h};
    if |state.pointers| == 0 {
      var cap := state.seat.capabilities;
      cap := cap - {PointerCapability};
      state.seat.capabilities := cap;
    }
  }

  // ---------------------------------------------------------------------
  // What the bookkeeping guarantees
  // ---------------------------------------------------------------------

  /** Adding a pointer records it and keeps the seat consistent. */
  lemma AddedKeepsConsistent(b: Bookkeeping, h: PointerHandle)
    requires Consistent(b)
    ensures AfterAdded(b, h).pointers == b.pointers + {h}
    ensures Consistent(AfterAdded(b, h))
  {
    if b.pointers == {} {
      assert b.pointers + {h} == {h};
    }
  }

  /** Destroying a pointer forgets it and keeps the seat consistent. */
  lemma DestroyedKeepsConsistent(b: Bookkeeping, h: PointerHandle)
    requires Consistent(b)
    ensures AfterDestroyed(b, h).pointers == b.pointers - {h}
    ensures Consistent(AfterDestroyed(b, h))
  {
  }

  /** Neither operation touches a capability other than the pointer one. */
  lemma OtherCapabilitiesUntouched(b: Bookkeeping, h: PointerHandle)
    ensures AfterAdded(b, h).capabilities - {PointerCapability} == b.capabilities - {PointerCapability}
    ensures AfterDestroyed(b, h).capabilities - {PointerCapability} == b.capabilities - {PointerCapability}
  {
  }

  /** The pointer capability is added exactly for the first pointer, and removed exactly with the last. */
  lemma CapabilityFollowsFirstAndLast(b: Bookkeeping, h: PointerHandle)
    requires Consistent(b)
    ensures PointerCapability in AfterAdded(b, h).capabilities
    ensures (PointerCapability in b.capabilities) != (PointerCapability in AfterAdded(b, h).capabilities)
      <==> b.pointers == {}
    ensures PointerCapability !in AfterDestroyed(b, h).capabilities <==> b.pointers <= {h}
  {
    AddedKeepsConsistent(b, h);
    if b.pointers <= {h} {
      assert b.pointers - {h} == {};
    }
  }

  /** A second pointer, or the loss of one of two, leaves the capabilities as they were. */
  lemma SecondPointerChangesNothing(b: Bookkeeping, h: PointerHandle, other: PointerHandle)
    requires b.pointers == {other} && h != other
    ensures AfterAdded(b, h).capabilities == b.capabilities
    ensures AfterDestroyed(AfterAdded(b, h), other).capabilities == b.capabilities
  {
    assert |{other, h}| == 2;
    assert {other, h} - {other} == {h};
  }

  /** Add P1, add P2, destroy P1, destroy P2: the capability appears with P1 and goes with P2. */
  lemma PlugTwoPointersScenario(caps: set<Capability>, p1: PointerHandle, p2: PointerHandle)
    requires p1 != p2 && PointerCapability !in caps
    ensures var s0 := Bookkeeping({}, caps);
      var s1 := AfterAdded(s0, p1);
      var s2 := AfterAdded(s1, p2);
      var s3 := AfterDestroyed(s2, p1);
      var s4 := AfterDestroyed(s3, p2);
      && s1 == Bookkeeping({p1}, caps + {PointerCapability})
      && s2 == Bookkeeping({p1, p2}, caps + {PointerCapability})
      && s3 == Bookkeeping({p2}, caps + {PointerCapability})
      && s4 == Bookkeeping({}, caps)
  {
    assert {} + {p1} == {p1};
    assert |{p1} + {p2}| == 2;
    assert {p1, p2} - {p1} == {p2};
    assert {p2} - {p2} == {};
    assert caps + {PointerCapability} - {PointerCapability} == caps;
  }
}
