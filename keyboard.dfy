/**
 * The keyboard resource: a strong handle `Keyboard` that owns a liveliness
 * token (or none, when it came from an upgrade), a weak handle
 * `KeyboardHandle` that observes the token, and the run-time single-borrow
 * check that `upgrade` and `run` perform through the token's flag.
 *
 * The token transitions are first given as functions on `TokenState`
 * (`UpgradeStep`, `ClosureStep`, `RunStep`); the methods that change the
 * shared token are proved against them, and the lemmas state what the
 * transitions guarantee.
 */
module Keyboard {
  import opened Outcomes
  import opened Liveliness

  /** `wlr_input_device_type`. */
  datatype InputDeviceType =
    | KeyboardDevice
    | PointerDevice
    | TouchDevice
    | TabletToolDevice
    | TabletPadDevice

  /** The foreign `wlr_input_device` behind a pointer: its address, its type tag, and the keyboard in its union. */
  datatype WlrInputDevice = WlrInputDevice(address: Ptr, kind: InputDeviceType, keyboard: Ptr)

  /** The crate's `InputDevice` wrapper around a device pointer. */
  datatype InputDevice = InputDevice(device: Ptr)

  /** The strong handle. `liveliness` is `None` when it was produced by an upgrade. */
  datatype Keyboard = Keyboard(liveliness: Option<Token>, device: InputDevice, keyboard: Ptr)

  /** The weak handle: `handle` is the `Weak` side of the token. */
  datatype KeyboardHandle = KeyboardHandle(handle: Token, device: InputDevice, keyboard: Ptr)

  const DoubleBorrow := "Double mutable borrows detected"
  const LockInIncorrectState := "Lock in incorrect state!"
  const CannotDowngrade := "Cannot downgrade previously upgraded KeyboardHandle!"
  const LockOnBorrowed := "Tried to set lock on borrowed Keyboard"

  // ---------------------------------------------------------------------
  // Token transitions as values
  // ---------------------------------------------------------------------

  /** How one operation on a token ended, and the token's state afterwards. */
  datatype Step<+T> = Step(outcome: Outcome<T>, after: TokenState)

  /** `KeyboardHandle::upgrade`; the value says whether a `Keyboard` came back. */
  function UpgradeStep(s: TokenState): Step<bool>
  {
    if !s.alive then Step(Normal(false), s)
    else if s.borrowed then Step(Panicked(DoubleBorrow), s)
    else Step(Normal(true), s.(borrowed := true))
  }

  /**
   * What a `run` closure can do that the token observes. Any other code in
   * the closure (`set_keymap`, `update_led`, `get_modifiers`, `as_ptr`) is an
   * `Accessor`. `NestedUpgrade` is an `upgrade` of a handle to the same
   * token, which is also the first thing a nested `run` does.
   * `OriginalSetLock` is `set_lock` on the original `Keyboard`, as a dispatch
   * bracket for this keyboard would do.
   */
  datatype Action =
    | Accessor
    | Downgrade
    | OwnerDropped
    | NestedUpgrade
    | OriginalSetLock(value: bool)

  /** A `run` closure: what it does to the token, and the value it returns. */
  datatype Closure<R> = Closure(actions: seq<Action>, result: R)

  function ActionStep(s: TokenState, a: Action): Step<()>
  {
    match a
    case Accessor => Step(Normal(()), s)
    case Downgrade => Step(Panicked(CannotDowngrade), s)
    case OwnerDropped => Step(Normal(()), s.(alive := false))
    case NestedUpgrade =>
      var up := UpgradeStep(s);
      Step(if up.outcome.Normal? then Normal(()) else up.outcome.Propagate(), up.after)
    case OriginalSetLock(v) => Step(Normal(()), s.(borrowed := v))
  }

  /** The closure's actions in order, stopping at the first one that does not return. */
  function ClosureStep(s: TokenState, actions: seq<Action>): Step<()>
    decreases |actions|
  {
    if actions == [] then Step(Normal(()), s)
    else
      var prefix := ClosureStep(s, actions[..|actions| - 1]);
      if prefix.outcome.Normal? then ActionStep(prefix.after, actions[|actions| - 1]) else prefix
  }

  /** `KeyboardHandle::run`; the value says whether the closure was called. */
  function RunStep(s: TokenState, actions: seq<Action>): Step<bool>
  {
    var up := UpgradeStep(s);
    if up.outcome != Normal(true) then up
    else
      var body := ClosureStep(up.after, actions);
      if !body.outcome.Normal? then Step(body.outcome.Propagate(), body.after)
      else if !body.after.alive then Step(Normal(true), body.after)
      else if !body.after.borrowed then Step(Panicked(LockInIncorrectState), body.after)
      else Step(Normal(true), body.after.(borrowed := false))
  }

  /** The value `run` hands back, given how its token transition ended. */
  function RunResult<R>(o: Outcome<bool>, result: R): Outcome<Option<R>>
  {
    match o
    case Normal(called) => Normal(if called then Some(result) else None)
    case _ => o.Propagate()
  }

  /** Operations made on one token from outside any closure. */
  datatype Op = UpgradeOp | RunOp(actions: seq<Action>) | SetLockOp(value: bool) | DropOp

  /**
   * One operation. The bool says whether an upgrade handed back a keyboard
   * or a `run` called its closure; a lock write and a drop do neither.
   */
  function OpStep(s: TokenState, op: Op): Step<bool>
  {
    match op
    case UpgradeOp => UpgradeStep(s)
    case RunOp(actions) => RunStep(s, actions)
    case SetLockOp(v) => Step(Normal(false), s.(borrowed := v))
    case DropOp => Step(Normal(false), s.(alive := false))
  }

  /** The steps of `ops` applied one after another. */
  function Trace(s: TokenState, ops: seq<Op>): (r: seq<Step<bool>>)
    ensures |r| == |ops|
    decreases |ops|
  {
    if ops == [] then [] else
      var first := OpStep(s, ops[0]);
      [first] + Trace(first.after, ops[1..])
  }

  /** Closures whose actions neither borrow nor lock: foreign accessors, and the owner going away. */
  predicate NonNesting(actions: seq<Action>)
  {
    forall i :: 0 <= i < |actions| ==> actions[i] == Accessor || actions[i] == OwnerDropped
  }

  // ---------------------------------------------------------------------
  // Handles
  // ---------------------------------------------------------------------

  /** The tokens a `Keyboard` owns: its own, or none when it is an upgraded one. */
  function Footprint(k: Keyboard): set<Token>
  {
    if k.liveliness.Some? then {k.liveliness.value} else {}
  }

  /** `Keyboard::new_from_input_device`: a fresh token for a keyboard device, nothing for any other. */
  method NewFromInputDevice(device: WlrInputDevice) returns (r: Option<Keyboard>)
    ensures r.Some? <==> device.kind == KeyboardDevice
    ensures r.Some? ==>
      && r.value.liveliness.Some?
      && fresh(r.value.liveliness.value)
      && r.value.liveliness.value.State() == TokenState(true, false)
      && r.value.device == InputDevice(device.address)
      && r.value.keyboard == device.keyboard
  {
    match device.kind
    case KeyboardDevice =>
      var token := new Token();
      r := Some(Keyboard(Some(token), InputDevice(device.address), device.keyboard));
    case _ =>
      r := None;
  }

  /** `Keyboard::from_handle`: an unchecked keyboard built from the handle's cached data. */
  function FromHandle(h: KeyboardHandle): (r: Keyboard)
    ensures Footprint(r) == {}
    ensures WeakReference(r).Panicked?
  {
    Keyboard(None, h.device, h.keyboard)
  }

  /** `Keyboard::weak_reference`. */
  function WeakReference(k: Keyboard): (r: Outcome<KeyboardHandle>)
    ensures r.Normal? <==> k.liveliness.Some?
  {
    match k.liveliness
    case None => Panicked(CannotDowngrade)
    case Some(token) => Normal(KeyboardHandle(token, k.device, k.keyboard))
  }

  /** `Keyboard::set_lock`. */
  method SetLock(k: Keyboard, value: bool) returns (r: Outcome<()>)
    modifies Footprint(k)
    ensures k.liveliness.None? ==> r == Panicked(LockOnBorrowed)
    ensures k.liveliness.Some? ==>
      r == Normal(()) && k.liveliness.value.State() == old(k.liveliness.value.State()).(borrowed := value)
  {
    match k.liveliness
    case None =>
      r := Panicked(LockOnBorrowed);
    case Some(token) =>
      token.Store(value);
      r := Normal(());
  }

  /**
   * Dropping a `Keyboard`. An original one held the token's only strong
   * reference (the upgrade's temporary one is released at once), so the
   * token dies; an upgraded one owns nothing and changes nothing.
   */
  method DropKeyboard(k: Keyboard)
    modifies Footprint(k)
    ensures k.liveliness.Some? ==>
      k.liveliness.value.State() == old(k.liveliness.value.State()).(alive := false)
  {
    if k.liveliness.Some? {
      k.liveliness.value.Kill();
    }
  }

  /** `KeyboardHandle::upgrade`. */
  method Upgrade(h: KeyboardHandle) returns (r: Outcome<Option<Keyboard>>)
    modifies h.handle
    ensures !old(h.handle.alive) ==> r == Normal(None)
    ensures old(h.handle.alive) && old(h.handle.borrowed) ==> r == Panicked(DoubleBorrow)
    ensures old(h.handle.alive) && !old(h.handle.borrowed) ==> r == Normal(Some(FromHandle(h)))
    ensures h.handle.State() == UpgradeStep(old(h.handle.State())).after
  {
    if !h.handle.alive {
      return Normal(None);
    }
    var keyboard := FromHandle(h);
    if h.handle.borrowed {
      return Panicked(DoubleBorrow);
    }
    h.handle.Store(true);
    r := Normal(Some(keyboard));
  }

  /**
   * The body of a `run` closure, given the upgraded keyboard `kb` it was
   * handed. Each action is carried out with the operation it stands for.
   */
  method Perform(h: KeyboardHandle, kb: Keyboard, actions: seq<Action>) returns (r: Outcome<()>)
    requires kb.liveliness.None?
    modifies h.handle
    ensures r == ClosureStep(old(h.handle.State()), actions).outcome
    ensures h.handle.State() == ClosureStep(old(h.handle.State()), actions).after
  {
    ghost var start := h.handle.State();
    var original := Keyboard(Some(h.handle), h.device, h.keyboard);
    r := Normal(());
    var i := 0;
    while i < |actions|
      invariant 0 <= i <= |actions|
      invariant r == Normal(())
    invariant ClosureStep(start, actions[..i]) == Step(Normal(()), h.handle.State())
    {
      assert actions[..i + 1][..i] == actions[..i];
      ghost var before := h.handle.State();
      match actions[i] {
        case Accessor =>
        case Downgrade =>
          var w := WeakReference(kb);
          r := w.Propagate();
        case OwnerDropped =>
          DropKeyboard(original);
        case NestedUpgrade =>
          var again := Upgrade(h);
          if !again.Normal? {
            r := again.Propagate();
          }
        case OriginalSetLock(v) =>
          r := SetLock(original, v);
      }
      assert Step(r, h.handle.State()) == ActionStep(before, actions[i]);
      if !r.Normal? {
        ClosureStopsAtFailure(start, actions, i + 1);
        return;
      }
      i := i + 1;
    }
    assert actions[..i] == actions;
  }

  /** `KeyboardHandle::run`; `calls` counts the closure's invocations. */
  method Run<R>(h: KeyboardHandle, runner: Closure<R>) returns (r: Outcome<Option<R>>, ghost calls: nat)
    modifies h.handle
    ensures r == RunResult(RunStep(old(h.handle.State()), runner.actions).outcome, runner.result)
    ensures h.handle.State() == RunStep(old(h.handle.State()), runner.actions).after
    ensures calls == if old(h.handle.alive) && !old(h.handle.borrowed) then 1 else 0
  {
    calls := 0;
    var keyboard := Upgrade(h);
    if keyboard == Normal(None) {
      r := Normal(None);
    } else if keyboard.Normal? {
      var kb := keyboard.value.value;
      calls := 1;
      var body := Perform(h, kb, runner.actions);
      if !body.Normal? {
        return body.Propagate(), calls;
      }
      var res := Some(runner.result);
      if h.handle.alive {
        if !h.handle.borrowed {
          return Panicked(LockInIncorrectState), calls;
        }
        h.handle.Store(false);
      }
      r := Normal(res);
    } else {
      r := keyboard.Propagate();
    }
  }

  // ---------------------------------------------------------------------
  // What the single-borrow check guarantees
  // ---------------------------------------------------------------------

  /** A closure's outcome over `a + b` is that of `a` followed by `b`, unless `a` already stopped. */
  lemma {:induction false} ClosureAppend(s: TokenState, a: seq<Action>, b: seq<Action>)
    ensures ClosureStep(s, a + b) ==
      (var first := ClosureStep(s, a);
       if first.outcome.Normal? then ClosureStep(first.after, b) else first)
    decreases |b|
  {
    if b == [] {
      assert a + b == a;
    } else {
      var b' := b[..|b| - 1];
      assert (a + b)[..|a + b| - 1] == a + b';
      assert (a + b)[|a + b| - 1] == b[|b| - 1];
      ClosureAppend(s, a, b');
    }
  }

  /** Once a closure stops (panics), later actions change nothing. */
  lemma ClosureStopsAtFailure(s: TokenState, actions: seq<Action>, n: nat)
    requires n <= |actions|
    requires !ClosureStep(s, actions[..n]).outcome.Normal?
    ensures ClosureStep(s, actions) == ClosureStep(s, actions[..n])
  {
    assert actions == actions[..n] + actions[n..];
    ClosureAppend(s, actions[..n], actions[n..]);
  }

  /** Upgrading yields a keyboard exactly when the token is alive and not borrowed, and then sets the flag. */
  lemma UpgradeIsSingleCheckout(s: TokenState)
    ensures UpgradeStep(s).outcome == Normal(false) <==> !s.alive
    ensures UpgradeStep(s).outcome == Normal(true) <==> s.alive && !s.borrowed
    ensures UpgradeStep(s).outcome == Normal(true) ==> UpgradeStep(s).after == TokenState(true, true)
    ensures UpgradeStep(s).outcome != Normal(true) ==> UpgradeStep(s).after == s
  {
  }

  /** While one upgraded keyboard is checked out, a second upgrade of the same token panics. */
  lemma SecondUpgradePanics(s: TokenState)
    requires UpgradeStep(s).outcome == Normal(true)
    ensures UpgradeStep(UpgradeStep(s).after) == Step(Panicked(DoubleBorrow), TokenState(true, true))
  {
  }

  /** On a dead token `run` hands back `None` and the closure is not called. */
  lemma RunOnDeadToken(s: TokenState, actions: seq<Action>)
    requires !s.alive
    ensures RunStep(s, actions) == Step(Normal(false), s)
  {
  }

  /** A closure that only calls accessors (and may see its owner dropped) keeps the flag and returns. */
  lemma {:induction false} NonNestingClosureKeepsFlag(s: TokenState, actions: seq<Action>)
    requires NonNesting(actions)
    ensures ClosureStep(s, actions).outcome == Normal(())
    ensures ClosureStep(s, actions).after.borrowed == s.borrowed
    ensures ClosureStep(s, actions).after.alive == (s.alive && OwnerDropped !in actions)
    decreases |actions|
  {
    if actions != [] {
      var prefix := actions[..|actions| - 1];
      assert actions == prefix + [actions[|actions| - 1]];
      assert NonNesting(prefix) by {
        forall i | 0 <= i < |prefix| ensures prefix[i] == actions[i] { }
      }
      NonNestingClosureKeepsFlag(s, prefix);
    }
  }

  /**
   * A non-nested `run` on a live, unlocked token calls the closure and hands
   * back its result, even if the owner was dropped meanwhile. If the token
   * survives, its flag is false again; if it died, `run` leaves the flag
   * alone (nobody can observe it any more).
   */
  lemma NonNestedRunUnlocks(s: TokenState, actions: seq<Action>)
    requires s.alive && !s.borrowed
    requires NonNesting(actions)
    ensures RunStep(s, actions).outcome == Normal(true)
    ensures RunStep(s, actions).after ==
      if OwnerDropped in actions then TokenState(false, true) else TokenState(true, false)
  {
    NonNestingClosureKeepsFlag(TokenState(true, true), actions);
  }

  /** Inside a `run` closure, an upgrade of the same live token panics with the double-borrow message. */
  lemma NestedUpgradeInRunPanics(s: TokenState, before: seq<Action>, after: seq<Action>)
    requires s.alive && !s.borrowed
    requires forall i :: 0 <= i < |before| ==> before[i] == Accessor
    ensures RunStep(s, before + [NestedUpgrade] + after).outcome == Panicked(DoubleBorrow)
  {
    var locked := TokenState(true, true);
    assert NonNesting(before);
    NonNestingClosureKeepsFlag(locked, before);
    assert ClosureStep(locked, before).after.alive by {
      AccessorsKeepAlive(locked, before);
    }
    ClosureAppend(locked, before, [NestedUpgrade]);
    ClosureAppend(locked, before + [NestedUpgrade], after);
  }

  lemma {:induction false} AccessorsKeepAlive(s: TokenState, actions: seq<Action>)
    requires forall i :: 0 <= i < |actions| ==> actions[i] == Accessor
    ensures ClosureStep(s, actions) == Step(Normal(()), s)
    decreases |actions|
  {
    if actions != [] {
      AccessorsKeepAlive(s, actions[..|actions| - 1]);
    }
  }

  /** A dead token stays dead whatever is done with it, and every upgrade or run then hands back `None`. */
  lemma {:induction false} DeadTokenIsAbsentForever(s: TokenState, ops: seq<Op>)
    requires !s.alive
    ensures forall i :: 0 <= i < |ops| ==> !Trace(s, ops)[i].after.alive
    ensures forall i :: 0 <= i < |ops| && (ops[i].UpgradeOp? || ops[i].RunOp?) ==>
      Trace(s, ops)[i].outcome == Normal(false)
    decreases |ops|
  {
    if ops != [] {
      var first := OpStep(s, ops[0]);
      assert !first.after.alive;
      DeadTokenIsAbsentForever(first.after, ops[1..]);
      assert forall i :: 1 <= i < |ops| ==> Trace(s, ops)[i] == Trace(first.after, ops[1..])[i - 1];
    }
  }

  /** A handle made by `weak_reference` upgrades to a keyboard with the original's device and pointer. */
  lemma WeakReferenceRoundTrip(k: Keyboard)
    requires k.liveliness.Some?
    ensures WeakReference(k).Normal?
    ensures WeakReference(k).value.handle == k.liveliness.value
    ensures FromHandle(WeakReference(k).value) == k.(liveliness := None)
  {
  }

  /** An upgraded keyboard cannot be downgraded again. */
  lemma UpgradedCannotDowngrade(h: KeyboardHandle)
    ensures WeakReference(FromHandle(h)) == Panicked(CannotDowngrade)
  {
  }
}
