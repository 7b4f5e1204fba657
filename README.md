# wlroots-rs handles, locks and dispatch, in Dafny

This project models the safety substrate of wlroots-rs, the Rust bindings to
the wlroots compositor library, and proves properties of that model:

- **Liveliness-tracked keyboard handles** (`src/types/keyboard.rs`). A
  `Keyboard` is the strong handle. It owns an `Rc<AtomicBool>` token, or no
  token when it came from an upgrade. A `KeyboardHandle` is the weak side.
  `upgrade`, `run`, `set_lock` and `weak_reference` form the crate's
  run-time single-borrow check. The token is the class `Liveliness.Token`:
  `alive` says whether the strong owner still exists, and `borrowed` is the
  atomic flag. Its transitions are the functions `UpgradeStep`,
  `ClosureStep` and `RunStep` on `TokenState` values. The methods that change
  the shared token are proved against those functions. The `Display` of
  `KeyboardModifier` and the masking in `get_modifiers` are in
  `keyboard_modifier.dfy`.
- **The dispatch bracket** (`src/manager/xdg_shell_v6_handler.rs`). Each of
  the nine listeners of an `XdgV6Shell` does the same four things:
  1. it sets the compositor lock and the locks of the shell surface and the
     surface;
  2. it calls one method of the user's `XdgV6ShellHandler`;
  3. it clears the two resource locks;
  4. it clears the compositor lock.

  `XdgV6Shell.Notify` models one listener call. Ghost logs record the lock
  writes and the handler calls, so that their order can be stated.
- **Utilities** (`src/utils.rs`):
  - `to_ms`, with explicit `u32` truncation and wrap-around;
  - `c_to_rust_string` over a byte memory;
  - `safe_as_cstring`, whose bad-input path is the `exit(1)` outcome;
  - `handle_unwind`'s choice between doing nothing, aborting, and saving the
    panic then terminating the compositor.
- **Pointer bookkeeping** of the example compositor
  (`how-to-make-a-wayland-compositor/src/4-breaking-out-of-your-shell/pointer.rs`).
  `pointer_added` and `destroyed` update a set of pointer handles and the
  seat's capability set. Together they keep "the pointer capability is
  offered ⇔ some pointer is known".

Panics, `exit` and `abort` are explicit outcomes (`Outcomes.Outcome`), not
preconditions. Raw pointers are addresses (`nat`).

Two properties of the listener code matter for users of the locks:
- The listeners have no cleanup path. When a handler panics, the unwind
  leaves the listener before the release writes, so all three locks stay
  set (`XdgV6Shell.Notify`, `BracketOutcome`).
- The locks are taken compositor, shell surface, surface, and released
  shell surface, surface, compositor. That is not the reverse of the order
  in which they were taken (`LockOrder`).

## Model

| member | source | states |
|---|---|---|
| `Liveliness.Token.constructor` | src/types/keyboard.rs:55 | A new token is alive with its flag false. |
| `Liveliness.Token.Store` | src/types/keyboard.rs:119-123 | Storing into the flag changes the flag only, never liveness. |
| `Keyboard.NewFromInputDevice` | src/types/keyboard.rs:50-61 | A keyboard-type device yields a `Keyboard` with a fresh, live, unborrowed token, the device and its keyboard pointer. Any other device type yields `None`. |
| `Keyboard.WeakReference` | src/types/keyboard.rs:103-112 | Succeeds exactly for an original keyboard (one that owns a token). Panics for an upgraded one. |
| `Keyboard.FromHandle` | src/types/keyboard.rs:63-67 | An upgraded keyboard owns no token. Dropping it or setting its lock touches no token, and `weak_reference` on it panics. |
| `Keyboard.WeakReferenceRoundTrip` | src/types/keyboard.rs:103-112 | The weak handle observes the original's own token. Upgrading it rebuilds the original's device and pointer with no token. |
| `Keyboard.UpgradedCannotDowngrade` | src/types/keyboard.rs:98-105 | `weak_reference` on a keyboard built by `from_handle` panics with "Cannot downgrade previously upgraded KeyboardHandle!". |
| `Keyboard.SetLock` | src/types/keyboard.rs:119-123 | On an original, stores the value into the flag and changes nothing else. On an upgraded keyboard, panics and changes nothing. |
| `Keyboard.DropKeyboard` | src/types/keyboard.rs:126-144 | Dropping the original kills its token and keeps the flag. Dropping an upgraded keyboard changes nothing. |
| `Keyboard.Upgrade` | src/types/keyboard.rs:156-170 | Dead token: `None`, nothing changes. Live and borrowed: panics "Double mutable borrows detected", nothing changes. Live and free: sets the flag and returns the upgraded keyboard built from the handle's device and pointer. |
| `Keyboard.UpgradeIsSingleCheckout` | src/types/keyboard.rs:156-170 | An upgrade is absent iff the token is dead. It yields a keyboard iff the token is alive and unborrowed, and then leaves the flag set. Otherwise the token is untouched. |
| `Keyboard.SecondUpgradePanics` | src/types/keyboard.rs:161-169 | While one upgraded keyboard is checked out, a second upgrade of the same token panics. |
| `Keyboard.Perform` | src/types/keyboard.rs:188-195 | The closure's actions are carried out with the model's own operations (`weak_reference`, `upgrade`, `set_lock`, drop). Its outcome and the token's new state are exactly `ClosureStep`. |
| `Keyboard.Run` | src/types/keyboard.rs:188-208 | The result and the token's new state are `RunStep`'s. The closure is called exactly once when the upgrade succeeds, and never otherwise. A called closure's result comes back as `Some`, even when the token died during the closure. |
| `Keyboard.RunOnDeadToken` | src/types/keyboard.rs:191-193 | On a dead token, `run` returns `None` and the token is unchanged. |
| `Keyboard.NonNestedRunUnlocks` | src/types/keyboard.rs:191-206 | A closure that neither borrows nor locks gets its result returned. If the token survives, its flag is false afterwards. If the owner was dropped meanwhile, the dead token keeps its flag. |
| `Keyboard.NestedUpgradeInRunPanics` | src/types/keyboard.rs:182-195 | In a `run` on a live, free token, an upgrade of the same token inside the closure panics with the double-borrow message. This holds after any number of accessor calls and whatever the closure would do next. |
| `Keyboard.DeadTokenIsAbsentForever` | src/types/keyboard.rs:156-161 | After the owner is dropped, no sequence of upgrades, runs, lock writes or drops revives the token. Every upgrade and run then returns `None`. |
| `KeyboardModifier.FromBitsTruncate` | src/types/keyboard.rs:92-96 | The result has no bit outside the eight known flags. It contains each known flag exactly when the input does. |
| `KeyboardModifier.Kept` | src/types/keyboard.rs:253-256 | The filter keeps only positions whose flag is set, from the starting position on. |
| `KeyboardModifier.NamesAreSetFlagsInOrder` | src/types/keyboard.rs:242-259 | `Display` names exactly the table entries whose flag is set, in table order: Shift, Caps lock, Ctrl, Alt, Mod2, Mod3, Logo, Mod5. |
| `KeyboardModifier.Display` | src/types/keyboard.rs:242-259 | The text is a bracketed `{:?}` list. Its entries are given by `NamesAreSetFlagsInOrder`. |
| `KeyboardModifier.DisplayEmptyIff` | src/types/keyboard.rs:242-259 | The display is `[]` exactly when none of the eight known flags is set. |
| `KeyboardModifier.TruncateKeepsDisplay` | src/types/keyboard.rs:94 | Unknown bits never show: displaying the truncated modifiers gives the same text. |
| `KeyboardModifier.DisplayNone` | src/types/keyboard.rs:253-258 | The empty modifier set displays as `[]`. |
| `KeyboardModifier.NamesOfCtrlShift` | src/types/keyboard.rs:244-256 | Ctrl with Shift lists `["Shift", "Ctrl"]`: table order, not bit order of the argument. |
| `XdgShellV6Handler.XdgV6Shell.Notify` | src/manager/xdg_shell_v6_handler.rs:68-186 | Exactly one handler call, the one `Decode` selects for the listener, made while all three locks are held. The lock writes are the full bracket when the handler returns and only the acquisitions when it panics. Afterwards the locks are all free or all held accordingly, whatever they were on entry. The compositor's other state and the tokens' liveness are unchanged. |
| `XdgShellV6Handler.Decode` | src/manager/xdg_shell_v6_handler.rs:75-182 | No listener calls `destroy`. A listener passes an event to its handler method exactly when it is one of the fullscreen, move, resize and show-window-menu listeners. |
| `XdgShellV6Handler.AcquireHoldsAll` | src/manager/xdg_shell_v6_handler.rs:72-75 | Whatever the entry state, the three acquisitions leave all three locks held. |
| `XdgShellV6Handler.BracketOutcome` | src/manager/xdg_shell_v6_handler.rs:72-78 | From any entry state, the writes of a returning dispatch end with all locks free. A panicking dispatch ends with all locks held. |
| `XdgShellV6Handler.LockOrder` | src/manager/xdg_shell_v6_handler.rs:72-78 | The compositor lock is written first and last and nowhere in between. The shell surface's lock is cleared before the surface's. |
| `XdgShellV6Handler.DecodeSelectsOwnMethod` | src/manager/xdg_shell_v6_handler.rs:67-186 | Each listener calls the handler method of its own event, so no two listeners share a method. |
| `XdgShellV6Handler.DecodeReachesEveryMethod` | src/manager/xdg_shell_v6_handler.rs:14-64 | Every trait method except `destroy` is called by some listener, with the event it was given. |
| `XdgShellV6Handler.OnlyFourListenersUseData` | src/manager/xdg_shell_v6_handler.rs:120-177 | Only the fullscreen, move, resize and show-window-menu listeners depend on the data pointer, and they pass it on as the event. |
| `XdgShellV6Handler.DefaultHandlerOnlyLocks` | src/manager/xdg_shell_v6_handler.rs:14-64 | With the trait's no-op methods every dispatch returns, and its net effect on the locks is all free. |
| `XdgShellV6Handler.XdgV6Shell.SurfaceMut` | src/manager/xdg_shell_v6_handler.rs:194-196 | `surface_mut` hands out the shell surface (`data.0`) whose token is the one every listener call locks: the shell-surface flag of `CurrentLocks`. |
| `Utils.ToMs` | src/utils.rs:61-66 | The `u32` steps of `to_ms` equal one wrap of the exact sum `(secs as u32)·1000 + nanos/10^6` mod 2^32. When secs·1000 + 999 fits in a `u32`, the result is the duration floored to whole milliseconds. |
| `Utils.ToMsIsFlooredMillis` | src/utils.rs:61-66 | The nanosecond term is below 1000. When seconds·1000 + 999 fits in a `u32`, no overflow occurs and the result is the duration floored to whole milliseconds. |
| `Utils.ToMsDropsHighSeconds` | src/utils.rs:63 | `as u32` cuts the seconds first: 2^32 seconds give 0 ms. |
| `Utils.StrLen` | src/utils.rs:92 | `CStr::from_ptr` reads up to the first NUL at or after the pointer. |
| `Utils.CToRustString` | src/utils.rs:88-94 | `None` exactly for a null pointer. Otherwise the bytes from the pointer up to, not including, the first NUL. |
| `Utils.NewCString` | src/utils.rs:75 | `CString::new` succeeds exactly when the bytes hold no NUL, and keeps them. Otherwise it reports the first NUL's position. |
| `Utils.SafeAsCString` | src/utils.rs:72-84 | Returns a C string of the input bytes when no byte is 0. Otherwise the outcome is `exit(1)`. |
| `Utils.CStringRoundTrip` | src/utils.rs:72-94 | Reading back the NUL-terminated buffer of `safe_as_cstring(s)` with `c_to_rust_string` gives `s`. |
| `Utils.ReadBytesConvertBack` | src/utils.rs:72-94 | The bytes `c_to_rust_string` reads always convert back with `safe_as_cstring`, without exiting. |
| `Utils.HandleUnwind` | src/utils.rs:101-112 | `Ok` does nothing. `Err` with no compositor aborts. `Err` with a compositor saves the payload and then terminates, in that order, and leaves its lock alone. |
| `CompositorState.Compositor.SavePanicError` | src/utils.rs:108 | Records the payload and changes nothing else. |
| `CompositorState.Compositor.Terminate` | src/utils.rs:109 | Stops the event loop and changes nothing else. |
| `PointerInputs.PointerAdded` | how-to-make-a-wayland-compositor/src/4-breaking-out-of-your-shell/pointer.rs:61-82 | Always returns `Some(PointerHandler)`. The new bookkeeping is `AfterAdded`: the handle inserted, plus the pointer capability when the set now has size 1. |
| `PointerInputs.Destroyed` | how-to-make-a-wayland-compositor/src/4-breaking-out-of-your-shell/pointer.rs:43-57 | The new bookkeeping is `AfterDestroyed`: the handle removed, minus the pointer capability when the set is now empty. |
| `PointerInputs.AddedKeepsConsistent` | how-to-make-a-wayland-compositor/src/4-breaking-out-of-your-shell/pointer.rs:71-77 | Adding inserts the handle and preserves "pointer capability ⇔ pointers non-empty". |
| `PointerInputs.DestroyedKeepsConsistent` | how-to-make-a-wayland-compositor/src/4-breaking-out-of-your-shell/pointer.rs:50-56 | Destroying removes the handle and preserves the same invariant. |
| `PointerInputs.OtherCapabilitiesUntouched` | how-to-make-a-wayland-compositor/src/4-breaking-out-of-your-shell/pointer.rs:50-77 | Neither operation changes any capability but the pointer one. |
| `PointerInputs.CapabilityFollowsFirstAndLast` | how-to-make-a-wayland-compositor/src/4-breaking-out-of-your-shell/pointer.rs:50-77 | In a consistent state, adding changes the pointer capability iff there was no pointer before. Destroying h removes it iff h was the only pointer, or there was none. |
| `PointerInputs.SecondPointerChangesNothing` | how-to-make-a-wayland-compositor/src/4-breaking-out-of-your-shell/pointer.rs:50-77 | Adding a second pointer, then removing one of the two, leaves the capabilities as they were. |
| `PointerInputs.PlugTwoPointersScenario` | how-to-make-a-wayland-compositor/src/4-breaking-out-of-your-shell/pointer.rs:50-77 | Add P1 → {Pointer}; add P2 → unchanged; destroy P1 → unchanged; destroy P2 → back to the original capabilities. |

## Left out

- `set_keymap`, `update_led` and the C call inside `get_modifiers` are foreign calls. The raw modifier word is a parameter of `FromBitsTruncate`.
- The `wlr_log!` messages (in `Drop for Keyboard`, `upgrade`, `run`, `safe_as_cstring`) are only logging. Dropping an original `Keyboard` is modelled as killing its token.
- Reference counts are not modelled beyond "the strong owner exists". The original is the token's only long-lived strong owner: `upgrade` and `run` drop their temporary `Rc` at once.
- Keyboard.Run: the closure is a script of the actions the token can observe. A nested `run` is modelled by its first step, the nested `upgrade`: its own closure and final clear are not modelled.
- XdgShellV6Handler.XdgV6Shell.Notify: the handler's effect is only "returns" or "panics with a payload". Its effects on the compositor, the surfaces or other resources through their public API are not modelled.
- `Surface::set_lock` and `XdgV6ShellSurface::set_lock` (src/types/surface.rs and the xdg-shell surface type) are not part of this model. They are taken to store into their own tokens like `Keyboard::set_lock`. The listener is assumed to hold the original handles, which own tokens, so these calls cannot panic.
- XdgShellV6Handler.XdgV6Shell.SurfacePtr: `surface_ptr` is a plain field read (`data.0.as_ptr()`). Its contract only names it as the pointer of the handle `SurfaceMut` returns, and no further property is stated about it.
- The `wayland_listener!` macro, its `catch_unwind`, and the unchecked `from_ptr` event casts are not modelled. A listener's panic is `Notify`'s `Panicked` outcome, and `HandleUnwind` models what is then done with it.
- `COMPOSITOR_PTR` is a parameter. `Compositor::save_panic_error` and `compositor::terminate` (src/compositor.rs, not part of this model) are reduced to recording the payload and stopping the event loop.
- Utils.CToRustString: `to_string_lossy`'s UTF-8 decoding, which replaces invalid sequences by U+FFFD, is not modelled. The result is the bytes read, which equal the string's bytes whenever they are valid UTF-8.
- `to_ms` is modelled with `u32` wrap-around, as in a release build. `ToMsOverflows` states when a debug build panics instead.
- `init_logging`, `log_callback` and `dummy_callback` are C logging glue; `current_time` is a clock system call.
- The `Edges` and `KeyboardLed` bit flags are not modelled.
- The motion handlers in pointer.rs, the cursor image and `attach_input_device` are float coordinates and cursor FFI.
- src/render/renderer.rs and wlroots-sys/src/lib.rs are forwarding calls into C.
- Atomic memory orderings: everything runs on one thread.
