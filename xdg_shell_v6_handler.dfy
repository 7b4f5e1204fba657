/**
 * The dispatch bracket around the user's `XdgV6ShellHandler`: each of the
 * nine listeners of an `XdgV6Shell` sets the compositor lock and the locks
 * of the shell surface and the surface, calls one handler method, and
 * clears the locks again.
 *
 * The handler is user code; the bracket sees only whether the call
 * returned or panicked. The lock writes and the handler deliveries are
 * recorded in ghost logs so that their order can be stated; `Replay` gives
 * the lock state a sequence of writes leads to.
 */
module XdgShellV6Handler {
  import opened Outcomes
  import opened Liveliness
  import opened CompositorState

  /** The nine listeners of `wayland_listener!(XdgV6Shell, …)`. */
  datatype Listener =
    | CommitListener
    | PingTimeoutListener
    | NewPopupListener
    | MaximizeListener
    | FullscreenListener
    | MinimizeListener
    | MoveListener
    | ResizeListener
    | ShowWindowMenuListener

  /** The event wrappers, each built unchecked from the listener's data pointer by `from_ptr`. */
  datatype SetFullscreenEvent = SetFullscreenEvent(event: Ptr)
  datatype MoveEvent = MoveEvent(event: Ptr)
  datatype ResizeEvent = ResizeEvent(event: Ptr)
  datatype ShowWindowMenuEvent = ShowWindowMenuEvent(event: Ptr)

  /** A call of one `XdgV6ShellHandler` method, with the event it is given. */
  datatype Request =
    | OnCommit
    | Destroy
    | PingTimeout
    | NewPopup
    | MaximizeRequest
    | MinimizeRequest
    | MoveRequest(moveEvent: MoveEvent)
    | ResizeRequest(resizeEvent: ResizeEvent)
    | FullscreenRequest(fullscreenEvent: SetFullscreenEvent)
    | ShowWindowMenuRequest(menuEvent: ShowWindowMenuEvent)

  /** How a handler method call ends, as far as the bracket can tell. */
  datatype Reaction = Returns | Panics(payload: PanicPayload)

  /** The user's `Box<XdgV6ShellHandler>`: how each method call ends. */
  datatype Handler = Handler(react: Request -> Reaction)

  /** The trait's provided methods, all with empty bodies. */
  const DefaultHandler := Handler(_ => Returns)

  /** The shell surface and the surface, as original handles that may own a token. */
  datatype XdgV6ShellSurface = XdgV6ShellSurface(liveliness: Option<Token>, shellSurface: Ptr)
  datatype Surface = Surface(liveliness: Option<Token>, surface: Ptr)

  /** The listeners whose data pointer is an event for the handler. */
  predicate CarriesEvent(l: Listener)
  {
    l == FullscreenListener || l == MoveListener || l == ResizeListener || l == ShowWindowMenuListener
  }

  /** Which handler method a listener calls, and with which event built from `data`. */
  function Decode(l: Listener, data: Ptr): (r: Request)
    ensures !r.Destroy?
    ensures CarriesEvent(l) <==>
      r.MoveRequest? || r.ResizeRequest? || r.FullscreenRequest? || r.ShowWindowMenuRequest?
  {
    match l
    case CommitListener => OnCommit
    case PingTimeoutListener => PingTimeout
    case NewPopupListener => NewPopup
    case MaximizeListener => MaximizeRequest
    case FullscreenListener => FullscreenRequest(SetFullscreenEvent(data))
    case MinimizeListener => MinimizeRequest
    case MoveListener => MoveRequest(MoveEvent(data))
    case ResizeListener => ResizeRequest(ResizeEvent(data))
    case ShowWindowMenuListener => ShowWindowMenuRequest(ShowWindowMenuEvent(data))
  }

  /** The listener that calls a handler method; `destroy` has none in this file. */
  function ListenerFor(r: Request): Option<Listener>
  {
    match r
    case OnCommit => Some(CommitListener)
    case Destroy => None
    case PingTimeout => Some(PingTimeoutListener)
    case NewPopup => Some(NewPopupListener)
    case MaximizeRequest => Some(MaximizeListener)
    case MinimizeRequest => Some(MinimizeListener)
    case MoveRequest(_) => Some(MoveListener)
    case ResizeRequest(_) => Some(ResizeListener)
    case FullscreenRequest(_) => Some(FullscreenListener)
    case ShowWindowMenuRequest(_) => Some(ShowWindowMenuListener)
  }

  /** The data pointer an event carries; 0 for a request without one. */
  function DataOf(r: Request): Ptr
  {
    match r
    case MoveRequest(e) => e.event
    case ResizeRequest(e) => e.event
    case FullscreenRequest(e) => e.event
    case ShowWindowMenuRequest(e) => e.event
    case _ => 0
  }

  // ---------------------------------------------------------------------
  // Locks as values
  // ---------------------------------------------------------------------

  /** The three locks a listener touches: the compositor's and the two resources' flags. */
  datatype Locks = Locks(compositor: bool, shellSurface: bool, surface: bool)

  const Idle := Locks(false, false, false)

  /** One write of one lock, in the order the listener makes them. */
  datatype LockWrite = CompositorLock(value: bool) | ShellSurfaceLock(value: bool) | SurfaceLock(value: bool)

  function Apply(l: Locks, w: LockWrite): Locks
  {
    match w
    case CompositorLock(v) => l.(compositor := v)
    case ShellSurfaceLock(v) => l.(shellSurface := v)
    case SurfaceLock(v) => l.(surface := v)
  }

  /** The locks after `writes`, starting from `l`. */
  function Replay(l: Locks, writes: seq<LockWrite>): Locks
    decreases |writes|
  {
    if writes == [] then l else Replay(Apply(l, writes[0]), writes[1..])
  }

  const Acquire: seq<LockWrite> := [CompositorLock(true), ShellSurfaceLock(true), SurfaceLock(true)]
  const Release: seq<LockWrite> := [ShellSurfaceLock(false), SurfaceLock(false), CompositorLock(false)]

  /** The writes of one listener call: all of them when the handler returns, the first three when it panics. */
  function Bracket(reaction: Reaction): seq<LockWrite>
  {
    if reaction.Returns? then Acquire + Release else Acquire
  }

  /** A handler call, with the locks as they were when it was made. */
  datatype Delivery = Delivery(request: Request, locks: Locks)

  class XdgV6Shell {
    /** `data.0`, `data.1` and `data.2` of the listener. */
    const shellSurface: XdgV6ShellSurface
    const surface: Surface
    const manager: Handler
    /** Every lock write this listener made, in order. */
    ghost var writes: seq<LockWrite>
    /** Every handler call this listener made, in order. */
    ghost var deliveries: seq<Delivery>

    /** The listener holds the original handles, which own their tokens. */
    predicate Valid()
    {
      shellSurface.liveliness.Some? && surface.liveliness.Some?
    }

    constructor (shellSurface: XdgV6ShellSurface, surface: Surface, manager: Handler)
      requires shellSurface.liveliness.Some? && surface.liveliness.Some?
      ensures Valid()
      ensures this.shellSurface == shellSurface && this.surface == surface && this.manager == manager
      ensures writes == [] && deliveries == []
    {
      this.shellSurface := shellSurface;
      this.surface := surface;
      this.manager := manager;
      writes := [];
      deliveries := [];
    }

    function ShellToken(): Token
      requires Valid()
    {
      shellSurface.liveliness.value
    }

    function SurfaceToken(): Token
      requires Valid()
    {
      surface.liveliness.value
    }

    function CurrentLocks(compositor: Compositor): Locks
      requires Valid()
      reads compositor, ShellToken(), SurfaceToken()
    {
      Locks(compositor.lock, ShellToken().borrowed, SurfaceToken().borrowed)
    }

    /**
     * One listener call: `listener` fired with `data`. The compositor is
     * the one `COMPOSITOR_PTR` points to. A panicking handler unwinds out of
     * the listener before the locks are cleared.
     */
    method Notify(listener: Listener, data: Ptr, compositor: Compositor) returns (r: Outcome<()>)
      requires Valid()
      modifies this, compositor, ShellToken(), SurfaceToken()
      ensures var reaction := manager.react(Decode(listener, data));
        && deliveries == old(deliveries) + [Delivery(Decode(listener, data), Locks(true, true, true))]
        && writes == old(writes) + Bracket(reaction)
        && CurrentLocks(compositor) == (if reaction.Returns? then Idle else Locks(true, true, true))
        && r == (if reaction.Returns? then Normal(()) else Panicked(reaction.payload))
      ensures compositor.panicError == old(compositor.panicError)
      ensures compositor.running == old(compositor.running)
      ensures compositor.events == old(compositor.events)
      ensures ShellToken().alive == old(ShellToken().alive) && SurfaceToken().alive == old(SurfaceToken().alive)
    {
      var request := Decode(listener, data);

      compositor.lock := true;
      writes := writes + [CompositorLock(true)];
      ShellToken().Store(true);
      writes := writes + [ShellSurfaceLock(true)];
      SurfaceToken().Store(true);
      writes := writes + [SurfaceLock(true)];

      deliveries := deliveries + [Delivery(request, CurrentLocks(compositor))];
      var reaction := manager.react(request);
      if reaction.Panics? {
        return Panicked(reaction.payload);
      }

      ShellToken().Store(false);
      writes := writes + [ShellSurfaceLock(false)];
      SurfaceToken().Store(false);
      writes := writes + [SurfaceLock(false)];
      compositor.lock := false;
      writes := writes + [CompositorLock(false)];
      r := Normal(());
    }

    /** `XdgV6Shell::surface_mut`: the shell surface whose lock every listener call sets. */
    function SurfaceMut(): (r: XdgV6ShellSurface)
      ensures Valid() ==> r.liveliness == Some(ShellToken())
    {
      shellSurface
    }

    /** `XdgV6Shell::surface_ptr`: the pointer of the same shell surface `surface_mut` hands out. */
    function SurfacePtr(): (r: Ptr)
      ensures r == SurfaceMut().shellSurface
    {
      shellSurface.shellSurface
    }
  }

  // ---------------------------------------------------------------------
  // What the bracket guarantees
  // ---------------------------------------------------------------------

  lemma {:induction false} ReplayAppend(l: Locks, a: seq<LockWrite>, b: seq<LockWrite>)
    ensures Replay(l, a + b) == Replay(Replay(l, a), b)
    decreases |a|
  {
    if a == [] {
      assert a + b == b;
    } else {
      assert (a + b)[0] == a[0];
      assert (a + b)[1..] == a[1..] + b;
      ReplayAppend(Apply(l, a[0]), a[1..], b);
    }
  }

  /** Whatever the locks were, all three are held while the handler runs. */
  lemma AcquireHoldsAll(l: Locks)
    ensures Replay(l, Acquire) == Locks(true, true, true)
  {
  }

  /**
   * After a handler that returns, all three locks are free again, whatever
   * they were on entry; after one that panics, all three stay held.
   */
  lemma BracketOutcome(l: Locks, reaction: Reaction)
    ensures Replay(l, Bracket(reaction)) == if reaction.Returns? then Idle else Locks(true, true, true)
  {
    ReplayAppend(l, Acquire, Release);
  }

  /**
   * The compositor lock is taken first and released last; in between only
   * the resource locks are written, and the shell surface's is released
   * before the surface's.
   */
  lemma LockOrder()
    ensures |Bracket(Returns)| == 6
    ensures Bracket(Returns)[0] == CompositorLock(true) && Bracket(Returns)[5] == CompositorLock(false)
    ensures forall i :: 0 < i < 5 ==> !Bracket(Returns)[i].CompositorLock?
    ensures Bracket(Returns)[3] == ShellSurfaceLock(false) && Bracket(Returns)[4] == SurfaceLock(false)
  {
  }

  /** Each listener calls its own handler method, and no two listeners call the same one. */
  lemma DecodeSelectsOwnMethod(l: Listener, data: Ptr)
    ensures ListenerFor(Decode(l, data)) == Some(l)
  {
  }

  /** Every handler method but `destroy` is reached from its listener, with the event it was given. */
  lemma DecodeReachesEveryMethod(r: Request)
    requires !r.Destroy?
    ensures ListenerFor(r).Some?
    ensures Decode(ListenerFor(r).value, DataOf(r)) == r
  {
  }

  /** Only the fullscreen, move, resize and window-menu listeners look at their data pointer. */
  lemma OnlyFourListenersUseData(l: Listener, d1: Ptr, d2: Ptr)
    ensures !CarriesEvent(l) ==> Decode(l, d1) == Decode(l, d2)
    ensures CarriesEvent(l) ==> DataOf(Decode(l, d1)) == d1
  {
  }

  /** With the trait's default methods a dispatch always returns and ends with every lock free. */
  lemma DefaultHandlerOnlyLocks(l: Locks, listener: Listener, data: Ptr)
    ensures DefaultHandler.react(Decode(listener, data)) == Returns
    ensures Replay(l, Bracket(DefaultHandler.react(Decode(listener, data)))) == Idle
  {
    BracketOutcome(l, Returns);
  }
}
