/**
 * The helpers of src/utils.rs that carry logic: the duration-to-milliseconds
 * conversion, the two C string conversions, and the decision taken when a
 * listener's panic has been caught.
 */
module Utils {
  import opened Outcomes
  import opened CompositorState

  const U32Limit: nat := 0x1_0000_0000
  type U32 = n: nat | n < 0x1_0000_0000
  type U64 = n: nat | n < 0x1_0000_0000_0000_0000
  type Byte = b: int | 0 <= b < 256

  /** `std::time::Duration`: whole seconds, and the nanoseconds below one second. */
  datatype Duration = Duration(secs: U64, nanos: int)
  type ValidDuration = d: Duration | 0 <= d.nanos < 1_000_000_000 witness Duration(0, 0)

  /** Rust's `as u32` on an unsigned value, and `u32` wrapping arithmetic: the low 32 bits. */
  function Low32(x: nat): U32
  {
    x % U32Limit
  }

  /**
   * `ToMS for Duration::to_ms`, with `u32` arithmetic wrapping as in a
   * release build. `ToMsOverflows` says when a debug build panics instead.
   */
  function ToMs(d: ValidDuration): (r: U32)
    ensures r == (Low32(d.secs) * 1000 + d.nanos / 1_000_000) % U32Limit
    ensures d.secs * 1000 + 999 < U32Limit ==> r == TotalNanos(d) / 1_000_000
  {
    MillisOfTotal(d);
    WrapAdd(Low32(d.secs) * 1000, d.nanos / 1_000_000);
    var secondsDelta := Low32(d.secs);
    var nanoDelta := d.nanos;
    Low32(Low32(secondsDelta * 1000) + nanoDelta / 1_000_000)
  }

  /** One of the two `u32` operations of `to_ms` overflows (a debug build panics). */
  predicate ToMsOverflows(d: ValidDuration)
  {
    Low32(d.secs) * 1000 + d.nanos / 1_000_000 >= U32Limit
  }

  /** The duration in nanoseconds. */
  function TotalNanos(d: ValidDuration): nat
  {
    d.secs * 1_000_000_000 + d.nanos
  }

  /** Wrapping after each `u32` operation is wrapping once at the end. */
  lemma WrapAdd(x: nat, y: nat)
    ensures Low32(Low32(x) + y) == Low32(x + y)
  {
    var q := x / U32Limit;
    assert x == q * U32Limit + Low32(x);
    assert x + y == q * U32Limit + (Low32(x) + y);
  }

  /** Whole seconds contribute exactly 1000 milliseconds each. */
  lemma MillisOfTotal(d: ValidDuration)
    ensures TotalNanos(d) / 1_000_000 == d.secs * 1000 + d.nanos / 1_000_000
  {
    var q, rem := d.nanos / 1_000_000, d.nanos % 1_000_000;
    assert d.nanos == q * 1_000_000 + rem;
    assert TotalNanos(d) == (d.secs * 1000 + q) * 1_000_000 + rem;
  }

  /**
   * The millisecond term of `to_ms` is below 1000, and when the whole
   * seconds times 1000 plus 999 fit in a `u32`, nothing overflows and the
   * result is the duration floored to whole milliseconds.
   */
  lemma ToMsIsFlooredMillis(d: ValidDuration)
    ensures d.nanos / 1_000_000 < 1000
    ensures d.secs * 1000 + 999 < U32Limit ==> !ToMsOverflows(d) && ToMs(d) == TotalNanos(d) / 1_000_000
  {
    if d.secs * 1000 + 999 < U32Limit {
      assert Low32(d.secs) == d.secs;
      assert Low32(d.secs * 1000) == d.secs * 1000;
      MillisOfTotal(d);
    }
  }

  /** The seconds are cut to 32 bits before anything else: 2^32 seconds read as 0 ms. */
  lemma ToMsDropsHighSeconds()
    ensures ToMs(Duration(U32Limit, 0)) == 0
  {
  }

  // ---------------------------------------------------------------------
  // C strings
  // ---------------------------------------------------------------------

  /** A `*const c_char`: null, or an address into `memory`. */
  datatype CPtr = Null | Address(at: nat)

  /** A NUL byte lies at or after `at`: what a valid C string pointer promises. */
  predicate NulTerminated(memory: seq<Byte>, at: nat)
  {
    exists k :: at <= k < |memory| && memory[k] == 0
  }

  /** `strlen`: the distance from `at` to the first NUL. */
  function StrLen(memory: seq<Byte>, at: nat): (n: nat)
    requires NulTerminated(memory, at)
    ensures at + n < |memory| && memory[at + n] == 0
    ensures forall i :: at <= i < at + n ==> memory[i] != 0
    decreases |memory| - at
  {
    if memory[at] == 0 then 0 else 1 + StrLen(memory, at + 1)
  }

  /**
   * `c_to_rust_string`: `None` for a null pointer, otherwise the bytes up to
   * the first NUL (`CStr::from_ptr`). The pointer must be valid.
   */
  function CToRustString(p: CPtr, memory: seq<Byte>): (r: Option<seq<Byte>>)
    requires p.Address? ==> NulTerminated(memory, p.at)
    ensures r.None? <==> p.Null?
    ensures r.Some? ==>
      && 0 !in r.value
      && p.at + |r.value| < |memory|
      && memory[p.at .. p.at + |r.value|] == r.value
      && memory[p.at + |r.value|] == 0
  {
    match p
    case Null => None
    case Address(at) => Some(memory[at .. at + StrLen(memory, at)])
  }

  /** A `CString`: bytes without NUL, stored with one NUL after them. */
  datatype CString = CString(bytes: seq<Byte>)

  function AsBytesWithNul(c: CString): seq<Byte>
  {
    c.bytes + [0]
  }

  /** `NulError`: where the first NUL is, and the bytes given back. */
  datatype NulError = NulError(position: nat, bytes: seq<Byte>)

  /** The index of the first NUL of `s`, or `|s|` when there is none. */
  function FirstNul(s: seq<Byte>): (n: nat)
    ensures n <= |s|
    ensures 0 !in s[..n]
    ensures n < |s| ==> s[n] == 0
    decreases |s|
  {
    if s == [] then 0
    else if s[0] == 0 then 0
    else
      var rest := FirstNul(s[1..]);
      assert s[..rest + 1] == [s[0]] + s[1..][..rest];
      1 + rest
  }

  /** `CString::new`: refuses bytes with a NUL inside, reporting the first one. */
  function NewCString(s: seq<Byte>): (r: Result<CString, NulError>)
    ensures r.Ok? <==> 0 !in s
    ensures r.Ok? ==> r.value.bytes == s
    ensures r.Err? ==> r.error.position < |s| && s[r.error.position] == 0 && 0 !in s[..r.error.position]
  {
    var n := FirstNul(s);
    if n == |s| then
      assert s[..n] == s;
      Ok(CString(s))
    else Err(NulError(n, s))
  }

  /** `safe_as_cstring`: the C string of `s`, or `exit(1)` when `s` holds a NUL. */
  function SafeAsCString(s: seq<Byte>): (r: Outcome<CString>)
    ensures r.Normal? <==> 0 !in s
    ensures r.Normal? ==> r.value.bytes == s
    ensures !r.Normal? ==> r == Exited(1)
  {
    match NewCString(s)
    case Ok(c) => Normal(c)
    case Err(_) => Exited(1)
  }

  /** Reading back the buffer of `safe_as_cstring(s)` gives `s`. */
  lemma CStringRoundTrip(s: seq<Byte>)
    requires 0 !in s
    ensures SafeAsCString(s).Normal?
    ensures NulTerminated(AsBytesWithNul(SafeAsCString(s).value), 0)
    ensures CToRustString(Address(0), AsBytesWithNul(SafeAsCString(s).value)) == Some(s)
  {
    var memory := s + [0];
    assert memory[|s|] == 0;
    var n := StrLen(memory, 0);
    assert memory[0..n] == s;
  }

  /** What `c_to_rust_string` reads from a valid pointer converts back without exiting. */
  lemma ReadBytesConvertBack(memory: seq<Byte>, at: nat)
    requires NulTerminated(memory, at)
    ensures SafeAsCString(CToRustString(Address(at), memory).value) == Normal(CString(CToRustString(Address(at), memory).value))
  {
  }

  // ---------------------------------------------------------------------
  // Panic containment
  // ---------------------------------------------------------------------

  /**
   * `handle_unwind`: what a listener does with the result of `catch_unwind`.
   * `compositorPtr` is `COMPOSITOR_PTR`, null before a compositor exists.
   */
  method HandleUnwind<T>(res: Result<T, PanicPayload>, compositorPtr: Compositor?) returns (r: Outcome<()>)
    modifies compositorPtr
    ensures res.Ok? ==> r == Normal(()) && (compositorPtr != null ==> unchanged(compositorPtr))
    ensures res.Err? && compositorPtr == null ==> r == Aborted
    ensures res.Err? && compositorPtr != null ==>
      && r == Normal(())
      && compositorPtr.panicError == Some(res.error)
      && !compositorPtr.running
      && compositorPtr.lock == old(compositorPtr.lock)
      && compositorPtr.events == old(compositorPtr.events) + [PanicSaved(res.error), Terminated]
  {
    match res
    case Ok(_) =>
      r := Normal(());
    case Err(err) =>
      if compositorPtr == null {
        return Aborted;
      }
      compositorPtr.SavePanicError(err);
      compositorPtr.Terminate();
      r := Normal(());
  }
}
