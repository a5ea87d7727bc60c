/**
 * Turning one GPIO line event record into the time of the event
 * (`readGPIOLineEventFd` in events_linux.go).
 *
 * The kernel's record carries an unsigned 64-bit count of nanoseconds. The
 * code splits it into whole seconds and the nanosecond remainder with
 * unsigned arithmetic and hands the pair, converted to `int64`, to
 * `time.Unix`. The blocking read of the record is abstracted to its outcome.
 */
module EventTime {
  import opened Errors

  type u32 = x: int | 0 <= x < 0x1_0000_0000
  type u64 = x: int | 0 <= x < 0x1_0000_0000_0000_0000
  type i64 = x: int | -0x8000_0000_0000_0000 <= x < 0x8000_0000_0000_0000

  const MaxU64: int := 0xFFFF_FFFF_FFFF_FFFF

  /** `time.Nanosecond` and `time.Second`, as counts of nanoseconds. */
  const Nanosecond: u64 := 1
  const Second: u64 := 1_000_000_000

  /** The largest whole-second count a `u64` nanosecond count can hold. */
  const MaxSec: int := MaxU64 / Second

  /** Go's `uint64 * uint64`, which wraps modulo 2^64. */
  function MulU64(a: u64, b: u64): u64
  {
    (a * b) % 0x1_0000_0000_0000_0000
  }

  /** Go's conversion `int64(x)` of a `uint64`: the same 64 bits read as two's complement. */
  function ToI64(x: u64): i64
  {
    if x < 0x8000_0000_0000_0000 then x else x - 0x1_0000_0000_0000_0000
  }

  /** The `(sec, nsec)` pair given to `time.Unix`; `time.Now()` is modelled by the same pair. */
  datatype Instant = Instant(sec: i64, nsec: i64)

  /** The nanoseconds since the Unix epoch that an instant denotes. */
  function Nanos(t: Instant): int
  {
    t.sec * Second + t.nsec
  }

  /** The nanosecond part lies in [0, 1e9) and the instant is not before the epoch. */
  predicate Normalized(t: Instant)
  {
    0 <= t.sec && 0 <= t.nsec < Second
  }

  /** `a` is not later than `b`, compared as `time.Time` compares normalized instants. */
  predicate NotAfter(a: Instant, b: Instant)
  {
    a.sec < b.sec || (a.sec == b.sec && a.nsec <= b.nsec)
  }

  /**
   * The arguments `readGPIOLineEventFd` passes to `time.Unix` for a raw
   * timestamp `t`: the split is exact, the remainder is a proper nanosecond
   * part, and the seconds stay far below the `int64` limit, so neither
   * `int64` conversion changes a value or its sign.
   */
  function UnixArgs(t: u64): (r: Instant)
    ensures Normalized(r)
    ensures r.sec <= MaxSec
    ensures Nanos(r) == t
  {
    var ns := MulU64(Nanosecond, t);
    var sec := ns / Second;
    var nano := ns % Second;
    ConversionExact(t);
    Instant(ToI64(sec), ToI64(nano))
  }

  /**
   * Neither step of the conversion loses information: multiplying by
   * `time.Nanosecond` does not wrap, and both halves of the split fit in the
   * non-negative half of `int64`.
   */
  lemma ConversionExact(t: u64)
    ensures MulU64(Nanosecond, t) == t
    ensures t / Second <= MaxSec < 0x8000_0000_0000_0000
    ensures ToI64(t / Second) == t / Second
    ensures ToI64(t % Second) == t % Second
  {
  }

  /** For normalized instants, `NotAfter` is the order of the nanosecond counts. */
  lemma NotAfterIsNanosOrder(a: Instant, b: Instant)
    requires Normalized(a) && Normalized(b)
    ensures NotAfter(a, b) <==> Nanos(a) <= Nanos(b)
  {
  }

  /**
   * Round trip from the other side: every normalized instant a `u64` count
   * can express is what the conversion makes of its own count.
   */
  lemma UnixArgsOfNanos(i: Instant)
    requires Normalized(i)
    requires Nanos(i) <= MaxU64
    ensures UnixArgs(Nanos(i)) == i
  {
  }

  /** The conversion keeps the order of raw timestamps, in both directions. */
  lemma UnixArgsMonotonic(t1: u64, t2: u64)
    ensures NotAfter(UnixArgs(t1), UnixArgs(t2)) <==> t1 <= t2
  {
  }

  /** A raw count of five seconds becomes five seconds after the epoch, no remainder. */
  lemma UnixArgsFiveSeconds()
    ensures UnixArgs(5_000_000_000) == Instant(5, 0)
  {
  }

  /** The decoded kernel event record (`sys.GPIOEventData`). */
  datatype EventData = EventData(timestamp: u64, id: u32)

  /**
   * Outcome of `io.ReadFull` of one whole record: the record, or the error
   * it reported (`UnexpectedEOF` for a short read, `EOF` for none at all).
   */
  datatype ReadOutcome = Read(data: EventData) | ReadFailed(err: Error)

  /** What `readGPIOLineEventFd` does: return a time, or panic with an error. */
  datatype EventTime = Occurred(at: Instant) | Panicked(reason: Error)

  const ReadFailedContext: string := "failed to read GPIO event: "

  /**
   * `readGPIOLineEventFd` given the outcome of the read and the value
   * `time.Now()` would return. A full record yields the time its timestamp
   * denotes; an interrupted read yields `now`; any other error panics with
   * that error wrapped.
   */
  function ReadEventTime(outcome: ReadOutcome, now: Instant): (r: EventTime)
    ensures r.Occurred? <==> outcome.Read? || outcome.err == EINTR
    ensures outcome.Read? ==> Normalized(r.at) && Nanos(r.at) == outcome.data.timestamp
    ensures outcome == ReadFailed(EINTR) ==> r.at == now
    ensures r.Panicked? ==> r.reason == Wrapped(ReadFailedContext, outcome.err)
  {
    match outcome
    case ReadFailed(err) =>
      if err == EINTR then Occurred(now) else Panicked(Wrapped(ReadFailedContext, err))
    case Read(data) =>
      Occurred(UnixArgs(data.timestamp))
  }
}
