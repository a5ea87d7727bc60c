# GPIO line events: request, timestamp and close policy

A model of the part of `events_linux.go` (package `gpio`) that opens a GPIO
line for edge events through the Linux GPIO character device (v1 interface,
`GPIO_GET_LINEEVENT_IOCTL`), turns each kernel event record into a time, and
closes the line again. The system calls and the `fdevents` watcher are
abstracted to their outcomes; what remains is stated and proved in Dafny.

- `errors.dfy`, module `Errors`: Go error values — `syscall.Errno`, the two
  errors `io.ReadFull` reports for empty and short reads, errors of
  collaborators outside the model, and `fmt.Errorf("…%w", cause)` wrapping.
  A nil-able `error` is an `Option<Error>`.
- `event_time.dfy`, module `EventTime`: `readGPIOLineEventFd`. The unsigned
  nanosecond count of an event record is split into the `(sec, nsec)` pair
  handed to `time.Unix`, with Go's wrapping `uint64` product and its
  `int64(…)` conversion written out. The split is exact, the remainder lies
  in `[0, 1e9)`, the seconds never exceed `(2^64 - 1) / 1e9`, so neither
  conversion changes a value; the split is inverted by `Nanos` from both
  sides and keeps the order of timestamps. The outcome of the blocking read
  is a parameter, and so is the clock value `time.Now()` would return: a
  full record gives its time, an interrupted read (`EINTR`) gives the clock,
  any other error is a panic carrying the error wrapped with
  `"failed to read GPIO event: "`.
- `line_events.dfy`, module `LineEvents`: `newInputLineWithEvents` and
  `LineWithEvent.Close`. The request is a class whose 32-byte consumer
  label is filled in place by a model of Go's `copy` (truncating silently,
  the rest of the field zero). A `Process` object holds the open
  descriptors, the descriptors a watcher runs on and the sequence of calls
  made; each fallible call (the ioctl, `fdevents.New`, `unix.Dup`,
  `Line.Close`, `FdEvents.Close`) receives its outcome as a parameter, and
  new descriptors are numbered past every open one. The setup method states,
  path by path, the error returned, the descriptors and watchers held
  afterwards and the calls made; the close method states that both closes
  are always made, in order, and that the line's error takes precedence.

Two cleanup paths of the code are worth noting:

- When `unix.Dup` fails, the event descriptor stays open and its watcher
  keeps running; nothing is closed on that path (events_linux.go:68-71).
  `NewInputLineWithEvents` states exactly this (`open` and `watched` both
  grow by the event descriptor).
- When `fdevents.New` fails, its error is returned as it is, not wrapped
  with the name of the failing step (events_linux.go:62-66).

## Model

| member | source | states |
|---|---|---|
| `EventTime.UnixArgs` | events_linux.go:46-48 | the `(sec, nsec)` pair for a raw u64 count `t` satisfies `sec * 1e9 + nsec == t`, `0 <= nsec < 1e9`, `0 <= sec <= (2^64-1)/1e9` |
| `EventTime.ConversionExact` | events_linux.go:46-48 | `uint64(time.Nanosecond) * t` does not wrap, and `int64(sec)`, `int64(nano)` keep their values and signs for every u64 `t` |
| `EventTime.NotAfterIsNanosOrder` | events_linux.go:48 | for normalized `(sec, nsec)` pairs, as `time.Unix` receives them here, comparing seconds then nanoseconds (the order of `time.Time` values) is exactly the order of their nanosecond counts |
| `EventTime.UnixArgsOfNanos` | events_linux.go:46-48 | every normalized instant whose count fits in a u64 is what the split makes of that count (inverse round trip) |
| `EventTime.UnixArgsMonotonic` | events_linux.go:46-48 | one raw timestamp is not after another exactly when its converted time is not after the other's |
| `EventTime.UnixArgsFiveSeconds` | events_linux.go:46-48 | a raw count of 5_000_000_000 becomes 5 seconds after the epoch with no nanosecond remainder |
| `EventTime.ReadEventTime` | events_linux.go:36-48 | a time is produced exactly when the read returned a full record or failed with EINTR; for a record it is the time its timestamp denotes, for EINTR it is the supplied clock value; any other error panics with that error wrapped as "failed to read GPIO event" |
| `LineEvents.Copied` | events_linux.go:56 | Go's `copy`: the destination keeps its length, its first `min` bytes are the source's and the rest are unchanged |
| `LineEvents.LabelField` | events_linux.go:52-56 | the label of a fresh request is 32 bytes: the first `min(32, len(consumer))` are the consumer's, the remaining ones stay zero |
| `LineEvents.LabelKeepsName` | events_linux.go:56 | a consumer name of at most 32 bytes is kept whole, followed by zero bytes |
| `LineEvents.LabelTruncates` | events_linux.go:56 | a longer name becomes its first 32 bytes, and bytes past them make no difference |
| `LineEvents.EventRequest.constructor` | events_linux.go:52-55 | the request literal carries the offset and both flag words, a zeroed label and a zero result descriptor |
| `LineEvents.EventRequest.CopyConsumer` | events_linux.go:56 | copying the consumer into the label array in place returns the count copied and leaves the array equal to `Copied` of its old contents |
| `LineEvents.Process.NewInputLineWithEvents` | events_linux.go:51-77 | the ioctl always receives the truncated label; ioctl failure: nil line, error wrapped "ioctl", no descriptor acquired; watcher failure: the event descriptor is closed again and the watcher's error returned; dup failure: nil line, error wrapped "dup", event descriptor and watcher kept; success: a line with one line on a second, new descriptor and a watcher bound to the event descriptor; in every case the exact sequence of calls made |
| `LineEvents.FirstError` | events_linux.go:24-27 | the composite close error is nil only when both closes succeed; the line's error wins whenever there is one, otherwise the watcher's is returned |
| `LineEvents.Process.LineClose` | events_linux.go:22 | closing the line releases its own descriptor only and reports the outcome |
| `LineEvents.Process.EventsClose` | events_linux.go:23 | closing the watcher stops it and releases its descriptor only, leaving the line's descriptor open |
| `LineEvents.Process.CloseLineWithEvent` | events_linux.go:21-28 | both closes are made, line first, even when the first fails; both descriptors are released; the error returned is `FirstError` of the two outcomes |

## Left out

- The system calls themselves (`sys.Ioctl`, `io.ReadFull` on the event descriptor, `unix.Dup`): each is a parameter giving its outcome; descriptor numbers are handed out by a counter past every open descriptor, where Linux reuses the lowest free number.
- `unix.Close` on the watcher-failure path (events_linux.go:64): the code ignores its error, so it has no outcome parameter; the model assumes it releases the descriptor, as `close(2)` does on Linux.
- The unchecked reinterpretation of the record's bytes as `sys.GPIOEventData`: the record is taken already decoded (timestamp and id); its memory layout belongs to the `sys` package, which is not part of this model.
- The `fdevents` package (epoll registration, the background worker, the single-slot overwrite channel): `fdevents.New` is a fallible call that, on success, starts a watcher on the descriptor; `FdEvents.Close` is a fallible call assumed to stop the watcher and release its descriptor; the channel, concurrency and the decoder callback it runs are not modelled.
- `LineEvents.Process.LineClose` and `LineEvents.Process.EventsClose`: `Line.Close` and `FdEvents.Close` are not part of this model; they are assumed to release their descriptor whatever they return, as `close(2)` does on Linux.
- `time.Now()` is a parameter, and `time.Time` is reduced to the `(sec, nsec)` pair given to `time.Unix`; its normalization of out-of-range nanoseconds is not modelled (the pair produced here is already normalized).
- The `int32` width of the request's result descriptor field: descriptor numbers are unbounded naturals.
- `LineWithEvent.Value` and `LineWithEvent.Events`: one-line forwards to `Line.Value` and `FdEvents.Events`, which are not part of this model.
- A panic is a value (`Panicked`) rather than an unwinding of the watcher.
