/**
 * Opening a GPIO line for events and closing it again
 * (`newInputLineWithEvents` and `LineWithEvent.Close` in events_linux.go).
 *
 * The process's descriptor table, the running event watchers and the calls
 * made to the kernel and to collaborators live in a `Process` object. Each
 * fallible call is given its outcome as a parameter (`None` for success, as
 * Go's nil error), so that every path through the code can be followed.
 */
module LineEvents {
  import opened Errors
  import opened EventTime

  type u8 = x: int | 0 <= x < 256

  /** Capacity of the request's consumer label (`GPIO_MAX_NAME_SIZE`). */
  const LabelSize: nat := 32

  /** `EPOLLIN | EPOLLPRI | EPOLLET`: the events the watcher waits for, edge-triggered. */
  const EPOLLIN: bv32 := 0x1
  const EPOLLPRI: bv32 := 0x2
  const EPOLLET: bv32 := 0x8000_0000
  const WatchMask: bv32 := EPOLLIN | EPOLLPRI | EPOLLET

  const IoctlContext: string := "request GPIO event failed: ioctl "
  const DupContext: string := "request GPIO event failed: dup "

  function Min(a: nat, b: nat): nat
  {
    if a <= b then a else b
  }

  function Zeros(n: nat): seq<u8>
  {
    seq(n, _ => 0)
  }

  /**
   * Go's `copy(dst, src)`, byte by byte from the front: the first
   * `min(|dst|, |src|)` bytes of `dst` are replaced by those of `src`; the
   * rest of `dst` is left as it was.
   */
  function Copied(dst: seq<u8>, src: seq<u8>): (r: seq<u8>)
    ensures |r| == |dst|
    ensures forall i :: 0 <= i < |r| ==> r[i] == if i < |src| then src[i] else dst[i]
  {
    if dst == [] || src == [] then dst
    else [src[0]] + Copied(dst[1..], src[1..])
  }

  /**
   * The consumer label of a fresh request: `consumer` copied into a zeroed
   * field of `LabelSize` bytes, truncated without error when longer.
   */
  function LabelField(consumer: seq<u8>): (field: seq<u8>)
    ensures |field| == LabelSize
    ensures forall i :: 0 <= i < Min(LabelSize, |consumer|) ==> field[i] == consumer[i]
    ensures forall i :: Min(LabelSize, |consumer|) <= i < LabelSize ==> field[i] == 0
  {
    Copied(Zeros(LabelSize), consumer)
  }

  /** A name that fits is kept whole at the head of the label. */
  lemma LabelKeepsName(consumer: seq<u8>)
    requires |consumer| <= LabelSize
    ensures LabelField(consumer)[..|consumer|] == consumer
    ensures LabelField(consumer) == consumer + Zeros(LabelSize - |consumer|)
  {
  }

  /** A longer name is cut to its first `LabelSize` bytes; what follows them makes no difference. */
  lemma LabelTruncates(consumer: seq<u8>, rest: seq<u8>)
    requires |consumer| >= LabelSize
    ensures LabelField(consumer) == consumer[..LabelSize]
    ensures LabelField(consumer + rest) == LabelField(consumer)
  {
  }

  /** The request as the kernel reads it (`sys.GPIOEventRequest` without the result field). */
  datatype RequestData = RequestData(lineOffset: u32, handleFlags: u32, eventFlags: u32, consumerLabel: seq<u8>)

  /** The calls the code makes to the kernel and to its collaborators, in the order it makes them. */
  datatype Call =
    | GetLineEvent(chipFd: int, request: RequestData) // sys.Ioctl(chipFd, GPIO_GET_LINEEVENT_IOCTL, &req)
    | Watch(fd: nat, mask: bv32)                      // fdevents.New(fd, mask, readGPIOLineEventFd)
    | CloseFd(fd: nat)                                // unix.Close(fd)
    | Dup(fd: nat)                                    // unix.Dup(fd)
    | CloseLine(fd: nat)                              // Line.Close on the line holding fd
    | CloseEvents(fd: nat)                            // FdEvents.Close on the watcher bound to fd

  /** A line handle for level reads over its own descriptor. */
  datatype Line = Line(fd: nat, numLines: nat)

  /** An event watcher bound to the line event descriptor. */
  datatype FdEvents = FdEvents(fd: nat)

  /** An opened GPIO line whose events can be subscribed. */
  datatype LineWithEvent = LineWithEvent(l: Line, events: FdEvents)

  /**
   * The error `LineWithEvent.Close` returns: the line's error if there is
   * one, otherwise the watcher's. It is nil only when both closes succeeded,
   * and when both failed the watcher's error is not reported.
   */
  function FirstError(lineErr: Option<Error>, eventsErr: Option<Error>): (err: Option<Error>)
    ensures err.None? <==> lineErr.None? && eventsErr.None?
    ensures lineErr.Some? ==> err == lineErr
    ensures lineErr.None? ==> err == eventsErr
  {
    if lineErr.Some? then lineErr else eventsErr
  }

  /** `sys.GPIOEventRequest`, filled in place before and by the ioctl. */
  class EventRequest {
    var lineOffset: u32
    var handleFlags: u32
    var eventFlags: u32
    const consumerLabel: array<u8>
    var fd: int  // written by the kernel on success (an `int32` in the record)

    /** The struct literal: the named fields set, everything else zero. */
    constructor (offset: u32, handleFlags: u32, eventFlags: u32)
      ensures lineOffset == offset && this.handleFlags == handleFlags && this.eventFlags == eventFlags
      ensures fresh(consumerLabel) && consumerLabel[..] == Zeros(LabelSize)
      ensures fd == 0
    {
      lineOffset := offset;
      this.handleFlags := handleFlags;
      this.eventFlags := eventFlags;
      consumerLabel := new u8[LabelSize](_ => 0);
      fd := 0;
    }

    /** `copy(req.ConsumerLabel[:], consumer)`, returning the count of bytes copied. */
    method CopyConsumer(consumer: seq<u8>) returns (n: nat)
      modifies consumerLabel
      ensures n == Min(consumerLabel.Length, |consumer|)
      ensures consumerLabel[..] == Copied(old(consumerLabel[..]), consumer)
    {
      n := Min(consumerLabel.Length, |consumer|);
      var i := 0;
      while i < n
        invariant 0 <= i <= n
        invariant forall k :: 0 <= k < i ==> consumerLabel[k] == consumer[k]
        invariant forall k :: i <= k < consumerLabel.Length ==> consumerLabel[k] == old(consumerLabel[k])
      {
        consumerLabel[i] := consumer[i];
        i := i + 1;
      }
    }

    /** What the kernel reads from the request. */
    function Data(): RequestData
      reads this, consumerLabel
    {
      RequestData(lineOffset, handleFlags, eventFlags, consumerLabel[..])
    }
  }

  /**
   * The process-side state the code touches: the descriptors it holds, the
   * descriptors an event watcher is running on, and the calls made so far.
   * New descriptors are numbered from `next` upwards, so the kernel never
   * hands out one that is already open.
   */
  class Process {
    var open: set<nat>
    var watched: set<nat>
    var next: nat
    var log: seq<Call>

    ghost predicate Valid()
      reads this
    {
      forall fd :: fd in open ==> fd < next
    }

    /** A process holding only the GPIO chip descriptor. */
    constructor (chipFd: nat)
      ensures Valid()
      ensures open == {chipFd} && watched == {} && log == []
      ensures next == chipFd + 1
    {
      open := {chipFd};
      watched := {};
      next := chipFd + 1;
      log := [];
    }

    /** The kernel's side of a call that returns a new descriptor. */
    method Acquire() returns (fd: nat)
      requires Valid()
      modifies this`open, this`next
      ensures Valid()
      ensures fd == old(next) && fd !in old(open)
      ensures open == old(open) + {fd} && next == old(next) + 1
    {
      fd := next;
      open := open + {fd};
      next := next + 1;
    }

    /**
     * `newInputLineWithEvents`, given the outcomes of the ioctl, of
     * `fdevents.New` and of `unix.Dup`. The request always carries the
     * truncated label. On ioctl failure nothing is acquired; when the watcher
     * cannot start, the event descriptor is closed again and that error is
     * returned as it is; when dup fails, the event descriptor and its running
     * watcher are kept and nothing is closed; otherwise the line reads through
     * a second descriptor and the watcher is bound to the first.
     */
    method NewInputLineWithEvents(chipFd: int, offset: u32, flags: u32, eventFlags: u32, consumer: seq<u8>,
                                  ioctlErr: Option<Error>, watchErr: Option<Error>, dupErr: Option<Error>)
      returns (line: Option<LineWithEvent>, err: Option<Error>)
      requires Valid()
      modifies this
      ensures Valid()
      ensures line.Some? <==> err.None?
      ensures |log| > |old(log)|
      ensures log[|old(log)|] == GetLineEvent(chipFd, RequestData(offset, flags, eventFlags, LabelField(consumer)))
      ensures ioctlErr.Some? ==>
        && err == Some(Wrapped(IoctlContext, ioctlErr.value))
        && open == old(open) && watched == old(watched) && next == old(next)
        && log == old(log) + [log[|old(log)|]]
      ensures ioctlErr.None? && watchErr.Some? ==>
        && err == watchErr
        && open == old(open) && watched == old(watched) && next == old(next) + 1
        && log == old(log) + [log[|old(log)|], Watch(old(next), WatchMask), CloseFd(old(next))]
      ensures ioctlErr.None? && watchErr.None? && dupErr.Some? ==>
        && err == Some(Wrapped(DupContext, dupErr.value))
        && open == old(open) + {old(next)} && watched == old(watched) + {old(next)}
        && next == old(next) + 1
        && log == old(log) + [log[|old(log)|], Watch(old(next), WatchMask), Dup(old(next))]
      ensures ioctlErr.None? && watchErr.None? && dupErr.None? ==>
        && line == Some(LineWithEvent(Line(old(next) + 1, 1), FdEvents(old(next))))
        && open == old(open) + {old(next), old(next) + 1} && watched == old(watched) + {old(next)}
        && next == old(next) + 2
        && log == old(log) + [log[|old(log)|], Watch(old(next), WatchMask), Dup(old(next))]
    {
      var req := new EventRequest(offset, flags, eventFlags);
      var _ := req.CopyConsumer(consumer);
      log := log + [GetLineEvent(chipFd, req.Data())];
      if ioctlErr.Some? {
        return None, Some(Wrapped(IoctlContext, ioctlErr.value));
      }
      req.fd := Acquire();

      log := log + [Watch(req.fd, WatchMask)];
      if watchErr.Some? {
        log := log + [CloseFd(req.fd)];
        open := open - {req.fd};
        return None, watchErr;
      }
      watched := watched + {req.fd};
      var events := FdEvents(req.fd);

      log := log + [Dup(req.fd)];
      if dupErr.Some? {
        return None, Some(Wrapped(DupContext, dupErr.value));
      }
      var fd2 := Acquire();
      return Some(LineWithEvent(Line(fd2, 1), events)), None;
    }

    /** `Line.Close`: releases the line's own descriptor and nothing else. */
    method LineClose(l: Line, outcome: Option<Error>) returns (err: Option<Error>)
      requires Valid()
      modifies this`open, this`log
      ensures Valid()
      ensures err == outcome
      ensures open == old(open) - {l.fd}
      ensures log == old(log) + [CloseLine(l.fd)]
    {
      log := log + [CloseLine(l.fd)];
      open := open - {l.fd};
      err := outcome;
    }

    /** `FdEvents.Close`: stops the watcher and releases the descriptor it is bound to, and nothing else. */
    method EventsClose(events: FdEvents, outcome: Option<Error>) returns (err: Option<Error>)
      requires Valid()
      modifies this`open, this`watched, this`log
      ensures Valid()
      ensures err == outcome
      ensures open == old(open) - {events.fd} && watched == old(watched) - {events.fd}
      ensures log == old(log) + [CloseEvents(events.fd)]
    {
      log := log + [CloseEvents(events.fd)];
      open := open - {events.fd};
      watched := watched - {events.fd};
      err := outcome;
    }

    /**
     * `LineWithEvent.Close`: closes the line and then the watcher, the
     * second even when the first fails, and reports the first error.
     */
    method CloseLineWithEvent(lw: LineWithEvent, lineOutcome: Option<Error>, eventsOutcome: Option<Error>)
      returns (err: Option<Error>)
      requires Valid()
      modifies this
      ensures Valid()
      ensures log == old(log) + [CloseLine(lw.l.fd), CloseEvents(lw.events.fd)]
      ensures open == old(open) - {lw.l.fd, lw.events.fd}
      ensures watched == old(watched) - {lw.events.fd} && next == old(next)
      ensures err == FirstError(lineOutcome, eventsOutcome)
    {
      var err1 := LineClose(lw.l, lineOutcome);
      var err2 := EventsClose(lw.events, eventsOutcome);
      if err1.Some? {
        return err1;
      }
      return err2;
    }
  }
}
