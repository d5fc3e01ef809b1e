/**
  What one connection handler does, event by event.

  The C++ code nests: a read callback parses, parsing calls back into the
  handler, a shutdown waits in a loop that runs further callbacks. Here every
  loop that is still running is an item on a stack, and each turn of a loop is
  an event of its own, so that a run is one sequence of events however deeply
  it nests.
 */
module HandlerSpec {
  import opened Frames

  datatype State = NotConnected | Resolving | Connecting | ReceiverInit | Ready | Shutdown

  /** The message the shutdown callback is given: none, or a prefix the handler puts before a text. */
  datatype Reason =
    | NoReason
    | FailedToResolve(why: string)
    | FailedToConnect(why: string)
    | AmqpCppError(text: string)
    | ReadError(why: string)
    | WriteError(why: string)

  /**
    A loop in progress. `Testing` is the read loop at its condition, with
    whether the last parse took anything; `Parsing` is the read loop inside
    `parse`, with how far it has got; `Draining` is the wait of a shutdown.
   */
  datatype Loop = Testing(again: bool) | Parsing(done: nat) | Draining

  datatype Stack = Empty | On(top: Loop, below: Stack)

  /** The fields of the C++ object, and after them the record of the connection. */
  datatype H = H(
    state: State,
    hasConnection: bool,
    inBuf: bytes,
    outBufs: seq<bytes>,
    lastError: Reason,
    amqpError: bool,
    readReq: bool,
    writeReq: bool,
    stack: Stack,
    readsOut: nat,
    writesOut: nat,
    received: bytes,
    frames: seq<bytes>,
    accepted: bytes,
    taken: bytes,
    shutdowns: seq<Reason>)

  const FRESH: H :=
    H(NotConnected, false, [], [], NoReason, false, false, false, Empty, 0, 0, [], [], [], [], [])

  datatype Event =
    // calls
    | Start
    | Stop
    | Data(buffer: bytes)
    | Error(text: string)
    | Closed
    // completions
    | Resolved(ok: bool, why: string)
    | Connected(ok: bool, why: string)
    | ReadDone(chunk: bytes)
    | ReadFailed(why: string)
    | WriteDone(n: nat)
    | WriteFailed(n: nat, why: string)
    // turns of a loop
    | Test(expected: nat)
    | Dispatch
    | ParseReturns
    | Unwind
    | Drained

  /** `connected()`: a shutdown still counts. */
  predicate Up(h: H) {
    h.state == ReceiverInit || h.state == Ready || h.state == Shutdown
  }

  function Push(h: H, l: Loop): H {
    h.(stack := On(l, h.stack))
  }

  function Pop(h: H): H {
    if h.stack.Empty? then h else h.(stack := h.stack.below)
  }

  function Replace(h: H, l: Loop): H {
    Push(Pop(h), l)
  }

  function ArmRead(h: H): H {
    h.(readReq := true, readsOut := h.readsOut + 1)
  }

  function ArmWrite(h: H): H {
    h.(writeReq := true, writesOut := h.writesOut + 1)
  }

  /** The arrival in `eNotConnected`: the shutdown callback is made. */
  function Notify(h: H): H {
    h.(state := NotConnected, shutdowns := h.shutdowns + [h.lastError], lastError := NoReason)
  }

  /** The arrival in `eShutdown`: the drain begins. */
  function BeginShutdown(h: H, reason: Reason): H {
    Push(h.(state := Shutdown, lastError := reason), Draining)
  }

  /** The socket takes bytes from the front buffer. */
  function Take(h: H, n: nat): H {
    if h.outBufs == [] || n > |h.outBufs[0]| then h
    else h.(taken := h.taken + h.outBufs[0][..n], outBufs := [h.outBufs[0][n..]] + h.outBufs[1..])
  }

  function OnData(h: H, buffer: bytes): H {
    if !Up(h) then h
    else
      var a := h.(hasConnection := true);
      var b := if a.state == ReceiverInit then ArmRead(a.(state := Ready)) else a;
      var c := b.(outBufs := b.outBufs + [buffer], accepted := b.accepted + buffer);
      if c.writeReq then c else ArmWrite(c)
  }

  function OnRead(h: H, chunk: bytes): H {
    var a := h.(readReq := false, readsOut := if h.readsOut > 0 then h.readsOut - 1 else 0);
    if !Up(a) then a
    else Push(a.(inBuf := a.inBuf + chunk, received := a.received + chunk), Testing(true))
  }

  function OnReadFailed(h: H, why: string): H {
    var a := h.(readReq := false, readsOut := if h.readsOut > 0 then h.readsOut - 1 else 0);
    if !Up(a) || a.state == Shutdown then a else BeginShutdown(a, ReadError(why))
  }

  function WriteEnds(h: H, n: nat): H {
    Take(h, n).(writeReq := false, writesOut := if h.writesOut > 0 then h.writesOut - 1 else 0)
  }

  function OnWrite(h: H, n: nat): H {
    var a := WriteEnds(h, n);
    if !Up(a) || a.outBufs == [] then a
    else
      var b := if a.outBufs[0] == [] then a.(outBufs := a.outBufs[1..]) else a;
      if b.outBufs == [] then b else ArmWrite(b)
  }

  function OnWriteFailed(h: H, n: nat, why: string): H {
    var a := WriteEnds(h, n);
    if !Up(a) || a.state == Shutdown then a else BeginShutdown(a, WriteError(why))
  }

  /** One turn of a loop, by the loop on top of the stack. */
  function Turn(h: H, e: Event): H {
    if h.stack.Empty? then h
    else match (h.stack.top, e)
      case (Testing(again), Test(expected)) =>
        if |h.inBuf| >= expected && again then Replace(h, Parsing(0)) else ArmRead(Pop(h))
      case (Parsing(done), Dispatch) =>
        if done <= |h.inBuf| && HasFrame(h.inBuf[done..]) then
          var n := FrameLength(h.inBuf[done..]);
          Replace(h.(frames := h.frames + [h.inBuf[done..done + n]]), Parsing(done + n))
        else h
      case (Parsing(done), ParseReturns) =>
        if done <= |h.inBuf| then Replace(h.(inBuf := h.inBuf[done..]), Testing(done > 0)) else h
      case (_, Unwind) => Pop(h)
      case (Draining, Drained) =>
        Notify(Pop(h).(inBuf := [], outBufs := [], hasConnection := false))
      case _ => h
  }

  function Step(h: H, e: Event): H {
    match e
    case Start =>
      if h.state != NotConnected then h
      else h.(state := Resolving, amqpError := false, received := [], frames := [], accepted := [], taken := [])
    case Stop => if h.state == NotConnected then h else BeginShutdown(h, NoReason)
    case Data(buffer) => OnData(h, buffer)
    case Error(text) =>
      if !Up(h) then h
      else BeginShutdown(h.(hasConnection := true, amqpError := true), AmqpCppError(text))
    case Closed => if !Up(h) then h else BeginShutdown(h.(hasConnection := true), NoReason)
    case Resolved(ok, why) =>
      if h.state != Resolving then h
      else if ok then h.(state := Connecting)
      else Notify(h.(lastError := FailedToResolve(why)))
    case Connected(ok, why) =>
      if h.state != Connecting then h
      else if ok then h.(state := ReceiverInit)
      else Notify(h.(lastError := FailedToConnect(why)))
    case ReadDone(chunk) => OnRead(h, chunk)
    case ReadFailed(why) => OnReadFailed(h, why)
    case WriteDone(n) => OnWrite(h, n)
    case WriteFailed(n, why) => OnWriteFailed(h, n, why)
    case _ => Turn(h, e)
  }

  // ---------------------------------------------------------------- what the surroundings can do

  /** Other code runs at top level, inside `parse`, and while a shutdown waits for something in flight. */
  predicate Outside(h: H) {
    h.stack.On? ==>
      match h.stack.top
      case Testing(_) => false
      case Parsing(_) => true
      case Draining => h.readReq || h.writeReq
  }

  /**
    A start comes only when no loop of an earlier connection is left. A
    completion belongs to an operation in flight, and a write without error
    takes something or finds nothing to take. `expected` never asks for more
    than a frame that is all there; `parse` takes such a frame, and gives up
    only when there is none. A loop that finds the handler down unwinds.
   */
  predicate Enabled(h: H, e: Event) {
    match e
    case Start => h.stack.Empty?
    case Stop => Outside(h)
    case Data(_) => Outside(h)
    case Error(_) => Outside(h)
    case Closed => Outside(h)
    case Resolved(_, _) => Outside(h)
    case Connected(_, _) => Outside(h)
    case ReadDone(_) => Outside(h) && h.readsOut > 0
    case ReadFailed(_) => Outside(h) && h.readsOut > 0
    case WriteDone(n) =>
      && Outside(h) && h.writesOut > 0
      && (h.outBufs != [] ==> n <= |h.outBufs[0]| && (n > 0 || h.outBufs[0] == []))
    case WriteFailed(n, _) =>
      Outside(h) && h.writesOut > 0 && (h.outBufs != [] ==> n <= |h.outBufs[0]|)
    case Test(expected) =>
      && h.stack.On? && h.stack.top.Testing? && Up(h)
      && (HasFrame(h.inBuf) ==> expected <= FrameLength(h.inBuf))
    case Dispatch =>
      && h.stack.On? && h.stack.top.Parsing? && Up(h)
      && h.stack.top.done <= |h.inBuf| && HasFrame(h.inBuf[h.stack.top.done..])
    case ParseReturns =>
      && h.stack.On? && h.stack.top.Parsing? && Up(h)
      && (h.stack.top.done == 0 ==> !HasFrame(h.inBuf))
    case Unwind => h.stack.On? && !h.stack.top.Draining? && !Up(h)
    case Drained => h.stack.On? && h.stack.top.Draining? && !h.readReq && !h.writeReq
  }
}
