/** Runs of one connection handler, and `Inv`, which every event of a run keeps. */
module HandlerInvariant {
  import opened Frames
  import opened HandlerSpec

  function Exec(h: H, es: seq<Event>): H
    decreases es
  {
    if es == [] then h else Exec(Step(h, es[0]), es[1..])
  }

  predicate Legal(h: H, es: seq<Event>)
    decreases es
  {
    es == [] || (Enabled(h, es[0]) && Legal(Step(h, es[0]), es[1..]))
  }

  // ---------------------------------------------------------------- the stack

  function Drains(stack: Stack): nat {
    if stack.Empty? then 0 else Drains(stack.below) + (if stack.top.Draining? then 1 else 0)
  }

  /** How many read loops are in progress. */
  function ReadLoops(stack: Stack): nat {
    if stack.Empty? then 0 else ReadLoops(stack.below) + (if stack.top.Draining? then 0 else 1)
  }

  /** How far into the input the innermost read loop has dispatched. */
  function Done(stack: Stack): nat {
    if stack.Empty? then 0
    else match stack.top
      case Draining => Done(stack.below)
      case Testing(_) => 0
      case Parsing(done) => done
  }

  lemma {:induction false} NoLoopIsDone(stack: Stack)
    ensures ReadLoops(stack) == 0 ==> Done(stack) == 0
    ensures ReadLoops(stack) == Drains(stack) == 0 <==> stack.Empty?
  {
    if stack.On? { NoLoopIsDone(stack.below); }
  }

  // ---------------------------------------------------------------- the invariant

  /** No connection: nothing is in flight, buffered or pointed to. */
  predicate Clean(h: H) {
    && !h.readReq && !h.writeReq && !h.hasConnection
    && h.inBuf == [] && h.outBufs == []
  }

  /** What is in flight, and which loops can be in progress in which state. */
  predicate Flow(h: H) {
    && h.readsOut == (if h.readReq then 1 else 0)
    && h.writesOut == (if h.writeReq then 1 else 0)
    && (!Up(h) ==> Clean(h))
    && (Up(h) ==>
          && ReadLoops(h.stack) <= 1
          && (ReadLoops(h.stack) == 1 ==> !h.readReq)
          && (ReadLoops(h.stack) == 1 || h.readReq ==> h.hasConnection))
    && match h.state
       case NotConnected => true
       case Ready => Drains(h.stack) == 0 && h.hasConnection && (h.readReq <==> h.stack.Empty?)
       case Shutdown => Drains(h.stack) > 0
       case ReceiverInit => h.stack.Empty? && !h.readReq && h.inBuf == []
       case _ => h.stack.Empty?
  }

  /** The input, from the first byte received on. */
  predicate Input(h: H) {
    match h.state
    case NotConnected => true
    case Resolving => h.received == [] && h.frames == []
    case Connecting => h.received == [] && h.frames == []
    case _ =>
      && Done(h.stack) <= |h.inBuf|
      && Whole(h.received) == h.frames + Whole(h.inBuf[Done(h.stack)..])
      && Rest(h.received) == Rest(h.inBuf[Done(h.stack)..])
      && (ReadLoops(h.stack) == 0 || (h.stack.On? && h.stack.top == Testing(false)) ==> !HasFrame(h.inBuf))
  }

  /** The output, from the first byte accepted on. */
  predicate Output(h: H) {
    match h.state
    case NotConnected => true
    case Resolving => h.accepted == [] && h.taken == []
    case Connecting => h.accepted == [] && h.taken == []
    case _ =>
      && h.taken + Join(h.outBufs) == h.accepted
      && (h.writeReq ==> h.outBufs != [])
      && (h.state != Shutdown && h.outBufs != [] ==> h.writeReq)
  }

  predicate Inv(h: H) {
    Flow(h) && Input(h) && Output(h)
  }

  predicate IsTurn(e: Event) {
    e.Test? || e.Dispatch? || e.ParseReturns? || e.Unwind? || e.Drained?
  }

  lemma TakeLeaves(h: H, n: nat)
    ensures Take(h, n) == h.(taken := Take(h, n).taken, outBufs := Take(h, n).outBufs)
    ensures |Take(h, n).outBufs| == |h.outBufs|
  {
  }

  /** A loop that goes on parsing leaves everything but the input and itself alone. */
  lemma ParsingLeaves(h: H, e: Event)
    requires Enabled(h, e) && (e.Dispatch? || e.ParseReturns?)
    ensures var t := Step(h, e);
      t.state == h.state && t.amqpError == h.amqpError && t.shutdowns == h.shutdowns
      && Drains(t.stack) == Drains(h.stack)
  {
    hide HasFrame, FrameLength, Notify;
  }

  lemma TurningLeaves(h: H, e: Event)
    requires Enabled(h, e) && (e.Test? || e.Unwind?)
    ensures var t := Step(h, e);
      t.state == h.state && t.amqpError == h.amqpError && t.shutdowns == h.shutdowns
      && Drains(t.stack) == Drains(h.stack)
  {
    hide HasFrame, FrameLength, Notify;
  }

  /** A read or a write has ended. */
  predicate IsTransfer(e: Event) {
    e.ReadDone? || e.ReadFailed? || e.WriteDone? || e.WriteFailed?
  }

  lemma FlowKeptByCalls(h: H, e: Event)
    requires Flow(h) && Enabled(h, e) && !IsTurn(e) && !IsTransfer(e)
    ensures Flow(Step(h, e))
  {
    NoLoopIsDone(h.stack);
    hide Turn;
  }

  lemma FlowKeptByReads(h: H, e: Event)
    requires Flow(h) && Enabled(h, e) && (e.ReadDone? || e.ReadFailed?)
    ensures Flow(Step(h, e))
  {
    NoLoopIsDone(h.stack);
    hide Turn;
  }

  lemma FlowKeptByWrites(h: H, e: Event)
    requires Flow(h) && Enabled(h, e) && (e.WriteDone? || e.WriteFailed?)
    ensures Flow(Step(h, e))
  {
    TakeLeaves(h, e.n);
    hide Turn, Take, Done;
  }

  lemma FlowKeptByTurns(h: H, e: Event)
    requires Flow(h) && Enabled(h, e) && IsTurn(e)
    ensures Flow(Step(h, e))
  {
    NoLoopIsDone(h.stack);
    if h.stack.On? { NoLoopIsDone(h.stack.below); }
    hide HasFrame, FrameLength;
  }

  lemma FlowKept(h: H, e: Event)
    requires Flow(h) && Enabled(h, e)
    ensures Flow(Step(h, e))
  {
    hide Flow, Step, Enabled;
    if IsTurn(e) {
      FlowKeptByTurns(h, e);
    } else if e.ReadDone? || e.ReadFailed? {
      FlowKeptByReads(h, e);
    } else if e.WriteDone? || e.WriteFailed? {
      FlowKeptByWrites(h, e);
    } else {
      FlowKeptByCalls(h, e);
    }
  }

  lemma ChunkArrives(h: H, chunk: bytes)
    requires Input(h) && Up(h) && ReadLoops(h.stack) == 0
    ensures Whole(h.received + chunk) == h.frames + Whole((h.inBuf + chunk)[0..])
    ensures Rest(h.received + chunk) == Rest((h.inBuf + chunk)[0..])
  {
    NoLoopIsDone(h.stack);
    SplitAnywhere(h.received, chunk);
    assert h.inBuf[0..] == h.inBuf && (h.inBuf + chunk)[0..] == h.inBuf + chunk;
    assert Whole(h.inBuf[0..]) == [] && Rest(h.inBuf[0..]) == h.inBuf;
    hide Whole, Rest, HasFrame;
  }

  lemma InputKeptByReading(h: H, chunk: bytes)
    requires Flow(h) && Input(h) && Enabled(h, ReadDone(chunk))
    ensures Input(Step(h, ReadDone(chunk)))
  {
    hide Turn, Whole, Rest, HasFrame, Drains;
    if Up(h) {
      assert ReadLoops(h.stack) == 0;
      ChunkArrives(h, chunk);
    }
  }

  predicate SameInput(h: H, t: H) {
    t.inBuf == h.inBuf && t.received == h.received && t.frames == h.frames
  }

  /** What the calls and the other completions leave of the state that reading is about. */
  lemma CallsLeaveInput(h: H, e: Event)
    requires Enabled(h, e) && !IsTurn(e) && !e.ReadDone? && !(e.Start? && h.state == NotConnected)
    ensures var t := Step(h, e);
      && SameInput(h, t)
      && (t.stack == h.stack || t == h || (t.stack == On(Draining, h.stack) && Outside(h)))
      && (t.state == Resolving ==> h.state == Resolving)
      && (t.state == Connecting ==> h.state == Connecting || h.state == Resolving)
      && (Up(t) && !Up(h) ==> h.state == Connecting || h.state == Resolving)
  {
    hide Turn, OnWrite, OnWriteFailed;
    if e.WriteDone? || e.WriteFailed? { WritesLeaveInput(h, e); }
  }

  lemma WritesLeaveInput(h: H, e: Event)
    requires Enabled(h, e) && (e.WriteDone? || e.WriteFailed?)
    ensures var t := Step(h, e);
      && SameInput(h, t)
      && (t.state == h.state || (t.state == Shutdown && Up(h)))
      && (t.stack == h.stack || (t.stack == On(Draining, h.stack) && Outside(h)))
  {
    TakeLeaves(h, e.n);
    hide Take, Turn;
  }

  lemma InputCarriesOver(h: H, t: H)
    requires Flow(h) && Input(h) && SameInput(h, t)
    requires t.stack == h.stack || t == h || (t.stack == On(Draining, h.stack) && Outside(h))
    requires t.state == Resolving ==> h.state == Resolving
    requires t.state == Connecting ==> h.state == Connecting || h.state == Resolving
    requires Up(t) && !Up(h) ==> h.state == Connecting || h.state == Resolving
    ensures Input(t)
  {
  }

  lemma InputKeptByCalls(h: H, e: Event)
    requires Flow(h) && Input(h) && Enabled(h, e) && !IsTurn(e) && !e.ReadDone?
    ensures Input(Step(h, e))
  {
    hide Whole, Rest, HasFrame, Turn, OnWrite, OnWriteFailed, OnReadFailed, OnData;
    if !(e.Start? && h.state == NotConnected) {
      CallsLeaveInput(h, e);
      InputCarriesOver(h, Step(h, e));
    }
  }

  lemma Slices(b: bytes, done: nat, n: nat)
    requires done + n <= |b|
    ensures b[done..done + n] == b[done..][..n]
    ensures b[done + n..] == b[done..][n..]
  {
  }

  lemma DispatchTakesOne(h: H)
    requires Enabled(h, Dispatch)
    ensures var done := h.stack.top.done; var b := h.inBuf[done..]; var n := FrameLength(b);
      && done + n <= |h.inBuf|
      && Step(h, Dispatch) ==
         h.(frames := h.frames + [h.inBuf[done..done + n]], stack := On(Parsing(done + n), h.stack.below))
  {
  }

  lemma FrameComesOff(h: H, done: nat, n: nat)
    requires Input(h) && Up(h) && h.stack.On? && h.stack.top == Parsing(done)
    requires done <= |h.inBuf| && HasFrame(h.inBuf[done..]) && n == FrameLength(h.inBuf[done..])
    ensures done + n <= |h.inBuf|
    ensures Whole(h.received) == (h.frames + [h.inBuf[done..done + n]]) + Whole(h.inBuf[done + n..])
    ensures Rest(h.received) == Rest(h.inBuf[done + n..])
  {
    OneMoreFrame(h.frames, h.inBuf[done..], Whole(h.received));
    hide Whole, Rest, FrameLength;
    Slices(h.inBuf, done, n);
  }

  lemma FrameIsDispatched(h: H, t: H, done: nat, n: nat, frame: bytes)
    requires Input(h) && Up(h) && h.stack.On? && h.stack.top == Parsing(done) && done + n <= |h.inBuf|
    requires Whole(h.received) == (h.frames + [frame]) + Whole(h.inBuf[done + n..])
    requires Rest(h.received) == Rest(h.inBuf[done + n..])
    requires t == h.(frames := h.frames + [frame], stack := On(Parsing(done + n), h.stack.below))
    ensures Input(t)
  {
    hide Whole, Rest, HasFrame, FrameLength;
  }

  lemma InputKeptByDispatch(h: H)
    requires Input(h) && Enabled(h, Dispatch)
    ensures Input(Step(h, Dispatch))
  {
    var done := h.stack.top.done;
    var n := FrameLength(h.inBuf[done..]);
    hide Step, Input, Whole, Rest, FrameLength, HasFrame;
    DispatchTakesOne(h);
    FrameComesOff(h, done, n);
    FrameIsDispatched(h, Step(h, Dispatch), done, n, h.inBuf[done..done + n]);
  }

  lemma InputKeptByReturn(h: H)
    requires Flow(h) && Input(h) && Enabled(h, ParseReturns)
    ensures Input(Step(h, ParseReturns))
  {
    NoLoopIsDone(h.stack.below);
    assert h.inBuf[h.stack.top.done..][0..] == h.inBuf[h.stack.top.done..];
    hide Whole, Rest, Drains, FrameLength;
  }

  lemma InputKeptByTurns(h: H, e: Event)
    requires Flow(h) && Input(h) && Enabled(h, e) && IsTurn(e) && !e.Dispatch? && !e.ParseReturns?
    ensures Input(Step(h, e))
  {
    if h.stack.On? { NoLoopIsDone(h.stack.below); }
    hide Whole, Rest, Drains, FrameLength;
  }

  lemma OneMoreFrame(frames: seq<bytes>, b: bytes, whole: seq<bytes>)
    requires HasFrame(b) && whole == frames + Whole(b)
    ensures whole == (frames + [b[..FrameLength(b)]]) + Whole(b[FrameLength(b)..])
    ensures Rest(b) == Rest(b[FrameLength(b)..])
  {
  }

  lemma InputKept(h: H, e: Event)
    requires Flow(h) && Input(h) && Enabled(h, e)
    ensures Input(Step(h, e))
  {
    hide Flow, Input, Step, Enabled;
    match e
    case ReadDone(chunk) => InputKeptByReading(h, chunk);
    case Dispatch => InputKeptByDispatch(h);
    case ParseReturns => InputKeptByReturn(h);
    case _ => if IsTurn(e) { InputKeptByTurns(h, e); } else { InputKeptByCalls(h, e); }
  }

  /** Taking bytes off the front buffer moves them from the queue to the socket. */
  lemma TakeConserves(h: H, n: nat)
    ensures Take(h, n).taken + Join(Take(h, n).outBufs) == h.taken + Join(h.outBufs)
  {
    if h.outBufs != [] && n <= |h.outBufs[0]| {
      var b := h.outBufs[0];
      assert Take(h, n).outBufs[1..] == h.outBufs[1..];
      assert h.taken + b == h.taken + b[..n] + b[n..];
    }
  }

  /** A write that has ended leaves the queue as `Take` does, but for a front buffer that is used up. */
  lemma WritesTake(h: H, e: Event)
    requires Flow(h) && Enabled(h, e) && h.outBufs != [] && (e.WriteDone? || e.WriteFailed?)
    ensures var a := Take(h, e.n); var t := Step(h, e);
      && t.accepted == h.accepted && t.taken == a.taken
      && (t.outBufs == a.outBufs || (t.outBufs == a.outBufs[1..] && a.outBufs[0] == []))
      && (t.state == h.state || t.state == Shutdown)
      && (t.writeReq ==> t.outBufs != [])
      && (t.state != Shutdown && t.outBufs != [] ==> t.writeReq)
  {
    TakeLeaves(h, e.n);
    hide Take, Turn, Drains, ReadLoops;
  }

  lemma OutputKeptByWrites(h: H, e: Event)
    requires Flow(h) && Output(h) && Enabled(h, e) && (e.WriteDone? || e.WriteFailed?)
    ensures Output(Step(h, e))
  {
    if Up(h) {
      TakeConserves(h, e.n);
      TakeLeaves(h, e.n);
      WritesTake(h, e);
      hide Drains, ReadLoops, Done, Take, Step;
    }
  }

  lemma OutputKeptByData(h: H, buffer: bytes)
    requires Flow(h) && Output(h)
    ensures Output(Step(h, Data(buffer)))
  {
    JoinAppends(h.outBufs, buffer);
    hide Join, Drains, ReadLoops, Done;
  }

  lemma OutputKept(h: H, e: Event)
    requires Flow(h) && Output(h) && Enabled(h, e)
    ensures Output(Step(h, e))
  {
    hide Drains, ReadLoops, Done, HasFrame, FrameLength;
    match e
    case WriteDone(_) => OutputKeptByWrites(h, e);
    case WriteFailed(_, _) => OutputKeptByWrites(h, e);
    case Data(buffer) => OutputKeptByData(h, buffer);
    case _ =>
      assert Join([]) == [];
      hide Join, OnWrite, OnWriteFailed, OnData;
  }

  lemma StepKeepsInv(h: H, e: Event)
    requires Inv(h) && Enabled(h, e)
    ensures Inv(Step(h, e))
  {
    hide Flow, Input, Output, Step, Enabled;
    FlowKept(h, e);
    InputKept(h, e);
    OutputKept(h, e);
  }

  lemma {:induction false} RunKeepsInv(h: H, es: seq<Event>)
    requires Inv(h) && Legal(h, es)
    ensures Inv(Exec(h, es))
    decreases es
  {
    if es != [] {
      hide Inv, Step, Enabled;
      StepKeepsInv(h, es[0]);
      RunKeepsInv(Step(h, es[0]), es[1..]);
    }
  }

  lemma ReachableInv(es: seq<Event>)
    requires Legal(FRESH, es)
    ensures Inv(Exec(FRESH, es))
  {
    assert Inv(FRESH);
    RunKeepsInv(FRESH, es);
  }
}
