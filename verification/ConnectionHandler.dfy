/**
  The connection handler as the C++ class has it: a read loop that parses in
  place, and a shutdown that waits in a loop of its own for what is in flight.

  `log` is the sequence of events a handler has gone through, each booked where
  the code does what the event stands for. `Valid` says that the log is a legal
  run of `HandlerSpec` and that the fields are as that run leaves them, so every
  theorem about runs is one about the class.
 */
module ConnectionHandlers {
  import opened Frames
  import opened HandlerSpec
  import opened HandlerInvariant

  lemma {:induction false} OneMore(h: H, es: seq<Event>, e: Event)
    ensures Exec(h, es + [e]) == Step(Exec(h, es), e)
    ensures Legal(h, es + [e]) <==> Legal(h, es) && Enabled(Exec(h, es), e)
    decreases es
  {
    if es == [] {
      assert [] + [e] == [e] && [e][1..] == [];
    } else {
      assert (es + [e])[0] == es[0] && (es + [e])[1..] == es[1..] + [e];
      hide Step, Enabled;
      OneMore(Step(h, es[0]), es[1..], e);
    }
  }

  /** Calls and successful completions come from outside; turns of loops do not, and what fails was in flight. */
  predicate FromOutside(e: Event) {
    !IsTurn(e) && !e.ReadFailed? && !e.WriteFailed?
  }

  function Came(es: seq<Event>): nat {
    if es == [] then 0 else Came(es[..|es| - 1]) + (if FromOutside(es[|es| - 1]) then 1 else 0)
  }

  lemma CameOneMore(es: seq<Event>, e: Event)
    ensures Came(es + [e]) == Came(es) + (if FromOutside(e) then 1 else 0)
  {
    assert (es + [e])[..|es|] == es;
  }

  /** From here on a run has been turns of loops alone. */
  predicate OnlyTurns(es: seq<Event>, from: nat) {
    forall k | from <= k < |es| :: IsTurn(es[k])
  }

  /** The last thing a read loop does is to arm the next read, or to unwind. */
  predicate LoopIsOver(es: seq<Event>) {
    es != [] && (es[|es| - 1].Test? || es[|es| - 1].Unwind?)
  }

  /** What a method needs to know of the invariant. */
  lemma InvInFlight(h: H)
    requires Inv(h)
    ensures h.readReq ==> h.readsOut == 1 && (h.state == Ready || h.state == Shutdown)
    ensures !h.readReq ==> h.readsOut == 0
    ensures h.writeReq ==> h.writesOut == 1 && HandlerSpec.Up(h) && h.outBufs != []
    ensures !h.writeReq ==> h.writesOut == 0
    ensures !HandlerSpec.Up(h) ==> Clean(h)
    ensures h.state == ReceiverInit ==> h.stack.Empty?
  {
  }

  // What each event does, one at a time.

  lemma StepOfData(h: H, buffer: bytes)
    ensures Enabled(h, Data(buffer)) <==> Outside(h)
    ensures Step(h, Data(buffer)) ==
      if !HandlerSpec.Up(h) then h
      else
        var first := h.state == ReceiverInit;
        h.(hasConnection := true,
           state := if first then Ready else h.state,
           readReq := first || h.readReq,
           readsOut := h.readsOut + (if first then 1 else 0),
           outBufs := h.outBufs + [buffer],
           accepted := h.accepted + buffer,
           writeReq := true,
           writesOut := h.writesOut + (if h.writeReq then 0 else 1))
  {
  }

  lemma StepOfRead(h: H, chunk: bytes)
    requires HandlerSpec.Up(h) && h.readsOut == 1 && Outside(h)
    ensures Enabled(h, ReadDone(chunk))
    ensures Step(h, ReadDone(chunk)) ==
            h.(readReq := false, readsOut := 0, inBuf := h.inBuf + chunk, received := h.received + chunk,
               stack := On(Testing(true), h.stack))
  {
  }

  lemma StepOfRearm(h: H, expected: nat)
    requires h.stack.On? && h.stack.top.Testing? && HandlerSpec.Up(h)
    requires HasFrame(h.inBuf) ==> expected <= FrameLength(h.inBuf)
    requires |h.inBuf| < expected || !h.stack.top.again
    ensures Enabled(h, Test(expected))
    ensures Step(h, Test(expected)) == h.(stack := h.stack.below, readReq := true, readsOut := h.readsOut + 1)
  {
  }

  lemma StepOfParse(h: H, expected: nat)
    requires h.stack.On? && h.stack.top == Testing(true) && HandlerSpec.Up(h) && |h.inBuf| >= expected
    requires HasFrame(h.inBuf) ==> expected <= FrameLength(h.inBuf)
    ensures Enabled(h, Test(expected))
    ensures Step(h, Test(expected)) == h.(stack := On(Parsing(0), h.stack.below))
  {
  }

  lemma StepOfDispatch(h: H, n: nat)
    requires h.stack.On? && h.stack.top.Parsing? && HandlerSpec.Up(h) && h.stack.top.done <= |h.inBuf|
    requires HasFrame(h.inBuf[h.stack.top.done..]) && n == FrameLength(h.inBuf[h.stack.top.done..])
    ensures Enabled(h, Dispatch) && 0 < n && h.stack.top.done + n <= |h.inBuf|
    ensures Step(h, Dispatch) ==
            h.(frames := h.frames + [h.inBuf[h.stack.top.done..h.stack.top.done + n]],
               stack := On(Parsing(h.stack.top.done + n), h.stack.below))
  {
  }

  lemma StepOfReturn(h: H)
    requires h.stack.On? && h.stack.top.Parsing? && HandlerSpec.Up(h) && h.stack.top.done <= |h.inBuf|
    requires h.stack.top.done == 0 ==> !HasFrame(h.inBuf)
    ensures Enabled(h, ParseReturns)
    ensures Step(h, ParseReturns) ==
            h.(inBuf := h.inBuf[h.stack.top.done..], stack := On(Testing(h.stack.top.done > 0), h.stack.below))
  {
  }

  lemma StepOfUnwind(h: H)
    requires h.stack.On? && !h.stack.top.Draining? && !HandlerSpec.Up(h)
    ensures Enabled(h, Unwind) && Step(h, Unwind) == h.(stack := h.stack.below)
  {
  }

  lemma StepOfDrained(h: H)
    requires h.stack.On? && h.stack.top.Draining? && !h.readReq && !h.writeReq
    ensures Enabled(h, Drained)
    ensures Step(h, Drained) ==
            Notify(h.(stack := h.stack.below, inBuf := [], outBufs := [], hasConnection := false))
  {
  }

  lemma StepOfWrite(h: H, n: nat)
    requires Outside(h) && HandlerSpec.Up(h) && h.writesOut == 1 && h.outBufs != []
    requires n <= |h.outBufs[0]| && (n > 0 || h.outBufs[0] == [])
    ensures Enabled(h, WriteDone(n))
    ensures var left := h.outBufs[0][n..];
      var bufs := if left == [] then h.outBufs[1..] else [left] + h.outBufs[1..];
      Step(h, WriteDone(n)) ==
        h.(taken := h.taken + h.outBufs[0][..n], outBufs := bufs,
           writeReq := bufs != [], writesOut := if bufs != [] then 1 else 0)
  {
    assert ([h.outBufs[0][n..]] + h.outBufs[1..])[1..] == h.outBufs[1..];
  }

  lemma StepOfWriteFailure(h: H, n: nat, why: string)
    requires Outside(h) && HandlerSpec.Up(h) && h.writesOut == 1 && h.outBufs != [] && n <= |h.outBufs[0]|
    ensures Enabled(h, WriteFailed(n, why))
    ensures var a := h.(taken := h.taken + h.outBufs[0][..n], outBufs := [h.outBufs[0][n..]] + h.outBufs[1..],
                        writeReq := false, writesOut := 0);
      Step(h, WriteFailed(n, why)) ==
        if h.state == Shutdown then a
        else a.(lastError := WriteError(why), state := Shutdown, stack := On(Draining, h.stack))
  {
  }

  class ConnectionHandler {
    var state: State
    var hasConnection: bool
    var inBuf: bytes
    var outBufs: seq<bytes>
    var lastError: Reason
    var amqpError: bool
    var readReq: bool
    var writeReq: bool

    // What the handler has handed on: frames to AMQP-CPP, and messages to the shutdown callback.
    ghost var dispatched: seq<bytes>
    ghost var notified: seq<Reason>

    ghost var log: seq<Event>
    ghost var model: H

    /** How many more calls, successful reads and writes the event loop has to offer inside our loops. */
    var happenings: nat

    ghost predicate Booked()
      reads this`log, this`model
    {
      Legal(FRESH, log) && model == Exec(FRESH, log) && Inv(model)
    }

    ghost predicate Agrees()
      reads this
    {
      && state == model.state && hasConnection == model.hasConnection
      && inBuf == model.inBuf && outBufs == model.outBufs
      && lastError == model.lastError && amqpError == model.amqpError
      && readReq == model.readReq && writeReq == model.writeReq
      && dispatched == model.frames && notified == model.shutdowns
    }

    ghost predicate Valid()
      reads this
    {
      Booked() && Agrees()
    }

    /** Where other code can run: at top level, inside `parse`, in the wait of a shutdown. */
    ghost predicate Open()
      reads this
    {
      Valid() && Outside(model)
    }

    constructor (happenings: nat)
      ensures Open() && model == FRESH && log == []
    {
      state, hasConnection, inBuf, outBufs := NotConnected, false, [], [];
      lastError, amqpError, readReq, writeReq := NoReason, false, false, false;
      dispatched, notified, log, model := [], [], [], FRESH;
      this.happenings := happenings;
    }

    lemma InFlight()
      requires Booked()
      ensures model.readReq ==> model.readsOut == 1 && (model.state == Ready || model.state == State.Shutdown)
      ensures model.writeReq ==> model.writesOut == 1 && HandlerSpec.Up(model) && model.outBufs != []
      ensures !HandlerSpec.Up(model) ==> Clean(model)
      ensures model.state == ReceiverInit ==> model.stack.Empty?
    {
      InvInFlight(model);
    }

    ghost method Book(e: Event)
      requires Booked() && Enabled(model, e)
      modifies this`log, this`model
      ensures Booked() && model == Step(old(model), e) && log == old(log) + [e]
      ensures Came(log) == old(Came(log)) + (if FromOutside(e) then 1 else 0)
    {
      hide Came;
      CameOneMore(log, e);
      OneMore(FRESH, log, e);
      StepKeepsInv(model, e);
      log, model := log + [e], Step(model, e);
    }

    predicate Up()
      reads this`state
    {
      state == ReceiverInit || state == Ready || state == State.Shutdown
    }

    // -------------------------------------------------------------- calls

    method Start()
      requires Valid() && model.stack.Empty?
      modifies this
      ensures Valid() && log == old(log) + [Event.Start] && model == Step(old(model), Event.Start)
    {
      hide Booked;
      if state == NotConnected {
        amqpError := false;
        state := Resolving;
        dispatched := [];
      }
      Book(Event.Start);
    }

    method Resolve(ok: bool, why: string)
      requires Open()
      modifies this
      ensures Valid() && log == old(log) + [Resolved(ok, why)] && model == Step(old(model), Resolved(ok, why))
    {
      hide Booked;
      if state == Resolving {
        if ok {
          state := Connecting;
        } else {
          lastError := FailedToResolve(why);
          state := NotConnected;
          notified := notified + [lastError];
          lastError := NoReason;
        }
      }
      Book(Resolved(ok, why));
    }

    method Connect(ok: bool, why: string)
      requires Open()
      modifies this
      ensures Valid() && log == old(log) + [Connected(ok, why)] && model == Step(old(model), Connected(ok, why))
    {
      hide Booked;
      if state == Connecting {
        if ok {
          state := ReceiverInit;
        } else {
          lastError := FailedToConnect(why);
          state := NotConnected;
          notified := notified + [lastError];
          lastError := NoReason;
        }
      }
      Book(Connected(ok, why));
    }

    method OnData(buffer: bytes)
      requires Open()
      modifies this
      ensures Valid() && log == old(log) + [Data(buffer)] && model == Step(old(model), Data(buffer))
      ensures happenings == old(happenings) && Came(log) == old(Came(log)) + 1
    {
      hide Booked, Came, Step, Enabled;
      StepOfData(model, buffer);
      if Up() {
        hasConnection := true;
        if state == ReceiverInit {
          state := Ready;
          readReq := true;
        }
        outBufs := outBufs + [buffer];
        if !writeReq {
          writeReq := true;
        }
      }
      Book(Data(buffer));
    }

    /** `eShutdown`, reached by the event `e`: the wait begins. */
    method EnterShutdown(reason: Reason, ghost e: Event)
      requires Booked() && Enabled(model, e)
      requires Step(model, e).stack == On(Draining, model.stack) && Step(model, e).lastError == reason
      requires Step(model, e).state == State.Shutdown
      requires hasConnection == Step(model, e).hasConnection && amqpError == Step(model, e).amqpError
      requires inBuf == Step(model, e).inBuf && outBufs == Step(model, e).outBufs
      requires readReq == Step(model, e).readReq && writeReq == Step(model, e).writeReq
      requires dispatched == Step(model, e).frames && notified == Step(model, e).shutdowns
      modifies this
      ensures Down(old(model.stack))
      ensures old(log) + [e] <= log && happenings <= old(happenings)
      ensures Came(log) + happenings <= old(Came(log)) + old(happenings) + (if FromOutside(e) then 1 else 0)
      decreases happenings, 3
    {
      hide Booked, Came, Step, Enabled;
      lastError := reason;
      state := State.Shutdown;
      Book(e);
      Drain();
    }

    /** Where a shutdown ends, in the loop it was called from. */
    ghost predicate Down(stack: Stack)
      reads this
    {
      Valid() && state == NotConnected && model.stack == stack && Clean(model)
    }

    method Stop()
      requires Open()
      modifies this
      ensures Down(old(model.stack))
      ensures old(log) + [Event.Stop] <= log && happenings <= old(happenings)
      ensures Came(log) + happenings <= old(Came(log)) + old(happenings) + 1
      decreases happenings, 4
    {
      hide Booked, Came;
      InFlight();
      if state == NotConnected {
        Book(Event.Stop);
        return;
      }
      EnterShutdown(NoReason, Event.Stop);
    }

    method OnError(text: string)
      requires Open()
      modifies this
      ensures if old(Up()) then Down(old(model.stack)) else Valid() && model == old(model)
      ensures old(log) + [Error(text)] <= log && happenings <= old(happenings)
      ensures Came(log) + happenings <= old(Came(log)) + old(happenings) + 1
      decreases happenings, 4
    {
      hide Booked, Came;
      if !Up() {
        Book(Error(text));
        return;
      }
      hasConnection := true;
      amqpError := true;
      EnterShutdown(AmqpCppError(text), Error(text));
    }

    method OnClosed()
      requires Open()
      modifies this
      ensures if old(Up()) then Down(old(model.stack)) else Valid() && model == old(model)
      ensures old(log) + [Closed] <= log && happenings <= old(happenings)
      ensures Came(log) + happenings <= old(Came(log)) + old(happenings) + 1
      decreases happenings, 4
    {
      hide Booked, Came;
      if !Up() {
        Book(Closed);
        return;
      }
      hasConnection := true;
      EnterShutdown(NoReason, Closed);
    }

    // -------------------------------------------------------------- the wait of a shutdown

    /** Waits for what is in flight, however long that takes, then clears up and makes the callback. */
    method Drain()
      requires Valid() && state == State.Shutdown && model.stack.On? && model.stack.top.Draining?
      modifies this
      ensures Down(old(model.stack).below)
      ensures old(log) <= log && happenings <= old(happenings)
      ensures Came(log) + happenings <= old(Came(log)) + old(happenings)
      decreases happenings, 2
    {
      hide Booked, Came, Step, Enabled;
      while readReq || writeReq
        invariant Valid() && model.stack == old(model.stack)
        invariant state == State.Shutdown || (state == NotConnected && !readReq && !writeReq)
        invariant old(log) <= log && happenings <= old(happenings)
        invariant Came(log) + happenings <= old(Came(log)) + old(happenings)
        decreases happenings, (if readReq then 1 else 0) + (if writeReq then 1 else 0)
      {
        RunOne();
      }
      ClearUp();
    }

    method ClearUp()
      requires Valid() && model.stack.On? && model.stack.top.Draining? && !readReq && !writeReq
      modifies this
      ensures Down(old(model.stack).below)
      ensures log == old(log) + [Drained] && happenings == old(happenings) && Came(log) == old(Came(log))
    {
      hide Booked, Came, Step, Enabled;
      StepOfDrained(model);
      inBuf := [];
      outBufs := [];
      hasConnection := false;
      state := NotConnected;
      notified := notified + [lastError];
      lastError := NoReason;
      Book(Drained);
    }

    /**
      `run_one` in the wait: any completion of what is in flight, whole, partial
      or failed, or any call; or else, once the observed happenings are used up,
      the failure of what is in flight.
     */
    method RunOne()
      requires Valid() && state == State.Shutdown && model.stack.On? && model.stack.top.Draining?
      requires readReq || writeReq
      modifies this
      ensures Valid() && model.stack == old(model.stack)
      ensures state == State.Shutdown || (state == NotConnected && !readReq && !writeReq)
      ensures old(log) <= log
      ensures happenings < old(happenings) ||
              (happenings == old(happenings) &&
               (if readReq then 1 else 0) + (if writeReq then 1 else 0)
               < (if old(readReq) then 1 else 0) + (if old(writeReq) then 1 else 0))
      ensures Came(log) + happenings <= old(Came(log)) + old(happenings)
      decreases happenings, 1
    {
      hide Booked, Came, Step, Enabled;
      InFlight();
      var completion := *;
      if happenings == 0 {
        if readReq { OnReadFailed("cancelled"); } else { OnWriteFailed(0, "cancelled"); }
      } else {
        happenings := happenings - 1;
        if completion { AnyCompletion(); } else { AnyCall(); }
      }
    }

    /** Any way in which what is in flight can complete. */
    method AnyCompletion()
      requires Open() && state == State.Shutdown && (readReq || writeReq)
      modifies this
      ensures Valid() && model.stack == old(model.stack)
      ensures state == State.Shutdown || (state == NotConnected && !readReq && !writeReq)
      ensures old(log) <= log && happenings <= old(happenings)
      ensures Came(log) + happenings <= old(Came(log)) + old(happenings) + 1
      decreases happenings, 10
    {
      hide Booked, Came;
      var ofWrite: bool, fails: bool, chunk: bytes, why: string := *, *, *, *;
      if writeReq && (ofWrite || !readReq) {
        WriteCompletes();
      } else if fails {
        OnReadFailed(why);
      } else {
        OnRead(chunk);
      }
    }

    /** A write completes, whole, in part, or with an error after some bytes. */
    method WriteCompletes()
      requires Open() && writeReq
      modifies this
      ensures Valid() && model.stack == old(model.stack)
      ensures (state == NotConnected && !readReq && !writeReq)
              || (state == old(state) && inBuf == old(inBuf) && readReq == old(readReq))
      ensures old(log) <= log && happenings <= old(happenings)
      ensures Came(log) + happenings <= old(Came(log)) + old(happenings) + 1
      decreases happenings, 5
    {
      hide Booked, Came;
      InFlight();
      var fails: bool, n: nat, why: string := *, *, *;
      if n > |outBufs[0]| { n := |outBufs[0]|; }
      if fails {
        OnWriteFailed(n, why);
      } else {
        OnWrite(if n == 0 then |outBufs[0]| else n);
      }
    }

    /** Some call another part of the program makes to the handler. */
    method AnyCall()
      requires Open()
      modifies this
      ensures Valid() && model.stack == old(model.stack)
      ensures state == NotConnected ==> !readReq && !writeReq
      ensures state == NotConnected || (state == old(state) && inBuf == old(inBuf)) || old(state) == ReceiverInit
      ensures old(log) <= log && happenings <= old(happenings)
      ensures Came(log) + happenings <= old(Came(log)) + old(happenings) + 1
      decreases happenings, 5
    {
      hide Booked, Came, Step, Enabled;
      InFlight();
      if {
        case true =>
          Stop();
        case true =>
          var text: string := *;
          OnError(text);
        case true =>
          OnClosed();
        case true =>
          var buffer: bytes := *;
          StepOfData(model, buffer);
          OnData(buffer);
      }
    }

    // -------------------------------------------------------------- reading

    method OnReadFailed(why: string)
      requires Open() && readReq
      modifies this
      ensures if old(state) == State.Shutdown
              then Valid() && model.stack == old(model.stack) && state == State.Shutdown
                   && !readReq && writeReq == old(writeReq)
              else Down(old(model.stack))
      ensures old(log) + [ReadFailed(why)] <= log && happenings <= old(happenings)
      ensures Came(log) + happenings <= old(Came(log)) + old(happenings)
      decreases happenings, if state == State.Shutdown then 0 else 4
    {
      hide Booked, Came;
      InFlight();
      readReq := false;
      if state != State.Shutdown {
        EnterShutdown(ReadError(why), ReadFailed(why));
      } else {
        Book(ReadFailed(why));
      }
    }

    /** What AMQP-CPP says it needs before it can do anything more. */
    method Expected() returns (expected: nat)
      ensures HasFrame(inBuf) ==> expected <= FrameLength(inBuf)
    {
      expected := *;
      if HasFrame(inBuf) && expected > FrameLength(inBuf) {
        expected := FrameLength(inBuf);
      }
    }

    method OnRead(chunk: bytes)
      requires Open() && readReq
      modifies this
      ensures Valid() && model.stack == old(model.stack)
      ensures (state == NotConnected && !readReq && !writeReq) || (state == old(state) && readReq)
      ensures state == Ready && model.stack.Empty? ==>
                dispatched == Whole(model.received) && inBuf == Rest(model.received)
      ensures old(log) + [ReadDone(chunk)] <= log && happenings <= old(happenings)
      ensures Came(log) + happenings <= old(Came(log)) + old(happenings) + 1
      ensures happenings == old(happenings) ==> state == old(state) && readReq && OnlyTurns(log, |old(log)| + 1)
      ensures LoopIsOver(log)
      decreases happenings, 9
    {
      hide Booked, Came, Step, Enabled, Whole, Rest, HasFrame, FrameLength;
      InFlight();
      StepOfRead(model, chunk);
      readReq := false;
      inBuf := inBuf + chunk;
      Book(ReadDone(chunk));
      ReadLoop();
      ArmedMeansWhole();
    }

    /** Parses as long as there may be a frame, and then arms the next read, unless the handler has gone down. */
    method ReadLoop()
      requires Valid() && Up() && !readReq && model.stack.On? && model.stack.top == Testing(true)
      modifies this
      ensures Valid() && model.stack == old(model.stack).below
      ensures (state == NotConnected && !readReq && !writeReq) || (state == old(state) && readReq)
      ensures old(log) <= log && happenings <= old(happenings)
      ensures Came(log) + happenings <= old(Came(log)) + old(happenings)
      ensures happenings == old(happenings) ==> state == old(state) && OnlyTurns(log, |old(log)|)
      ensures LoopIsOver(log)
      decreases happenings, 8
    {
      hide Booked, Came, Step, Enabled, HasFrame, FrameLength;
      var parsed: nat := 1;
      while true
        invariant Valid() && Up() && state == old(state) && !readReq
        invariant model.stack == On(Testing(parsed > 0), old(model.stack).below)
        invariant old(log) <= log && happenings <= old(happenings)
        invariant Came(log) + happenings <= old(Came(log)) + old(happenings)
        invariant happenings == old(happenings) ==> OnlyTurns(log, |old(log)|)
        decreases |inBuf| + (if parsed > 0 then 1 else 0)
      {
        var expected := Expected();
        if |inBuf| < expected || parsed == 0 {
          StepOfRearm(model, expected);
          readReq := true;
          Book(Test(expected));
          break;
        }
        StepOfParse(model, expected);
        Book(Test(expected));
        parsed := ParseOnce();
        if !Up() {
          return;
        }
      }
    }

    /** The body of the loop: parse, then drop what was parsed, unless the handler has gone down meanwhile. */
    method ParseOnce() returns (parsed: nat)
      requires Valid() && Up() && !readReq && model.stack.On? && model.stack.top == Parsing(0)
      modifies this
      ensures Valid()
      ensures if Up() then
                && state == old(state) && !readReq
                && parsed <= |old(inBuf)| && inBuf == old(inBuf)[parsed..]
                && model.stack == On(Testing(parsed > 0), old(model.stack).below)
              else
                state == NotConnected && model.stack == old(model.stack).below && !readReq && !writeReq
      ensures old(log) <= log && happenings <= old(happenings)
      ensures Came(log) + happenings <= old(Came(log)) + old(happenings)
      ensures happenings == old(happenings) ==> Up() && OnlyTurns(log, |old(log)|)
      ensures !Up() ==> LoopIsOver(log)
      decreases happenings, 7
    {
      hide Booked, Came, Step, Enabled, HasFrame, FrameLength;
      parsed := Parse();
      if !Up() {
        StepOfUnwind(model);
        Book(Unwind);
        return;
      }
      StepOfReturn(model);
      inBuf := inBuf[parsed..];
      Book(ParseReturns);
    }

    lemma ArmedMeansWhole()
      requires Booked()
      ensures model.state == Ready && model.stack.Empty? ==>
                model.frames == Whole(model.received) && model.inBuf == Rest(model.received)
    {
      assert model.inBuf[0..] == model.inBuf;
    }

    /** `parse`: hands out complete frames from the front, at least one if there is one, and lets others call in. */
    method Parse() returns (parsed: nat)
      requires Valid() && Up() && !readReq && model.stack.On? && model.stack.top == Parsing(0)
      modifies this
      ensures Valid()
      ensures if Up() then
                && state == old(state) && inBuf == old(inBuf) && !readReq
                && parsed <= |inBuf| && (parsed == 0 ==> !HasFrame(inBuf))
                && model.stack == On(Parsing(parsed), old(model.stack).below)
              else
                && model.stack.On? && model.stack.top.Parsing? && model.stack.below == old(model.stack).below
                && state == NotConnected && !readReq && !writeReq
      ensures old(log) <= log && happenings <= old(happenings)
      ensures Came(log) + happenings <= old(Came(log)) + old(happenings)
      ensures happenings == old(happenings) ==> Up() && OnlyTurns(log, |old(log)|)
      decreases happenings, 6
    {
      hide Booked, Came, Step, Enabled, FrameLength;
      InFlight();
      parsed := 0;
      while true
        invariant Valid() && Up() && state == old(state) && inBuf == old(inBuf) && !readReq
        invariant parsed <= |inBuf| && model.stack == On(Parsing(parsed), old(model.stack).below)
        invariant old(log) <= log && happenings <= old(happenings)
        invariant Came(log) + happenings <= old(Came(log)) + old(happenings)
        invariant happenings == old(happenings) ==> OnlyTurns(log, |old(log)|)
        decreases |inBuf| - parsed
      {
        if !HasFrame(inBuf[parsed..]) {
          assert inBuf[0..] == inBuf;
          break;
        }
        var more := *;
        if parsed > 0 && !more {
          break;
        }
        var length := FrameLength(inBuf[parsed..]);
        StepOfDispatch(model, length);
        dispatched := dispatched + [inBuf[parsed..parsed + length]];
        parsed := parsed + length;
        Book(Dispatch);
        FrameCallbacks(parsed);
        if !Up() {
          return;
        }
      }
    }

    /** The calls made while a frame is handled, and writes that complete meanwhile: some, until the handler is down. */
    method FrameCallbacks(ghost parsed: nat)
      requires Valid() && Up() && state != ReceiverInit && !readReq
      requires model.stack.On? && model.stack.top == Parsing(parsed)
      modifies this
      ensures Valid() && model.stack == old(model.stack)
      ensures if Up() then state == old(state) && inBuf == old(inBuf) && !readReq
              else state == NotConnected && !readReq && !writeReq
      ensures old(log) <= log && happenings <= old(happenings)
      ensures Came(log) + happenings <= old(Came(log)) + old(happenings)
      ensures happenings == old(happenings) ==> Up() && log == old(log)
      decreases happenings, 5
    {
      hide Booked, Came;
      while happenings > 0
        invariant Valid() && Up() && state == old(state) && inBuf == old(inBuf) && !readReq
        invariant model.stack == old(model.stack)
        invariant old(log) <= log && happenings <= old(happenings)
        invariant Came(log) + happenings <= old(Came(log)) + old(happenings)
        invariant happenings == old(happenings) ==> log == old(log)
        decreases happenings
      {
        var call := *;
        if !call {
          break;
        }
        happenings := happenings - 1;
        var completion := *;
        if completion && writeReq { WriteCompletes(); } else { AnyCall(); }
        NoReadInAReadLoop();
        if !Up() {
          return;
        }
      }
    }

    lemma NoReadInAReadLoop()
      requires Booked()
      ensures HandlerSpec.Up(model) && model.stack.On? && model.stack.top.Parsing? ==> !model.readReq
    {
    }

    // -------------------------------------------------------------- writing

    method OnWriteFailed(n: nat, why: string)
      requires Open() && writeReq && n <= |outBufs[0]|
      modifies this
      ensures if old(state) == State.Shutdown
              then Valid() && model.stack == old(model.stack) && state == State.Shutdown
                   && !writeReq && readReq == old(readReq) && inBuf == old(inBuf)
              else Down(old(model.stack))
      ensures old(log) + [WriteFailed(n, why)] <= log && happenings <= old(happenings)
      ensures Came(log) + happenings <= old(Came(log)) + old(happenings)
      decreases happenings, if state == State.Shutdown then 0 else 4
    {
      hide Booked, Came, Step, Enabled;
      InFlight();
      StepOfWriteFailure(model, n, why);
      writeReq := false;
      outBufs := [outBufs[0][n..]] + outBufs[1..];
      if state != State.Shutdown {
        EnterShutdown(WriteError(why), WriteFailed(n, why));
      } else {
        Book(WriteFailed(n, why));
      }
    }

    method OnWrite(n: nat)
      requires Open() && writeReq && n <= |outBufs[0]| && (n > 0 || outBufs[0] == [])
      modifies this
      ensures Valid() && log == old(log) + [WriteDone(n)] && model == Step(old(model), WriteDone(n))
      ensures model.stack == old(model.stack) && state == old(state) && inBuf == old(inBuf)
      ensures readReq == old(readReq) && happenings == old(happenings) && Came(log) == old(Came(log)) + 1
    {
      hide Booked, Came, Step, Enabled;
      InFlight();
      StepOfWrite(model, n);
      writeReq := false;
      outBufs := [outBufs[0][n..]] + outBufs[1..];
      if outBufs[0] == [] {
        outBufs := outBufs[1..];
      }
      if outBufs != [] {
        writeReq := true;
      }
      Book(WriteDone(n));
    }
  }
}
