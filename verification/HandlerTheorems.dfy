/** What holds of every run of one connection handler. */
module HandlerTheorems {
  import opened Frames
  import opened HandlerSpec
  import opened HandlerInvariant

  // ---------------------------------------------------------------- input

  /** Up, and in no loop: a read is armed, and nothing else is going on. */
  predicate Idle(h: H) {
    h.state == Ready && h.stack.Empty?
  }

  /** Connected, and in no read loop: the handler waits for more input, idle or in the wait of a shutdown. */
  predicate BetweenReads(h: H) {
    Up(h) && ReadLoops(h.stack) == 0
  }

  /**
    However the input was cut into reads, whenever no read loop is at work, and
    so whenever a read is armed, the frames handed out are the complete frames of
    all bytes received, once each and in order, and what is kept is the beginning
    of the next one.
   */
  lemma FramesComeWhole(es: seq<Event>)
    requires Legal(FRESH, es)
    ensures var h := Exec(FRESH, es);
      && (BetweenReads(h) ==>
            && h.frames == Whole(h.received) && h.inBuf == Rest(h.received)
            && Join(h.frames) + h.inBuf == h.received && !HasFrame(h.inBuf))
      && (Idle(h) ==> h.readsOut == 1)
      && (h.readReq ==> BetweenReads(h))
      && (Up(h) ==> h.frames <= Whole(h.received))
  {
    hide Exec, Legal, Whole, Rest;
    ReachableInv(es);
    BetweenReadsIsWhole(Exec(FRESH, es));
  }

  lemma BetweenReadsIsWhole(h: H)
    requires Inv(h)
    ensures BetweenReads(h) ==>
              && h.frames == Whole(h.received) && h.inBuf == Rest(h.received)
              && Join(h.frames) + h.inBuf == h.received && !HasFrame(h.inBuf)
    ensures Idle(h) ==> h.readsOut == 1
    ensures h.readReq ==> BetweenReads(h)
    ensures Up(h) ==> h.frames <= Whole(h.received)
  {
    NothingIsLost(h.received);
    NoLoopIsDone(h.stack);
    if BetweenReads(h) {
      assert h.inBuf[0..] == h.inBuf;
    }
  }

  /** Two runs that have received the same bytes have handed out the same frames. */
  lemma CutsMakeNoDifference(xs: seq<Event>, ys: seq<Event>)
    requires Legal(FRESH, xs) && Legal(FRESH, ys)
    requires BetweenReads(Exec(FRESH, xs)) && BetweenReads(Exec(FRESH, ys))
    requires Exec(FRESH, xs).received == Exec(FRESH, ys).received
    ensures Exec(FRESH, xs).frames == Exec(FRESH, ys).frames
    ensures Exec(FRESH, xs).inBuf == Exec(FRESH, ys).inBuf
  {
    FramesComeWhole(xs);
    FramesComeWhole(ys);
  }

  /** The pointer to the AMQP connection is there whenever the read loop uses it. */
  lemma NoNullConnection(es: seq<Event>, e: Event)
    requires Legal(FRESH, es) && Enabled(Exec(FRESH, es), e)
    ensures var h := Exec(FRESH, es);
      (e.Test? || e.Dispatch? || e.ParseReturns? || h.readReq) && Up(h) ==> h.hasConnection
  {
    ReachableInv(es);
    var h := Exec(FRESH, es);
    if h.stack.On? {
      assert ReadLoops(h.stack) == ReadLoops(h.stack.below) + (if h.stack.top.Draining? then 0 else 1);
    }
  }

  // ---------------------------------------------------------------- output

  /**
    The bytes the socket has taken, followed by those still queued, are the
    bytes accepted, in order; one write at most is in flight, and outside a
    shutdown exactly as long as something is queued.
   */
  lemma OutputIsConserved(es: seq<Event>)
    requires Legal(FRESH, es)
    ensures var h := Exec(FRESH, es);
      && h.writesOut <= 1
      && (Up(h) ==> h.taken + Join(h.outBufs) == h.accepted)
      && (h.state == ReceiverInit || h.state == Ready ==> (h.writesOut == 1 <==> h.outBufs != []))
  {
    ReachableInv(es);
  }

  // ---------------------------------------------------------------- shutdown

  predicate NoStart(es: seq<Event>) {
    forall e | e in es :: !e.Start?
  }

  /** Once a shutdown has begun, only the loops left over go on, and they change nothing else. */
  lemma DownOnlyUnwinds(h: H, e: Event)
    requires Inv(h) && h.state == NotConnected && Enabled(h, e) && !e.Start?
    ensures var t := Step(h, e);
      && t.state == NotConnected
      && t == h.(stack := t.stack, shutdowns := t.shutdowns, lastError := t.lastError)
      && (t.stack == h.stack ==> t == h)
  {
    assert h.readsOut == 0 && h.writesOut == 0;
  }

  lemma ShutdownOnlyEnds(h: H, e: Event)
    requires Inv(h) && h.state == Shutdown && Enabled(h, e)
    ensures Step(h, e).state == Shutdown || Step(h, e).state == NotConnected
  {
    if e.WriteDone? || e.WriteFailed? { TakeLeaves(h, e.n); }
    hide Take;
  }

  lemma {:induction false} ShutdownGoesOn(h: H, es: seq<Event>)
    requires Inv(h) && (h.state == Shutdown || h.state == NotConnected) && Legal(h, es) && NoStart(es)
    ensures Exec(h, es).state == Shutdown || Exec(h, es).state == NotConnected
    decreases es
  {
    if es != [] {
      assert es[0] in es;
      StepKeepsInv(h, es[0]);
      if h.state == Shutdown { ShutdownOnlyEnds(h, es[0]); } else { DownOnlyUnwinds(h, es[0]); }
      hide Step, Inv, Enabled;
      ShutdownGoesOn(Step(h, es[0]), es[1..]);
    }
  }

  /**
    A shutdown, from wherever it was begun and whatever comes in between, ends
    with nothing in flight, nothing buffered and no connection pointer.
   */
  lemma ShutdownEndsClean(h: H, e: Event, es: seq<Event>)
    requires Inv(h) && Enabled(h, e) && Step(h, e).state == Shutdown
    requires Legal(Step(h, e), es) && NoStart(es)
    ensures var t := Exec(Step(h, e), es);
      t.state != Shutdown ==> t.state == NotConnected && Clean(t) && t.readsOut == t.writesOut == 0
  {
    hide Step, Enabled, Legal, Exec, Inv;
    StepKeepsInv(h, e);
    ShutdownGoesOn(Step(h, e), es);
    RunKeepsInv(Step(h, e), es);
    if Exec(Step(h, e), es).state == NotConnected { DownIsClean(Exec(Step(h, e), es)); }
  }

  lemma DownIsClean(h: H)
    requires Inv(h) && h.state == NotConnected
    ensures Clean(h) && h.readsOut == h.writesOut == 0
  {
  }

  // ---------------------------------------------------------------- shutdown callbacks

  /** A session is one effective start. */
  predicate Begins(h: H, e: Event) {
    e.Start? && h.state == NotConnected
  }

  /** A call that shuts down a handler that is already shutting down. */
  predicate Reenters(h: H, e: Event) {
    h.state == Shutdown && (e.Stop? || e.Error? || e.Closed?)
  }

  function Sessions(h: H, es: seq<Event>): nat
    decreases es
  {
    if es == [] then 0 else (if Begins(h, es[0]) then 1 else 0) + Sessions(Step(h, es[0]), es[1..])
  }

  function Reentries(h: H, es: seq<Event>): nat
    decreases es
  {
    if es == [] then 0 else (if Reenters(h, es[0]) then 1 else 0) + Reentries(Step(h, es[0]), es[1..])
  }

  /** Callbacks still owed: one by every shutdown that waits, and one by a session that has not come to one. */
  function Owed(h: H): nat {
    Drains(h.stack) + (if h.state == NotConnected || h.state == Shutdown then 0 else 1)
  }

  lemma TransferOwes(h: H, e: Event)
    requires Flow(h) && Enabled(h, e) && IsTransfer(e)
    ensures |Step(h, e).shutdowns| + Owed(Step(h, e)) == |h.shutdowns| + Owed(h)
  {
    if e.WriteDone? || e.WriteFailed? { TakeLeaves(h, e.n); }
    hide Take, Turn, ReadLoops, Done;
  }

  lemma DrainOwes(h: H)
    requires Flow(h) && Enabled(h, Drained)
    ensures |Step(h, Drained).shutdowns| + Owed(Step(h, Drained)) == |h.shutdowns| + Owed(h)
  {
    hide HasFrame, FrameLength, ReadLoops, Done;
  }

  lemma TurnOwes(h: H, e: Event)
    requires Enabled(h, e) && IsTurn(e) && !e.Drained?
    ensures |Step(h, e).shutdowns| + Owed(Step(h, e)) == |h.shutdowns| + Owed(h)
  {
    hide Step, Enabled, Drains;
    if e.Dispatch? || e.ParseReturns? { ParsingLeaves(h, e); } else { TurningLeaves(h, e); }
  }

  lemma DataOwes(h: H, buffer: bytes)
    requires Flow(h)
    ensures Step(h, Data(buffer)).shutdowns == h.shutdowns && Owed(Step(h, Data(buffer))) == Owed(h)
  {
    hide ReadLoops, Done;
  }

  lemma CallOwes(h: H, e: Event)
    requires Flow(h) && Enabled(h, e) && !IsTransfer(e) && !IsTurn(e)
    ensures |Step(h, e).shutdowns| + Owed(Step(h, e)) ==
            |h.shutdowns| + Owed(h) + (if Begins(h, e) then 1 else 0) + (if Reenters(h, e) then 1 else 0)
  {
    hide ReadLoops, Done, OnData, OnRead, OnReadFailed, OnWrite, OnWriteFailed, Turn, Clean;
    if e.Data? { DataOwes(h, e.buffer); }
  }

  lemma CallbacksStep(h: H, e: Event)
    requires Inv(h) && Enabled(h, e)
    ensures |Step(h, e).shutdowns| + Owed(Step(h, e)) ==
            |h.shutdowns| + Owed(h) + (if Begins(h, e) then 1 else 0) + (if Reenters(h, e) then 1 else 0)
  {
    hide Step, Enabled, Flow, Input, Output, Owed;
    if IsTransfer(e) {
      TransferOwes(h, e);
    } else if e.Drained? {
      DrainOwes(h);
    } else if IsTurn(e) {
      TurnOwes(h, e);
    } else {
      CallOwes(h, e);
    }
  }

  lemma {:induction false} CallbacksAddUp(h: H, es: seq<Event>)
    requires Inv(h) && Legal(h, es)
    ensures |Exec(h, es).shutdowns| + Owed(Exec(h, es)) ==
            |h.shutdowns| + Owed(h) + Sessions(h, es) + Reentries(h, es)
    decreases es
  {
    if es != [] {
      hide Step, Inv, Enabled, Begins, Reenters, Owed;
      StepKeepsInv(h, es[0]);
      CallbacksStep(h, es[0]);
      CallbacksAddUp(Step(h, es[0]), es[1..]);
    }
  }

  /**
    When all has come to rest, the shutdown callback has been made once for each
    session exactly if no call re-entered a shutdown; otherwise once more for each
    call that did.
   */
  lemma OneCallbackEachUnlessReentered(es: seq<Event>)
    requires Legal(FRESH, es)
    ensures var h := Exec(FRESH, es);
      h.state == NotConnected && h.stack.Empty? ==>
        && |h.shutdowns| == Sessions(FRESH, es) + Reentries(FRESH, es)
        && (|h.shutdowns| == Sessions(FRESH, es) <==> Reentries(FRESH, es) == 0)
  {
    assert Inv(FRESH);
    CallbacksAddUp(FRESH, es);
  }

  // ---------------------------------------------------------------- what the callback is told

  /** Why a session ends, if it is this event that ends it. */
  function ReasonOf(h: H, e: Event): seq<Reason> {
    match e
    case Resolved(ok, why) => if h.state == Resolving && !ok then [FailedToResolve(why)] else []
    case Connected(ok, why) => if h.state == Connecting && !ok then [FailedToConnect(why)] else []
    case Stop => if h.state == NotConnected then [] else [NoReason]
    case Error(text) => if Up(h) then [AmqpCppError(text)] else []
    case Closed => if Up(h) then [NoReason] else []
    case ReadFailed(why) => if h.state == ReceiverInit || h.state == Ready then [ReadError(why)] else []
    case WriteFailed(_, why) => if h.state == ReceiverInit || h.state == Ready then [WriteError(why)] else []
    case _ => []
  }

  function Reasons(h: H, es: seq<Event>): seq<Reason>
    decreases es
  {
    if es == [] then [] else ReasonOf(h, es[0]) + Reasons(Step(h, es[0]), es[1..])
  }

  /** The reason kept for the callback that is still to come. */
  function Kept(h: H): seq<Reason> {
    if h.state == Shutdown then [h.lastError] else []
  }

  /** One shutdown at a time, and a reason only while there is one. */
  predicate OneAtATime(h: H) {
    && Drains(h.stack) == (if h.state == Shutdown then 1 else 0)
    && (h.state != Shutdown ==> h.lastError == NoReason)
  }

  function ToldOrKept(h: H): seq<Reason> {
    h.shutdowns + Kept(h)
  }

  /** What a step adds to the reasons told and kept. */
  predicate Tells(h: H, e: Event) {
    var t := Step(h, e);
    OneAtATime(t) && ToldOrKept(t) == ToldOrKept(h) + ReasonOf(h, e)
  }

  lemma CallTells(h: H, e: Event)
    requires Flow(h) && OneAtATime(h) && Enabled(h, e) && !Reenters(h, e) && !IsTurn(e) && !IsTransfer(e)
    ensures Tells(h, e)
  {
    hide ReadLoops, Done, OnRead, OnReadFailed, OnWrite, OnWriteFailed, Turn;
    assert h.shutdowns + Kept(h) + [] == h.shutdowns + Kept(h);
    assert h.shutdowns + [] == h.shutdowns;
  }

  lemma ReadTells(h: H, e: Event)
    requires Flow(h) && OneAtATime(h) && Enabled(h, e) && (e.ReadDone? || e.ReadFailed?)
    ensures Tells(h, e)
  {
    hide Turn, ReadLoops, Done;
    assert h.shutdowns + Kept(h) + [] == h.shutdowns + Kept(h);
    assert h.shutdowns + [] == h.shutdowns;
  }

  lemma WriteTells(h: H, e: Event)
    requires Flow(h) && OneAtATime(h) && Enabled(h, e) && (e.WriteDone? || e.WriteFailed?)
    ensures Tells(h, e)
  {
    TakeLeaves(h, e.n);
    hide Take, Turn, ReadLoops, Done;
    assert h.shutdowns + Kept(h) + [] == h.shutdowns + Kept(h);
    assert h.shutdowns + [] == h.shutdowns;
  }

  lemma DrainTells(h: H)
    requires OneAtATime(h) && Enabled(h, Drained)
    ensures Tells(h, Drained)
  {
    hide HasFrame, FrameLength;
    assert h.stack.top.Draining?;
    assert h.shutdowns + Kept(h) + [] == h.shutdowns + Kept(h);
  }

  lemma TurnKeepsReason(h: H, e: Event)
    requires Enabled(h, e) && IsTurn(e) && !e.Drained?
    ensures Step(h, e).lastError == h.lastError
  {
    hide HasFrame, FrameLength, Notify;
  }

  lemma TurnTells(h: H, e: Event)
    requires OneAtATime(h) && Enabled(h, e) && IsTurn(e) && !e.Drained?
    ensures Tells(h, e)
  {
    hide Step, Enabled, Drains;
    TurnKeepsReason(h, e);
    if e.Dispatch? || e.ParseReturns? { ParsingLeaves(h, e); } else { TurningLeaves(h, e); }
    assert h.shutdowns + Kept(h) + [] == h.shutdowns + Kept(h);
  }

  lemma StepTells(h: H, e: Event)
    requires Inv(h) && OneAtATime(h) && Enabled(h, e) && !Reenters(h, e)
    ensures Tells(h, e)
  {
    hide Step, Enabled, Flow, Input, Output, OneAtATime, Tells;
    if e.ReadDone? || e.ReadFailed? {
      ReadTells(h, e);
    } else if IsTransfer(e) {
      WriteTells(h, e);
    } else if e.Drained? {
      DrainTells(h);
    } else if IsTurn(e) {
      TurnTells(h, e);
    } else {
      CallTells(h, e);
    }
  }

  lemma WhatIsTold(h: H, e: Event)
    requires Tells(h, e)
    ensures var t := Step(h, e); OneAtATime(t) && ToldOrKept(t) == ToldOrKept(h) + ReasonOf(h, e)
  {
  }

  lemma FirstOf(h: H, es: seq<Event>)
    ensures if es == [] then Exec(h, es) == h && Reasons(h, es) == []
            else
              var t := Step(h, es[0]);
              && Exec(h, es) == Exec(t, es[1..]) && Reasons(h, es) == ReasonOf(h, es[0]) + Reasons(t, es[1..])
              && (Legal(h, es) <==> Enabled(h, es[0]) && Legal(t, es[1..]))
              && (Reentries(h, es) == 0 <==> !Reenters(h, es[0]) && Reentries(t, es[1..]) == 0)
  {
    hide Step, Enabled, Reenters, ReasonOf;
  }

  lemma {:induction false} RunTells(h: H, es: seq<Event>)
    requires Inv(h) && OneAtATime(h) && Legal(h, es) && Reentries(h, es) == 0
    ensures ToldOrKept(Exec(h, es)) == ToldOrKept(h) + Reasons(h, es)
    decreases |es|
  {
    hide *;
    FirstOf(h, es);
    if es != [] {
      StepKeepsInv(h, es[0]);
      StepTells(h, es[0]);
      WhatIsTold(h, es[0]);
      RunTells(Step(h, es[0]), es[1..]);
    }
  }

  /**
    If no call re-enters a shutdown, the shutdown callbacks are told, in order,
    what ended each connection: a failed resolve, connect, read or write, an error
    of AMQP-CPP, or nothing for a regular end; the last one perhaps still to come.
   */
  lemma EachCallbackIsToldWhy(es: seq<Event>)
    requires Legal(FRESH, es) && Reentries(FRESH, es) == 0
    ensures var h := Exec(FRESH, es); h.shutdowns + Kept(h) == Reasons(FRESH, es)
  {
    hide Exec, Legal, Reentries, Reasons;
    FreshIsQuiet();
    RunTells(FRESH, es);
  }

  lemma FreshIsQuiet()
    ensures Inv(FRESH) && OneAtATime(FRESH) && FRESH.shutdowns + Kept(FRESH) == []
  {
  }

  // ---------------------------------------------------------------- a stop inside a stop

  lemma Before(h: H, e: Event, es: seq<Event>)
    ensures Exec(h, [e] + es) == Exec(Step(h, e), es)
    ensures Legal(h, [e] + es) <==> Enabled(h, e) && Legal(Step(h, e), es)
    ensures Sessions(h, [e] + es) == (if Begins(h, e) then 1 else 0) + Sessions(Step(h, e), es)
    ensures Exec(h, []) == h && Legal(h, []) && Sessions(h, []) == 0
  {
    hide Step, Enabled, Begins;
    assert ([e] + es)[1..] == es;
  }

  /** A connection over which one buffer is being written, and a read is armed. */
  predicate Working(h: H) {
    h.state == Ready && h.readReq && h.writeReq && h.readsOut == h.writesOut == 1 && h.stack.Empty?
    && |h.outBufs| == 1 && h.inBuf == [] && h.shutdowns == []
  }

  const OPENING: seq<Event> :=
    [Start] + ([Resolved(true, "")] + ([Connected(true, "")] + ([Data([0])] + [])))

  lemma OpeningSteps()
    ensures var s1 := Step(FRESH, Start);
      var s2 := Step(s1, Resolved(true, ""));
      var s3 := Step(s2, Connected(true, ""));
      && Enabled(FRESH, Start) && Enabled(s1, Resolved(true, "")) && Enabled(s2, Connected(true, ""))
      && Enabled(s3, Data([0])) && Working(Step(s3, Data([0])))
      && s1.state == Resolving && s2.state == Connecting && s3.state == ReceiverInit
  {
    var s3 := Step(Step(Step(FRESH, Start), Resolved(true, "")), Connected(true, ""));
    assert s3.outBufs + [[0]] == [[0]];
  }

  lemma OpeningWorks()
    ensures Legal(FRESH, OPENING) && Working(Exec(FRESH, OPENING)) && Sessions(FRESH, OPENING) == 1
  {
    var s1 := Step(FRESH, Start);
    var s2 := Step(s1, Resolved(true, ""));
    var s3 := Step(s2, Connected(true, ""));
    hide Step, Exec, Legal, Enabled, Sessions, Working;
    OpeningSteps();
    Before(FRESH, Start, [Resolved(true, "")] + ([Connected(true, "")] + ([Data([0])] + [])));
    Before(s1, Resolved(true, ""), [Connected(true, "")] + ([Data([0])] + []));
    Before(s2, Connected(true, ""), [Data([0])] + []);
    Before(s3, Data([0]), []);
    Before(Step(s3, Data([0])), Stop, []);
  }

  lemma {:induction false} Split(h: H, xs: seq<Event>, ys: seq<Event>)
    ensures Exec(h, xs + ys) == Exec(Exec(h, xs), ys)
    ensures Legal(h, xs + ys) <==> Legal(h, xs) && Legal(Exec(h, xs), ys)
    ensures Sessions(h, xs + ys) == Sessions(h, xs) + Sessions(Exec(h, xs), ys)
    decreases xs
  {
    hide Step, Enabled, Begins;
    if xs == [] {
      assert xs + ys == ys;
    } else {
      assert (xs + ys)[0] == xs[0] && (xs + ys)[1..] == xs[1..] + ys;
      Split(Step(h, xs[0]), xs[1..], ys);
    }
  }

  const TWO_STOPS: seq<Event> :=
    [Stop] + ([Stop] + ([ReadFailed("closed")] + ([WriteFailed(0, "closed")] + ([Drained] + ([Drained] + [])))))

  /** Two shutdowns wait, one in the other, and no callback has been made. */
  predicate TwiceDown(h: H, reading: bool, writing: bool) {
    && h.state == Shutdown && h.shutdowns == [] && h.stack == On(Draining, On(Draining, Empty))
    && h.readReq == reading && h.writeReq == writing
    && h.readsOut == (if reading then 1 else 0) && h.writesOut == (if writing then 1 else 0)
  }

  lemma SecondStopComes(h: H)
    requires Working(h)
    ensures Enabled(h, Stop) && Enabled(Step(h, Stop), Stop) && TwiceDown(Step(Step(h, Stop), Stop), true, true)
  {
  }

  lemma NothingLeftInFlight(h: H)
    requires TwiceDown(h, true, true)
    ensures var e, f := ReadFailed("closed"), WriteFailed(0, "closed");
      && Enabled(h, e) && TwiceDown(Step(h, e), false, true)
      && Enabled(Step(h, e), f) && TwiceDown(Step(Step(h, e), f), false, false)
  {
    var d := Step(h, ReadFailed("closed"));
    TakeLeaves(d, 0);
    hide Take;
  }

  lemma BothDrain(h: H)
    requires TwiceDown(h, false, false)
    ensures var t := Step(Step(h, Drained), Drained);
      && Enabled(h, Drained) && Enabled(Step(h, Drained), Drained)
      && t.state == NotConnected && t.stack.Empty? && |t.shutdowns| == 2
  {
  }

  lemma TwoStopsCallBackTwice(h: H)
    requires Working(h)
    ensures Legal(h, TWO_STOPS) && Sessions(h, TWO_STOPS) == 0
    ensures var t := Exec(h, TWO_STOPS); t.state == NotConnected && t.stack.Empty? && |t.shutdowns| == 2
  {
    hide Step, Exec, Legal, Sessions, Enabled, TwiceDown, Working;
    var s1 := Step(h, Stop);
    var s2 := Step(s1, Stop);
    var s3 := Step(s2, ReadFailed("closed"));
    var s4 := Step(s3, WriteFailed(0, "closed"));
    var s5 := Step(s4, Drained);
    var s6 := Step(s5, Drained);
    SecondStopComes(h);
    NothingLeftInFlight(s2);
    BothDrain(s4);
    Before(h, Stop, [Stop] + ([ReadFailed("closed")] + ([WriteFailed(0, "closed")] + ([Drained] + ([Drained] + [])))));
    Before(s1, Stop, [ReadFailed("closed")] + ([WriteFailed(0, "closed")] + ([Drained] + ([Drained] + []))));
    Before(s2, ReadFailed("closed"), [WriteFailed(0, "closed")] + ([Drained] + ([Drained] + [])));
    Before(s3, WriteFailed(0, "closed"), [Drained] + ([Drained] + []));
    Before(s4, Drained, [Drained] + []);
    Before(s5, Drained, []);
    Before(s6, Drained, []);
  }

  /** Two callbacks for one session: stopping again while the first stop waits for a read and a write. */
  lemma StopInsideAStop()
    ensures var es := OPENING + TWO_STOPS;
      && Legal(FRESH, es) && Sessions(FRESH, es) == 1
      && Exec(FRESH, es).state == NotConnected && Exec(FRESH, es).stack.Empty?
      && |Exec(FRESH, es).shutdowns| == 2
  {
    hide Exec, Legal, Sessions, Working;
    OpeningWorks();
    TwoStopsCallBackTwice(Exec(FRESH, OPENING));
    Split(FRESH, OPENING, TWO_STOPS);
  }

  // A write error, and an AMQP error in what is read while it is dealt with.

  /** The shortest frame there is. */
  const A_FRAME: bytes := [0, 0, 0, 0, 0, 0, 0, 0]

  lemma AFrameIsOne()
    ensures HasFrame(A_FRAME) && FrameLength(A_FRAME) == 8 == |A_FRAME|
  {
  }

  const FAILED_WRITE: Event := WriteFailed(0, "reset")
  const BAD_FRAME: Event := Error("bad frame")

  /** In these loops, connected or no longer, with nothing in flight and so many callbacks made. */
  predicate Within(h: H, state: State, stack: Stack, callbacks: nat) {
    && h.state == state && h.stack == stack && |h.shutdowns| == callbacks
    && !h.readReq && !h.writeReq && h.readsOut == h.writesOut == 0
    && (state == Shutdown ==> h.inBuf == A_FRAME)
  }

  const OUTER: Stack := On(Draining, Empty)

  lemma WriteErrorComes(h: H)
    requires Working(h)
    ensures var d := Step(h, FAILED_WRITE);
      && Enabled(h, FAILED_WRITE) && d.state == Shutdown && d.stack == OUTER && d.shutdowns == []
      && d.readReq && d.readsOut == 1 && !d.writeReq && d.writesOut == 0 && d.inBuf == []
  {
    TakeLeaves(h, 0);
    hide Take;
  }

  /** Stopped again while the read is in flight, which then fails. */
  lemma StopThenNothingToRead(h: H)
    requires h.state == Shutdown && h.stack == OUTER && h.shutdowns == []
    requires h.readReq && h.readsOut == 1 && !h.writeReq && h.writesOut == 0
    ensures var d := Step(h, Stop);
      && Enabled(h, Stop) && d.state == Shutdown
      && Enabled(d, ReadFailed("closed")) && TwiceDown(Step(d, ReadFailed("closed")), false, false)
  {
  }

  lemma DataComes(h: H)
    requires h.state == Shutdown && h.stack == OUTER && h.shutdowns == []
    requires h.readReq && h.readsOut == 1 && !h.writeReq && h.writesOut == 0 && h.inBuf == []
    ensures Enabled(h, ReadDone(A_FRAME)) && Within(Step(h, ReadDone(A_FRAME)), Shutdown, On(Testing(true), OUTER), 0)
  {
    assert [] + A_FRAME == A_FRAME;
  }

  /** Connected, in these loops, with a write in flight and no read. */
  predicate ReadingWith(h: H, stack: Stack) {
    && h.state == Ready && h.stack == stack && h.inBuf == A_FRAME
    && !h.readReq && h.readsOut == 0 && h.writeReq && h.writesOut == 1
  }

  lemma BadFrameIsRead(h: H)
    requires Working(h)
    ensures var h1 := Step(h, ReadDone(A_FRAME));
      && Enabled(h, ReadDone(A_FRAME)) && ReadingWith(h1, On(Testing(true), Empty))
  {
    assert [] + A_FRAME == A_FRAME;
  }

  lemma BadFrameIsParsed(h: H)
    requires ReadingWith(h, On(Testing(true), Empty))
    ensures var h1 := Step(h, Test(0));
      && Enabled(h, Test(0)) && ReadingWith(h1, On(Parsing(0), Empty))
      && Enabled(h1, Dispatch) && ReadingWith(Step(h1, Dispatch), On(Parsing(8), Empty))
  {
    AFrameIsOne();
    assert A_FRAME[0..] == A_FRAME;
    hide HasFrame, FrameLength;
  }

  /** A frame that turns out bad while a write is in flight: the shutdown it begins has to wait. */
  lemma BadFrameComes(h: H)
    requires Working(h)
    ensures var h1 := Step(h, ReadDone(A_FRAME));
      var h2 := Step(h1, Test(0));
      var h3 := Step(h2, Dispatch);
      var h4 := Step(h3, BAD_FRAME);
      && Enabled(h, ReadDone(A_FRAME)) && Enabled(h1, Test(0)) && Enabled(h2, Dispatch)
      && Enabled(h3, BAD_FRAME) && Up(h3)
      && h4.state == Shutdown && h4.stack == On(Draining, On(Parsing(8), Empty)) && h4.writeReq && Outside(h4)
  {
    BadFrameIsRead(h);
    var h1 := Step(h, ReadDone(A_FRAME));
    BadFrameIsParsed(h1);
    var h3 := Step(Step(h1, Test(0)), Dispatch);
    hide HasFrame, FrameLength, A_FRAME, OnRead;
    BadFrameTakesDown(h3);
    hide Step, Enabled;
  }

  lemma BadFrameTakesDown(h: H)
    requires ReadingWith(h, On(Parsing(8), Empty))
    ensures Enabled(h, BAD_FRAME) && Up(h)
    ensures var d := Step(h, BAD_FRAME);
      d.state == Shutdown && d.stack == On(Draining, On(Parsing(8), Empty)) && d.writeReq && Outside(d)
  {
  }

  lemma FrameIsParsed(h: H)
    requires Within(h, Shutdown, On(Testing(true), OUTER), 0)
    ensures var d := Step(h, Test(0));
      && Enabled(h, Test(0)) && Within(d, Shutdown, On(Parsing(0), OUTER), 0)
      && Enabled(d, Dispatch) && Within(Step(d, Dispatch), Shutdown, On(Parsing(8), OUTER), 0)
  {
    AFrameIsOne();
    assert A_FRAME[0..] == A_FRAME;
    hide HasFrame, FrameLength;
  }

  lemma AmqpErrorComes(h: H)
    requires Within(h, Shutdown, On(Parsing(8), OUTER), 0)
    ensures var d := Step(h, BAD_FRAME);
      && Enabled(h, BAD_FRAME) && Within(d, Shutdown, On(Draining, On(Parsing(8), OUTER)), 0)
      && Enabled(d, Drained) && Within(Step(d, Drained), NotConnected, On(Parsing(8), OUTER), 1)
  {
  }

  lemma LoopsUnwind(h: H)
    requires Within(h, NotConnected, On(Parsing(8), OUTER), 1)
    ensures var d := Step(h, Unwind);
      && Enabled(h, Unwind) && Within(d, NotConnected, OUTER, 1)
      && Enabled(d, Drained) && Within(Step(d, Drained), NotConnected, Empty, 2)
  {
  }

  // ---------------------------------------------------------------- the length of a run

  /** What the output queued takes to be written, were every byte a completion of its own. */
  function Weight(bufs: seq<bytes>): nat {
    if bufs == [] then 0 else |bufs[0]| + 1 + Weight(bufs[1..])
  }

  /** What a loop in progress still takes, but for the input it goes through. */
  function LoopWork(stack: Stack): nat {
    if stack.Empty? then 0
    else LoopWork(stack.below) +
         match stack.top
         case Draining => 1
         case Testing(again) => if again then 5 else 3
         case Parsing(done) => if done == 0 then 4 else 6
  }

  /** The input no frame has been taken from yet. */
  function Unparsed(h: H): nat {
    if Done(h.stack) <= |h.inBuf| then |h.inBuf| - Done(h.stack) else 0
  }

  /** So many events a run can still go through if nothing comes from outside. */
  function Work(h: H): nat {
    (if h.readReq then 2 else 0) + (if h.writeReq then 2 else 0)
    + Weight(h.outBufs) + LoopWork(h.stack) + Unparsed(h)
  }

  /**
    What an event brings from outside: a successful read its bytes, an output
    buffer its bytes, every call and every completion of a connect a constant.
    The other completions and the turns of loops bring nothing.
   */
  function Brings(e: Event): nat {
    match e
    case ReadDone(chunk) => |chunk| + 4
    case Data(buffer) => |buffer| + 6
    case Start => 1
    case Stop => 2
    case Error(_) => 2
    case Closed => 2
    case Resolved(_, _) => 1
    case Connected(_, _) => 1
    case _ => 0
  }

  lemma {:induction false} WeightAppends(bufs: seq<bytes>, last: bytes)
    ensures Weight(bufs + [last]) == Weight(bufs) + |last| + 1
  {
    if bufs != [] {
      assert (bufs + [last])[1..] == bufs[1..] + [last];
      WeightAppends(bufs[1..], last);
    }
  }

  lemma WriteSpends(h: H, e: Event)
    requires Flow(h) && Output(h) && Enabled(h, e) && (e.WriteDone? || e.WriteFailed?)
    ensures Work(Step(h, e)) < Work(h)
  {
    var a := Take(h, e.n);
    assert a.outBufs[1..] == h.outBufs[1..];
    assert Weight(a.outBufs) == Weight(h.outBufs) - e.n;
    TakeLeaves(h, e.n);
    hide Take, Drains, ReadLoops;
  }

  lemma ReadSpends(h: H, e: Event)
    requires Flow(h) && Input(h) && Enabled(h, e) && (e.ReadDone? || e.ReadFailed?)
    ensures Work(Step(h, e)) < Work(h) + Brings(e)
  {
    NoLoopIsDone(h.stack);
    hide Drains, Whole, Rest, HasFrame;
  }

  lemma DataSpends(h: H, buffer: bytes)
    requires Flow(h) && Output(h)
    ensures Work(Step(h, Data(buffer))) < Work(h) + Brings(Data(buffer))
  {
    WeightAppends(h.outBufs, buffer);
    hide Drains, ReadLoops, Turn, Join, Weight;
  }

  lemma CallSpends(h: H, e: Event)
    requires Flow(h) && !IsTransfer(e) && !IsTurn(e) && !e.Data?
    ensures Work(Step(h, e)) < Work(h) + Brings(e)
  {
    hide Drains, ReadLoops, Turn, Weight;
  }

  lemma ParseSpends(h: H, e: Event)
    requires Flow(h) && Input(h) && Enabled(h, e) && (e.Dispatch? || e.ParseReturns?)
    ensures Work(Step(h, e)) < Work(h)
  {
    hide Drains, ReadLoops, Whole, Rest;
  }

  lemma TestSpends(h: H, e: Event)
    requires Flow(h) && Enabled(h, e) && (e.Test? || e.Unwind?)
    ensures Work(Step(h, e)) < Work(h)
  {
    if h.stack.On? { NoLoopIsDone(h.stack.below); }
    hide Drains, ReadLoops, HasFrame, FrameLength, Weight;
  }

  lemma DrainSpends(h: H)
    requires Enabled(h, Drained)
    ensures Work(Step(h, Drained)) < Work(h)
  {
    hide HasFrame, FrameLength;
  }

  lemma StepSpends(h: H, e: Event)
    requires Inv(h) && Enabled(h, e)
    ensures Work(Step(h, e)) < Work(h) + Brings(e)
  {
    hide Step, Enabled, Flow, Input, Output, Work;
    if e.WriteDone? || e.WriteFailed? {
      WriteSpends(h, e);
    } else if e.ReadDone? || e.ReadFailed? {
      ReadSpends(h, e);
    } else if e.Dispatch? || e.ParseReturns? {
      ParseSpends(h, e);
    } else if e.Drained? {
      DrainSpends(h);
    } else if IsTurn(e) {
      TestSpends(h, e);
    } else if e.Data? {
      DataSpends(h, e.buffer);
    } else {
      CallSpends(h, e);
    }
  }

  function Brought(es: seq<Event>): nat {
    if es == [] then 0 else Brings(es[0]) + Brought(es[1..])
  }

  /**
    The length of a run, loop turns and all, is bounded by the work at hand and
    what comes from outside: calls, re-entries among them, successful reads with
    their bytes, and output. So a shutdown waits for ever only if one of these
    goes on for ever.
   */
  lemma {:induction false} RunsAreBounded(h: H, es: seq<Event>)
    requires Inv(h) && Legal(h, es)
    ensures |es| + Work(Exec(h, es)) <= Work(h) + Brought(es)
    decreases es
  {
    if es != [] {
      hide Step, Inv, Enabled, Work, Brings;
      StepKeepsInv(h, es[0]);
      StepSpends(h, es[0]);
      RunsAreBounded(Step(h, es[0]), es[1..]);
    }
  }

  /** As long as a shutdown waits, a completion it waits for can come. */
  lemma TheWaitCanEnd(h: H)
    requires Inv(h) && h.stack.On? && h.stack.top.Draining?
    ensures Enabled(h, Drained) || Enabled(h, ReadFailed("closed")) || Enabled(h, WriteFailed(0, "closed"))
  {
  }

  /** Nothing comes from outside. */
  predicate Alone(es: seq<Event>) {
    forall e | e in es :: Brings(e) == 0
  }

  /** The turn a loop can take, or the failure of what it waits for. */
  function NextAlone(h: H): Event
    requires h.stack.On?
  {
    match h.stack.top
    case Draining =>
      if h.readReq then ReadFailed("closed") else if h.writeReq then WriteFailed(0, "closed") else Drained
    case Testing(_) => if Up(h) then Test(0) else Unwind
    case Parsing(done) =>
      if !Up(h) then Unwind
      else if done <= |h.inBuf| && HasFrame(h.inBuf[done..]) then Dispatch
      else ParseReturns
  }

  lemma NextAloneIsEnabled(h: H)
    requires Inv(h) && h.stack.On?
    ensures Enabled(h, NextAlone(h)) && Brings(NextAlone(h)) == 0
  {
    if h.stack.top.Parsing? && h.stack.top.done == 0 { assert h.inBuf[0..] == h.inBuf; }
    hide Whole, Rest, Drains, ReadLoops;
  }

  function LeftAlone(h: H, fuel: nat): seq<Event>
    decreases fuel
  {
    if fuel == 0 || h.stack.Empty? then []
    else [NextAlone(h)] + LeftAlone(Step(h, NextAlone(h)), fuel - 1)
  }

  lemma AloneStep(h: H)
    requires Inv(h) && h.stack.On?
    ensures var d := Step(h, NextAlone(h));
      && Enabled(h, NextAlone(h)) && Brings(NextAlone(h)) == 0 && Inv(d) && Work(d) < Work(h)
      && (h.state == Shutdown || h.state == NotConnected ==> d.state == Shutdown || d.state == NotConnected)
  {
    NextAloneIsEnabled(h);
    var e := NextAlone(h);
    hide Step, Enabled, Work, Brings, Inv, NextAlone;
    StepKeepsInv(h, e);
    StepSpends(h, e);
    if h.state == Shutdown {
      ShutdownOnlyEnds(h, e);
    } else if h.state == NotConnected {
      NoCallAlone(h);
      DownOnlyUnwinds(h, e);
    }
  }

  lemma NoCallAlone(h: H)
    requires h.stack.On?
    ensures !NextAlone(h).Start?
  {
  }

  lemma AtRest(h: H)
    requires Inv(h) && h.stack.Empty?
    ensures h.state != Shutdown
    ensures h.state == NotConnected ==> Clean(h)
  {
  }

  /**
    Left alone, with nobody calling and nothing in flight that succeeds, every
    nest of loops comes to its end within the work at hand; and if a shutdown was
    among them, it ends clean.
   */
  lemma {:induction false} LoopsEnd(h: H, fuel: nat)
    requires Inv(h) && fuel >= Work(h)
    ensures Legal(h, LeftAlone(h, fuel)) && Alone(LeftAlone(h, fuel))
    ensures var t := Exec(h, LeftAlone(h, fuel));
      && t.stack.Empty?
      && (h.state == Shutdown || h.state == NotConnected ==> t.state == NotConnected && Clean(t))
    decreases fuel
  {
    hide Step, Enabled, Work, Brings, NextAlone, Inv, Clean;
    if h.stack.On? {
      AloneStep(h);
      LoopsEnd(Step(h, NextAlone(h)), fuel - 1);
    } else {
      AtRest(h);
    }
  }
}
