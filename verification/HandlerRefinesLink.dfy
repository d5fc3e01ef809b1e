/**
  A connection handler, as the connector takes it to be. `ConnectorSpec` knows
  of its handler only a `Link`, an AMQP-error flag and how many shutdowns wait;
  here every step of `HandlerSpec` is shown to be one of the events by which
  `ConnectorSpec` moves these, or none.
 */
module HandlerRefinesLink {
  import F = Frames
  import H = HandlerSpec
  import HInv = HandlerInvariant
  import HTheorems = HandlerTheorems
  import opened ConnectorSpec
  import Runs = ConnectorTheorems

  function Seen(h: H.H): Link {
    match h.state
    case NotConnected => Down
    case Resolving => Connecting
    case Connecting => Connecting
    case ReceiverInit => Up
    case Ready => Up
    case Shutdown => Draining
  }

  predicate Alike(h: H.H, c: C) {
    Seen(h) == c.link && h.amqpError == c.amqpError && HInv.Drains(h.stack) == Drains(c.stack)
  }

  /** What the connector is told of a step of its handler. */
  function Told(h: H.H, e: H.Event): seq<Event> {
    match e
    case Start => if h.state == H.NotConnected then [AsyncStart] else []
    case Resolved(ok, _) => if h.state == H.Resolving && !ok then [ConnectFails] else []
    case Connected(ok, _) =>
      if h.state != H.Connecting then [] else if ok then [ConnectOk] else [ConnectFails]
    case Error(_) => if H.Up(h) then [Fault(true)] else []
    case Closed => if H.Up(h) then [Fault(false)] else []
    case ReadFailed(_) => if Seen(h) == Up then [Fault(false)] else []
    case WriteFailed(_, _) => if Seen(h) == Up then [Fault(false)] else []
    case Drained => [Drained]
    case _ => []
  }

  /** The events after which the handler's shutdown callback has been made. */
  function CallsBack(es: seq<Event>): nat {
    if es != [] && (es[0].ConnectFails? || es[0].Drained?) then 1 else 0
  }

  function After(c: C, es: seq<Event>): C {
    if es == [] then c else Step(c, es[0])
  }

  /** Where the connector acts on the handler: it starts it when it has no connection, and a drain is its top wait. */
  predicate Fits(c: C, e: H.Event) {
    && !e.Stop?
    && (e.Start? ==> !c.ready)
    && (e.Drained? ==> c.stack.On? && c.stack.top.Drain?)
  }

  /** What an event does to the handler as the connector sees it. */
  lemma LinkMoves(c: C, e: Event)
    requires match e
      case AsyncStart => !c.ready
      case ConnectOk => c.link == Connecting
      case ConnectFails => c.link == Connecting
      case Fault(_) => true
      case Drained => c.stack.On?
      case _ => false
    ensures var d := Step(c, e);
      match e
      case AsyncStart => d.link == Connecting && !d.amqpError && d.stack == c.stack
      case ConnectOk => d.link == Up && d.amqpError == c.amqpError && d.stack == c.stack
      case ConnectFails => d.link == Down && d.amqpError == c.amqpError && d.stack == c.stack
      case Fault(amqp) => d.link == Draining && d.amqpError == (c.amqpError || amqp) && d.stack == On(Drain, c.stack)
      case Drained => d.link == Down && d.amqpError == c.amqpError && d.stack == c.stack.below
      case _ => true
  {
    hide TellAll;
  }

  lemma ReadIsTold(h: H.H, e: H.Event)
    requires HInv.Flow(h) && H.Enabled(h, e) && (e.ReadDone? || e.ReadFailed?)
    ensures var t := H.Step(h, e);
      && t.amqpError == h.amqpError && t.shutdowns == h.shutdowns
      && if Told(h, e) == [] then Seen(t) == Seen(h) && HInv.Drains(t.stack) == HInv.Drains(h.stack)
         else Seen(t) == Draining && HInv.Drains(t.stack) == HInv.Drains(h.stack) + 1
  {
    hide H.Turn, HInv.Done, HInv.ReadLoops;
  }

  lemma WriteIsTold(h: H.H, e: H.Event)
    requires HInv.Flow(h) && H.Enabled(h, e) && (e.WriteDone? || e.WriteFailed?)
    ensures var t := H.Step(h, e);
      && t.amqpError == h.amqpError && t.shutdowns == h.shutdowns
      && if Told(h, e) == [] then Seen(t) == Seen(h) && HInv.Drains(t.stack) == HInv.Drains(h.stack)
         else Seen(t) == Draining && HInv.Drains(t.stack) == HInv.Drains(h.stack) + 1
  {
    hide H.Take, H.Turn, HInv.Done, HInv.ReadLoops;
    HInv.TakeLeaves(h, e.n);
  }

  lemma DrainIsTold(h: H.H)
    requires HInv.Flow(h) && H.Enabled(h, H.Drained)
    ensures var t := H.Step(h, H.Drained);
      && t.amqpError == h.amqpError && Seen(t) == Down
      && |t.shutdowns| == |h.shutdowns| + 1 && HInv.Drains(t.stack) + 1 == HInv.Drains(h.stack)
  {
    hide F.HasFrame, F.FrameLength, HInv.Done, HInv.ReadLoops;
  }

  lemma CallIsTold(h: H.H, c: C, e: H.Event)
    requires HInv.Flow(h) && H.Enabled(h, e) && !HInv.IsTurn(e) && !HInv.IsTransfer(e)
    requires Alike(h, c) && Fits(c, e)
    ensures Alike(H.Step(h, e), After(c, Told(h, e)))
    ensures |H.Step(h, e).shutdowns| == |h.shutdowns| + CallsBack(Told(h, e))
  {
    hide Step, H.Turn, HInv.Done, HInv.ReadLoops;
    if Told(h, e) != [] { LinkMoves(c, Told(h, e)[0]); }
  }

  lemma ToldIsPossible(h: H.H, c: C, e: H.Event)
    requires H.Enabled(h, e) && Alike(h, c) && Fits(c, e) && !e.Start? && Told(h, e) != []
    ensures Enabled(c, Told(h, e)[0])
  {
    hide HInv.Drains, Drains;
  }

  /**
    Whatever a handler does, a connector that is told of it keeps up with it:
    same link, same error flag, as many shutdowns waiting; and the handler makes
    its shutdown callback exactly with the events by which the connector has
    `onShutdown` run.
   */
  lemma StepIsTold(h: H.H, c: C, e: H.Event)
    requires HInv.Inv(h) && H.Enabled(h, e) && Alike(h, c) && Fits(c, e)
    ensures |Told(h, e)| <= 1 && (Told(h, e) != [] && !e.Start? ==> Enabled(c, Told(h, e)[0]))
    ensures Alike(H.Step(h, e), After(c, Told(h, e)))
    ensures |H.Step(h, e).shutdowns| == |h.shutdowns| + CallsBack(Told(h, e))
  {
    if Told(h, e) != [] && !e.Start? { ToldIsPossible(h, c, e); }
    if !HInv.IsTurn(e) && !HInv.IsTransfer(e) {
      CallIsTold(h, c, e);
    } else {
      hide Step, Enabled, H.Step, H.Enabled, HInv.Flow, HInv.Input, HInv.Output;
      if e.Drained? {
        DrainIsTold(h);
      } else if e.Dispatch? || e.ParseReturns? {
        HInv.ParsingLeaves(h, e);
      } else if HInv.IsTurn(e) {
        HInv.TurningLeaves(h, e);
      } else if e.ReadDone? || e.ReadFailed? {
        ReadIsTold(h, e);
      } else {
        WriteIsTold(h, e);
      }
      if Told(h, e) != [] { LinkMoves(c, Told(h, e)[0]); }
    }
  }

  /** Stopping the handler is the connector's own doing, at the end of the task of a stop. */
  lemma StopIsTold(h: H.H, c: C)
    requires HInv.Inv(h) && Alike(h, c) && c.stack.On? && c.stack.top == Task(0) && c.link != Down
    ensures Alike(H.Step(h, H.Stop), Step(c, Turn)) && H.Step(h, H.Stop).shutdowns == h.shutdowns
  {
    hide HInv.Input, HInv.Output, HInv.Done, HInv.ReadLoops;
  }

  /** A session is begun with a new handler, whatever the last one was left in. */
  lemma StartIsTold(c: C)
    requires !c.ready && Enabled(c, AsyncStart)
    ensures Alike(H.Step(H.FRESH, H.Start), Step(c, AsyncStart))
  {
  }

  // ---------------------------------------------------------------- whole runs

  /** A connector together with the handler it has. */
  datatype Pair = Pair(h: H.H, c: C)

  /** A step of the handler, one of the connector alone, its stopping of the handler, or a session with a new one. */
  datatype Joint = Handler(step: H.Event) | Own(event: Event) | Stops | Anew

  function JointStep(p: Pair, j: Joint): Pair {
    match j
    case Handler(e) => Pair(H.Step(p.h, e), After(p.c, Told(p.h, e)))
    case Own(e) => Pair(p.h, Step(p.c, e))
    case Stops => Pair(H.Step(p.h, H.Stop), Step(p.c, Turn))
    case Anew => Pair(H.Step(H.FRESH, H.Start), Step(p.c, AsyncStart))
  }

  /** The end of the task of a stop, with the handler still up. */
  predicate EndsTask(c: C) {
    c.stack.On? && c.stack.top == Task(0) && c.link != Down
  }

  /** What a connector does without its handler. */
  predicate Alone(c: C, e: Event) {
    && !e.ConnectOk? && !e.ConnectFails? && !e.Fault? && !e.Drained?
    && (e.AsyncStart? ==> c.ready) && (e.Turn? ==> !EndsTask(c))
  }

  /**
    The two have one call stack between them: a drain of the handler can end only
    where it is the innermost wait of the connector. Only the connector starts
    and stops its handler.
   */
  predicate JointEnabled(p: Pair, j: Joint) {
    match j
    case Handler(e) => H.Enabled(p.h, e) && !e.Start? && Fits(p.c, e)
    case Own(e) => Enabled(p.c, e) && Alone(p.c, e)
    case Stops => H.Enabled(p.h, H.Stop) && EndsTask(p.c)
    case Anew => Enabled(p.c, AsyncStart) && !p.c.ready
  }

  /** What of a joint step is an event of the connector. */
  function EventsOf(p: Pair, j: Joint): seq<Event> {
    match j
    case Handler(e) => Told(p.h, e)
    case Own(e) => [e]
    case Stops => [Turn]
    case Anew => [AsyncStart]
  }

  function JointExec(p: Pair, js: seq<Joint>): Pair
    decreases js
  {
    if js == [] then p else JointExec(JointStep(p, js[0]), js[1..])
  }

  predicate JointLegal(p: Pair, js: seq<Joint>)
    decreases js
  {
    js == [] || (JointEnabled(p, js[0]) && JointLegal(JointStep(p, js[0]), js[1..]))
  }

  function AllEvents(p: Pair, js: seq<Joint>): seq<Event>
    decreases js
  {
    if js == [] then [] else EventsOf(p, js[0]) + AllEvents(JointStep(p, js[0]), js[1..])
  }

  lemma TurnLeavesTheLink(c: C)
    requires !EndsTask(c) && Enabled(c, Turn)
    ensures var d := TakeTurn(c);
      d.link == c.link && d.amqpError == c.amqpError && Drains(d.stack) == Drains(c.stack)
  {
    hide Ended, Passes;
  }

  lemma AloneLeavesTheLink(c: C, e: Event)
    requires Alone(c, e) && Enabled(c, e)
    ensures var d := Step(c, e);
      d.link == c.link && d.amqpError == c.amqpError && Drains(d.stack) == Drains(c.stack)
  {
    hide TakeTurn, Tell, TellAll, StartIdle, Ended, MayStart, EndsTask;
    if e.Turn? { TurnLeavesTheLink(c); }
  }

  ghost predicate Together(p: Pair) {
    HInv.Inv(p.h) && Alike(p.h, p.c)
  }

  lemma JointStepKeeps(p: Pair, j: Joint)
    requires Together(p) && JointEnabled(p, j)
    ensures var es := EventsOf(p, j); var q := JointStep(p, j);
      && Together(q) && |es| <= 1
      && (es == [] ==> q.c == p.c)
      && (es != [] ==> Enabled(p.c, es[0]) && q.c == Step(p.c, es[0]))
  {
    hide Step, Enabled, H.Step, H.Enabled, HInv.Inv, Told, EndsTask, Alone;
    match j
    case Handler(e) =>
      StepIsTold(p.h, p.c, e);
      HInv.StepKeepsInv(p.h, e);
    case Own(e) => AloneLeavesTheLink(p.c, e);
    case Stops =>
      StopEnds(p.h, p.c);
      HInv.StepKeepsInv(p.h, H.Stop);
    case Anew =>
      StartIsTold(p.c);
      FreshStarts();
  }

  lemma StopEnds(h: H.H, c: C)
    requires HInv.Inv(h) && Alike(h, c) && EndsTask(c)
    ensures Alike(H.Step(h, H.Stop), Step(c, Turn)) && Enabled(c, Turn)
  {
    StopIsTold(h, c);
    hide H.Step, HInv.Inv, Alike;
  }

  lemma FreshStarts()
    ensures HInv.Inv(H.FRESH) && HInv.Inv(H.Step(H.FRESH, H.Start))
  {
  }

  lemma FirstThen(c: C, told: seq<Event>, later: seq<Event>)
    requires |told| <= 1 && (told != [] ==> Enabled(c, told[0])) && Runs.Legal(After(c, told), later)
    ensures Runs.Legal(c, told + later) && Runs.Exec(c, told + later) == Runs.Exec(After(c, told), later)
  {
    hide Step, Enabled;
    if told == [] {
      assert told + later == later;
    } else {
      assert (told + later)[0] == told[0] && (told + later)[1..] == later;
    }
  }

  /**
    A connector and its handlers, running together in whatever order: the two
    agree all the time, and what the connector goes through is a legal run of
    `ConnectorSpec`, so that all that is proved of those holds of it.
   */
  lemma {:induction false} JointRunsAreRuns(p: Pair, js: seq<Joint>)
    requires Together(p) && JointLegal(p, js)
    ensures Together(JointExec(p, js))
    ensures Runs.Legal(p.c, AllEvents(p, js))
    ensures Runs.Exec(p.c, AllEvents(p, js)) == JointExec(p, js).c
    decreases js
  {
    if js != [] {
      hide JointStep, JointEnabled, EventsOf, Together, Step, Enabled, Runs.Legal;
      var q := JointStep(p, js[0]);
      JointStepKeeps(p, js[0]);
      JointRunsAreRuns(q, js[1..]);
      FirstThen(p.c, EventsOf(p, js[0]), AllEvents(q, js[1..]));
    } else {
      assert Runs.Legal(p.c, []);
    }
  }

  /** From the first session on. */
  lemma EveryJointRun(js: seq<Joint>)
    requires JointLegal(Pair(H.FRESH, FRESH), js)
    ensures var p, es := JointExec(Pair(H.FRESH, FRESH), js), AllEvents(Pair(H.FRESH, FRESH), js);
      HInv.Inv(p.h) && Alike(p.h, p.c) && Runs.Legal(FRESH, es) && Runs.Exec(FRESH, es) == p.c
  {
    hide JointExec, JointLegal, AllEvents, HInv.Inv, Alike, Runs.Legal, Runs.Exec;
    FreshStarts();
    BothFresh();
    JointRunsAreRuns(Pair(H.FRESH, FRESH), js);
  }

  lemma BothFresh()
    ensures Alike(H.FRESH, FRESH)
  {
  }

  // ---------------------------------------------------------------- an error inside a shutdown

  lemma Before(p: Pair, j: Joint, js: seq<Joint>)
    ensures JointExec(p, [j] + js) == JointExec(JointStep(p, j), js)
    ensures JointLegal(p, [j] + js) <==> JointEnabled(p, j) && JointLegal(JointStep(p, j), js)
    ensures JointExec(p, []) == p && JointLegal(p, [])
  {
    hide JointStep, JointEnabled, EventsOf;
    assert ([j] + js)[1..] == js;
  }

  lemma Handles(p: Pair, e: H.Event, h: H.H, told: seq<Event>, js: seq<Joint>)
    requires H.Enabled(p.h, e) && h == H.Step(p.h, e) && told == Told(p.h, e) && !e.Start? && Fits(p.c, e)
    ensures JointExec(p, [Handler(e)] + js) == JointExec(Pair(h, After(p.c, told)), js)
    ensures JointLegal(p, [Handler(e)] + js) <==> JointLegal(Pair(h, After(p.c, told)), js)
  {
    hide H.Enabled, H.Step, Told, Fits, JointExec, JointLegal;
    Before(p, Handler(e), js);
  }

  /** The loops a bad frame leaves, and how they come to their end. */
  const LOOPS_OF_A_BAD_FRAME: seq<Joint> := [Handler(H.Drained)] + ([Handler(H.Unwind)] + ([Handler(H.Drained)] + []))

  lemma LoopsOfABadFrameEnd(p: Pair)
    requires HTheorems.Within(p.h, H.Shutdown, H.On(H.Draining, H.On(H.Parsing(8), HTheorems.OUTER)), 0)
    requires H.Enabled(p.h, H.Drained)
    requires HTheorems.Within(H.Step(p.h, H.Drained), H.NotConnected, H.On(H.Parsing(8), HTheorems.OUTER), 1)
    requires p.c.stack.On? && p.c.stack.top.Drain?
    requires Step(p.c, Drained).stack.On? && Step(p.c, Drained).stack.top.Drain?
    ensures JointLegal(p, LOOPS_OF_A_BAD_FRAME)
    ensures var q := JointExec(p, LOOPS_OF_A_BAD_FRAME);
      q.c == Step(Step(p.c, Drained), Drained)
      && q.h.state == H.NotConnected && q.h.stack == H.Empty && |q.h.shutdowns| == 2
  {
    var h1 := H.Step(p.h, H.Drained);
    var h2 := H.Step(h1, H.Unwind);
    var c1 := Step(p.c, Drained);
    hide Step, H.Step, H.Enabled, JointExec, JointLegal;
    HTheorems.LoopsUnwind(h1);
    Handles(p, H.Drained, h1, [Drained], [Handler(H.Unwind)] + ([Handler(H.Drained)] + []));
    Handles(Pair(h1, c1), H.Unwind, h2, [], [Handler(H.Drained)] + []);
    Handles(Pair(h2, c1), H.Drained, H.Step(h2, H.Drained), [Drained], []);
    Before(Pair(H.Step(h2, H.Drained), Step(c1, Drained)), Stops, []);
  }

  /** A write fails; a frame read while that is dealt with turns out bad; and both shutdowns come to their end. */
  const ERROR_IN_A_SHUTDOWN: seq<Joint> :=
    [Handler(HTheorems.FAILED_WRITE)] + (
    [Handler(H.ReadDone(HTheorems.A_FRAME))] + (
    [Handler(H.Test(0))] + (
    [Handler(H.Dispatch)] + (
    [Handler(HTheorems.BAD_FRAME)] + LOOPS_OF_A_BAD_FRAME))))

  /** What that is to the connector. */
  function SeenOf(c: C): C {
    Step(Step(Step(Step(c, Fault(false)), Fault(true)), Drained), Drained)
  }

  lemma FourSteps(c: C)
    ensures var c1 := Step(c, Fault(false));
      var c2 := Step(c1, Fault(true));
      && c2.stack.On? && c2.stack.top.Drain?
      && Step(c2, Drained).stack.On? && Step(c2, Drained).stack.top.Drain?
  {
    hide TellAll;
  }

  lemma ToldOfAWrite(h: H.H, c: C)
    requires HTheorems.Working(h)
    ensures Told(h, HTheorems.FAILED_WRITE) == [Fault(false)] && Fits(c, HTheorems.FAILED_WRITE)
  {
  }

  lemma ToldNothing(h: H.H, c: C, e: H.Event)
    requires e.ReadDone? || e.Test? || e.Dispatch?
    ensures Told(h, e) == [] && Fits(c, e) && !e.Start? && After(c, []) == c
  {
  }

  lemma ToldOfAFrame(h: H.H, c: C)
    requires H.Up(h)
    ensures Told(h, HTheorems.BAD_FRAME) == [Fault(true)] && Fits(c, HTheorems.BAD_FRAME)
  {
  }

  lemma StillUp(h: H.H, stack: H.Stack)
    requires HTheorems.Within(h, H.Shutdown, stack, 0)
    ensures H.Up(h)
  {
  }

  lemma ErrorInAShutdownHappens(p: Pair)
    requires HTheorems.Working(p.h)
    ensures JointLegal(p, ERROR_IN_A_SHUTDOWN)
    ensures var q := JointExec(p, ERROR_IN_A_SHUTDOWN);
      q.c == SeenOf(p.c) && q.h.state == H.NotConnected && q.h.stack == H.Empty && |q.h.shutdowns| == 2
  {
    var h1 := H.Step(p.h, HTheorems.FAILED_WRITE);
    var h2 := H.Step(h1, H.ReadDone(HTheorems.A_FRAME));
    var h3 := H.Step(h2, H.Test(0));
    var h4 := H.Step(h3, H.Dispatch);
    var h5 := H.Step(h4, HTheorems.BAD_FRAME);
    var c1 := Step(p.c, Fault(false));
    var c2 := Step(c1, Fault(true));
    hide Step, H.Step, H.Enabled, H.Up, JointExec, JointLegal, LOOPS_OF_A_BAD_FRAME, Told, Fits,
         HTheorems.Within, HTheorems.Working, HTheorems.A_FRAME;
    FourSteps(p.c);
    HTheorems.WriteErrorComes(p.h);
    HTheorems.DataComes(h1);
    HTheorems.FrameIsParsed(h2);
    HTheorems.AmqpErrorComes(h4);
    LoopsOfABadFrameEnd(Pair(h5, c2));
    ToldOfAWrite(p.h, p.c);
    ToldNothing(h1, c1, H.ReadDone(HTheorems.A_FRAME));
    ToldNothing(h2, c1, H.Test(0));
    ToldNothing(h3, c1, H.Dispatch);
    StillUp(h4, H.On(H.Parsing(8), HTheorems.OUTER));
    ToldOfAFrame(h4, c1);
    var j5 := [Handler(HTheorems.BAD_FRAME)] + LOOPS_OF_A_BAD_FRAME;
    var j4 := [Handler(H.Dispatch)] + j5;
    var j3 := [Handler(H.Test(0))] + j4;
    Handles(p, HTheorems.FAILED_WRITE, h1, [Fault(false)], [Handler(H.ReadDone(HTheorems.A_FRAME))] + j3);
    Handles(Pair(h1, c1), H.ReadDone(HTheorems.A_FRAME), h2, [], j3);
    Handles(Pair(h2, c1), H.Test(0), h3, [], j4);
    Handles(Pair(h3, c1), H.Dispatch, h4, [], j5);
    Handles(Pair(h4, c1), HTheorems.BAD_FRAME, h5, [Fault(true)], LOOPS_OF_A_BAD_FRAME);
  }
}
