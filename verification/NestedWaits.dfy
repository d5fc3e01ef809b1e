/**
  A handler and its connector on their one call stack: which of the loops of the
  two is inside which. What comes from the broker comes out of `parse`, in the
  innermost loop; so a wait of the connector inside `parse` waits in vain.
 */
module NestedWaits {
  import opened Options
  import opened ConnectorSpec
  import opened ConnectorTheorems
  import Bytes = Frames
  import H = HandlerSpec
  import HInv = HandlerInvariant
  import Link = HandlerRefinesLink
  import Trx = TransceiverSpec
  import Waits = ConnectorWaits

  /** A frame of the call stack: a read loop, a drain, which is a wait of both, or a wait of the connector. */
  datatype Frame = Reading | Draining | Waiting

  datatype Frames = Bottom | Over(top: Frame, below: Frames)

  /** The frames are those of the two stacks, in some order. */
  predicate Merged(frames: Frames, hs: H.Stack, cs: Stack) {
    match frames
    case Bottom => hs.Empty? && cs.Empty?
    case Over(Reading, below) => hs.On? && !hs.top.Draining? && Merged(below, hs.below, cs)
    case Over(Draining, below) =>
      hs.On? && hs.top.Draining? && cs.On? && cs.top.Drain? && Merged(below, hs.below, cs.below)
    case Over(Waiting, below) => cs.On? && !cs.top.Drain? && Merged(below, hs, cs.below)
  }

  /** A read loop is in progress somewhere. */
  predicate HasReading(frames: Frames) {
    frames.Over? && (frames.top.Reading? || HasReading(frames.below))
  }

  /** A joint run, with the call stack it has come to. */
  datatype Nest = Nest(p: Link.Pair, frames: Frames)

  predicate FromBroker(e: Event) {
    e.Happens? && (e.event.Answer? || e.event.Incoming?)
  }

  predicate IsLoopTurn(e: H.Event) {
    e.Test? || e.Dispatch? || e.ParseReturns? || e.Unwind?
  }

  /** Where other code runs: at top level, in a wait, in `parse`, and in a drain with something in flight. */
  predicate Outside(n: Nest) {
    match n.frames
    case Bottom => true
    case Over(Waiting, _) => true
    case Over(Reading, _) => n.p.h.stack.On? && n.p.h.stack.top.Parsing?
    case Over(Draining, _) => n.p.h.readReq || n.p.h.writeReq
  }

  /**
    A turn is taken by the innermost loop; an answer or a message comes out of
    `parse`. A session begins when no loop of the last handler is left.
   */
  predicate NestEnabled(n: Nest, j: Link.Joint) {
    match j
    case Handler(e) =>
      && H.Enabled(n.p.h, e) && !e.Start? && !e.Stop?
      && (if e.Drained? then n.frames.Over? && n.frames.top.Draining?
          else if IsLoopTurn(e) then n.frames.Over? && n.frames.top.Reading?
          else Outside(n))
    case Own(e) =>
      && Enabled(n.p.c, e) && Link.Alone(n.p.c, e)
      && (if e.Turn? then n.frames.Over? && n.frames.top.Waiting?
          else Outside(n) && (FromBroker(e) ==> n.frames.Over? && n.frames.top.Reading? && H.Up(n.p.h)))
    case Stops => n.frames.Over? && n.frames.top.Waiting? && Link.EndsTask(n.p.c) && H.Enabled(n.p.h, H.Stop)
    case Anew => Outside(n) && n.p.h.stack.Empty? && Enabled(n.p.c, AsyncStart) && !n.p.c.ready
  }

  // ---------------------------------------------------------------- the call stack

  function Under(frames: Frames): Frames {
    if frames.Over? then frames.below else frames
  }

  /** The read loop arms the next read and ends. */
  predicate Rearms(h: H.H, e: H.Event) {
    e.Test? && h.stack.On? && h.stack.top.Testing? && !(|h.inBuf| >= e.expected && h.stack.top.again)
  }

  /** What a step puts on the call stack, or takes off. */
  function FramesAfter(n: Nest, j: Link.Joint): Frames {
    match j
    case Handler(e) =>
      if e.Drained? || e.Unwind? || Rearms(n.p.h, e) then Under(n.frames)
      else if e.ReadDone? && H.Up(n.p.h) then Over(Reading, n.frames)
      else if Link.Told(n.p.h, e) != [] && Link.Told(n.p.h, e)[0].Fault? then Over(Frame.Draining, n.frames)
      else n.frames
    case Own(e) =>
      var was, now := n.p.c.stack, Step(n.p.c, e).stack;
      if now.On? && now.below == was then Over(Waiting, n.frames)
      else if was.On? && now == was.below then Under(n.frames)
      else n.frames
    case Stops => Over(Frame.Draining, Under(n.frames))
    case Anew => n.frames
  }

  function NestStep(n: Nest, j: Link.Joint): Nest {
    Nest(Link.JointStep(n.p, j), FramesAfter(n, j))
  }

  function NestExec(n: Nest, js: seq<Link.Joint>): Nest
    decreases js
  {
    if js == [] then n else NestExec(NestStep(n, js[0]), js[1..])
  }

  predicate NestLegal(n: Nest, js: seq<Link.Joint>)
    decreases js
  {
    js == [] || (NestEnabled(n, js[0]) && NestLegal(NestStep(n, js[0]), js[1..]))
  }

  ghost predicate Fine(n: Nest) {
    Merged(n.frames, n.p.h.stack, n.p.c.stack) && Link.Together(n.p) && Inv(n.p.c)
  }

  lemma StackOfCall(c: C, e: Event)
    requires Enabled(c, e) && Link.Alone(c, e) && !e.Turn?
    ensures var t := Step(c, e).stack; t == c.stack || (t.On? && t.below == c.stack && !t.top.Drain?)
  {
    hide Tell, TellAll, StartIdle, Ended, MayStart;
  }

  lemma StackOfTurn(c: C)
    requires Enabled(c, Turn) && Link.Alone(c, Turn)
    ensures var t := TakeTurn(c).stack;
      t == c.stack || t == c.stack.below || (t.On? && t.below == c.stack.below && !t.top.Drain?)
  {
    hide Ended, Passes;
  }

  lemma OwnKeepsMerged(n: Nest, e: Event)
    requires Merged(n.frames, n.p.h.stack, n.p.c.stack) && NestEnabled(n, Link.Own(e))
    ensures Merged(FramesAfter(n, Link.Own(e)), n.p.h.stack, Step(n.p.c, e).stack)
  {
    hide Step, Enabled, Link.Alone, TakeTurn;
    if e.Turn? {
      StackOfTurn(n.p.c) by { TurnIs(n.p.c); }
      TurnIs(n.p.c);
    } else {
      StackOfCall(n.p.c, e);
    }
  }

  lemma TurnIs(c: C)
    ensures Step(c, Turn) == TakeTurn(c)
  {
  }

  /** What a step of the handler does to its stack. */
  predicate StackMoves(h: H.H, e: H.Event, hs: H.Stack) {
    if e.Drained? || e.Unwind? || Rearms(h, e) then h.stack.On? && hs == h.stack.below
    else if e.ReadDone? && H.Up(h) then hs.On? && hs.below == h.stack && !hs.top.Draining?
    else if Link.Told(h, e) != [] && Link.Told(h, e)[0].Fault? then hs == H.On(H.Draining, h.stack)
    else
      || hs == h.stack
      || (h.stack.On? && hs.On? && hs.below == h.stack.below && !h.stack.top.Draining? && !hs.top.Draining?)
  }

  lemma CallMovesStack(h: H.H, e: H.Event)
    requires H.Enabled(h, e) && !e.Start? && !e.Stop? && !HInv.IsTurn(e) && !HInv.IsTransfer(e)
    ensures StackMoves(h, e, H.Step(h, e).stack)
  {
    hide H.Turn;
  }

  lemma TransferMovesStack(h: H.H, e: H.Event)
    requires HInv.Flow(h) && H.Enabled(h, e) && HInv.IsTransfer(e)
    ensures StackMoves(h, e, H.Step(h, e).stack)
  {
    if e.WriteDone? || e.WriteFailed? { HInv.TakeLeaves(h, e.n); }
    hide H.Take, H.Turn, HInv.Done, HInv.ReadLoops, HInv.Drains;
  }

  lemma TurnMovesStack(h: H.H, e: H.Event)
    requires H.Enabled(h, e) && HInv.IsTurn(e)
    ensures StackMoves(h, e, H.Step(h, e).stack)
  {
  }

  lemma HandlerMovesStack(h: H.H, e: H.Event)
    requires HInv.Inv(h) && H.Enabled(h, e) && !e.Start? && !e.Stop?
    ensures StackMoves(h, e, H.Step(h, e).stack)
  {
    hide H.Step, H.Enabled, HInv.Flow, HInv.Input, HInv.Output, StackMoves;
    if HInv.IsTurn(e) {
      TurnMovesStack(h, e);
    } else if HInv.IsTransfer(e) {
      TransferMovesStack(h, e);
    } else {
      CallMovesStack(h, e);
    }
  }

  /** A loop of the handler begins or ends, or goes on as another. */
  lemma FramesFollow(frames: Frames, hs: H.Stack, cs: Stack)
    requires Merged(frames, hs, cs)
    ensures forall l: H.Loop | !l.Draining? :: Merged(Over(Reading, frames), H.On(l, hs), cs)
    ensures Merged(Over(Frame.Draining, frames), H.On(H.Draining, hs), On(Drain, cs))
    ensures frames.Over? && frames.top.Draining? ==> Merged(frames.below, hs.below, cs.below)
    ensures frames.Over? && frames.top.Reading? ==> hs.On? && Merged(frames.below, hs.below, cs)
  {
  }

  lemma {:induction false} LoopGoesOn(frames: Frames, hs: H.Stack, cs: Stack, l: H.Loop)
    requires Merged(frames, hs, cs) && hs.On? && !hs.top.Draining? && !l.Draining?
    ensures Merged(frames, H.On(l, hs.below), cs)
  {
    match frames
    case Over(Waiting, below) => LoopGoesOn(below, hs, cs.below, l);
    case _ =>
  }

  lemma HandlerKeepsMerged(n: Nest, e: H.Event)
    requires Fine(n) && NestEnabled(n, Link.Handler(e))
    ensures var q := Link.JointStep(n.p, Link.Handler(e));
      Merged(FramesAfter(n, Link.Handler(e)), q.h.stack, q.c.stack)
  {
    hide H.Step, H.Enabled, HInv.Inv, Link.Told, Link.After, Step, Enabled, Inv, Rearms, Link.Alike, Outside, Merged;
    if n.frames.Over? && n.frames.top.Draining? { DrainIsOnTop(n); }
    HandlerMovesStack(n.p.h, e);
    ToldMovesStack(n.p.h, n.p.c, e);
    FramesFollow(n.frames, n.p.h.stack, n.p.c.stack);
    RearmsIsATest(n.p.h, e);
    var hs := H.Step(n.p.h, e).stack;
    if hs.On? && n.p.h.stack.On? && hs.below == n.p.h.stack.below && !hs.top.Draining? && !n.p.h.stack.top.Draining? {
      LoopGoesOn(n.frames, n.p.h.stack, n.p.c.stack, hs.top);
    }
  }

  lemma DrainIsOnTop(n: Nest)
    requires Merged(n.frames, n.p.h.stack, n.p.c.stack) && n.frames.Over? && n.frames.top.Draining?
    ensures n.p.c.stack.On? && n.p.c.stack.top.Drain?
  {
  }

  lemma RearmsIsATest(h: H.H, e: H.Event)
    ensures Rearms(h, e) ==> e.Test? && Link.Told(h, e) == []
    ensures e.ReadDone? || e.Unwind? ==> Link.Told(h, e) == []
    ensures e.Drained? ==> Link.Told(h, e) == [Drained]
    ensures Link.Told(h, e) != [] && Link.Told(h, e)[0].Drained? ==> e.Drained?
  {
  }

  lemma ToldMovesStack(h: H.H, c: C, e: H.Event)
    requires H.Enabled(h, e) && !e.Start? && !e.Stop? && (e.Drained? ==> c.stack.On? && c.stack.top.Drain?)
    ensures var told := Link.Told(h, e); var d := Link.After(c, told);
      if told == [] || told[0].ConnectOk? || told[0].ConnectFails? then d.stack == c.stack
      else if told[0].Fault? then d.stack == On(Drain, c.stack)
      else e.Drained? && d.stack == c.stack.below
  {
    hide TellAll, H.Enabled;
  }

  lemma StopsKeepsMerged(n: Nest)
    requires Fine(n) && NestEnabled(n, Link.Stops)
    ensures Merged(FramesAfter(n, Link.Stops), H.Step(n.p.h, H.Stop).stack, Step(n.p.c, Turn).stack)
  {
    hide HInv.Inv, Inv, H.Turn;
  }

  /** What can be done on the call stack can be done by the two, if one takes no account of it. */
  lemma NestIsJoint(n: Nest, j: Link.Joint)
    requires Merged(n.frames, n.p.h.stack, n.p.c.stack) && NestEnabled(n, j)
    ensures Link.JointEnabled(n.p, j)
  {
    hide H.Enabled, Enabled, Link.Alone, Link.EndsTask, Outside;
  }

  lemma NestStepKeeps(n: Nest, j: Link.Joint)
    requires Fine(n) && NestEnabled(n, j)
    ensures Fine(NestStep(n, j)) && Link.JointEnabled(n.p, j)
  {
    NestIsJoint(n, j);
    Link.JointStepKeeps(n.p, j);
    if Link.EventsOf(n.p, j) != [] { StepKeepsInv(n.p.c, Link.EventsOf(n.p, j)[0]); }
    StepKeepsMerged(n, j);
    hide Step, Enabled, H.Step, NestEnabled, FramesAfter, Link.EventsOf, Link.JointEnabled, Link.JointStep, Inv,
         Link.Together, Merged;
  }

  lemma StepKeepsMerged(n: Nest, j: Link.Joint)
    requires Fine(n) && NestEnabled(n, j)
    ensures var q := NestStep(n, j); Merged(q.frames, q.p.h.stack, q.p.c.stack)
  {
    hide Step, Enabled, H.Step, NestEnabled, FramesAfter, Inv, Link.Together, Merged;
    match j
    case Handler(e) => HandlerKeepsMerged(n, e);
    case Own(e) => OwnIsMerged(n, e);
    case Stops => StopsKeepsMerged(n);
    case Anew => AnewIsMerged(n);
  }

  lemma OwnIsMerged(n: Nest, e: Event)
    requires Fine(n) && NestEnabled(n, Link.Own(e))
    ensures Merged(FramesAfter(n, Link.Own(e)), n.p.h.stack, Step(n.p.c, e).stack)
  {
    hide Inv, Link.Together, Step, Enabled;
    OwnKeepsMerged(n, e);
  }

  lemma AnewIsMerged(n: Nest)
    requires Fine(n) && NestEnabled(n, Link.Anew)
    ensures Merged(FramesAfter(n, Link.Anew), H.Step(H.FRESH, H.Start).stack, Step(n.p.c, AsyncStart).stack)
  {
    hide Inv, Link.Together, Merged;
  }

  /** On one call stack, too, the two run together as in `EveryJointRun`, and its frames are those of their stacks. */
  lemma {:induction false} NestedRunsAreJoint(n: Nest, js: seq<Link.Joint>)
    requires Fine(n) && NestLegal(n, js)
    ensures Fine(NestExec(n, js)) && Link.JointLegal(n.p, js) && Link.JointExec(n.p, js) == NestExec(n, js).p
    decreases js
  {
    if js != [] {
      hide Fine, NestEnabled, FramesAfter, Link.JointStep, Link.JointEnabled;
      NestStepKeeps(n, js[0]);
      NestedRunsAreJoint(NestStep(n, js[0]), js[1..]);
    }
  }

  // ---------------------------------------------------------------- waiting inside `parse`

  /** A wait for the i-th transceiver. */
  predicate WaitsFor(w: Wait, i: nat) {
    w == ForReady(i) || w == ForEnd(i) || w == Running(i + 1)
  }

  /** Such a wait is inside a read loop. */
  predicate Inside(frames: Frames, cs: Stack, i: nat) {
    match frames
    case Bottom => false
    case Over(Reading, below) => Inside(below, cs, i)
    case Over(Draining, below) => cs.On? && Inside(below, cs.below, i)
    case Over(Waiting, below) =>
      cs.On? && ((WaitsFor(cs.top, i) && HasReading(below)) || Inside(below, cs.below, i))
  }

  lemma {:induction false} ReadingIsALoop(frames: Frames, hs: H.Stack, cs: Stack)
    requires Merged(frames, hs, cs) && HasReading(frames)
    ensures HInv.ReadLoops(hs) > 0
  {
    match frames
    case Over(Reading, _) =>
    case Over(Draining, below) => ReadingIsALoop(below, hs.below, cs.below);
    case Over(Waiting, below) => ReadingIsALoop(below, hs, cs.below);
  }

  lemma {:induction false} InsideIsALoop(frames: Frames, hs: H.Stack, cs: Stack, i: nat)
    requires Merged(frames, hs, cs) && Inside(frames, cs, i)
    ensures HInv.ReadLoops(hs) > 0
  {
    match frames
    case Over(Reading, _) =>
    case Over(Draining, below) => InsideIsALoop(below, hs.below, cs.below, i);
    case Over(Waiting, below) =>
      if Inside(below, cs.below, i) {
        InsideIsALoop(below, hs, cs.below, i);
      } else {
        ReadingIsALoop(below, hs, cs.below);
      }
  }

  /** The connection is up, and a wait inside its read loop is for the i-th transceiver, which waits for the broker. */
  predicate Stuck(n: Nest, i: nat) {
    && Inside(n.frames, n.p.c.stack, i) && n.p.c.link == Up && i < |n.p.c.members|
    && !Ended(n.p.c.members[i]) && n.p.c.members[i].t.state != Trx.Ready
  }

  /**
    The one read loop is the one that is waited in: none is innermost, no read is
    in flight, and so nothing comes from the broker.
   */
  lemma NothingIsRead(n: Nest, i: nat, j: Link.Joint)
    requires Fine(n) && Stuck(n, i) && NestEnabled(n, j)
    ensures j.Own? ==> !FromBroker(j.event)
    ensures j.Handler? ==> !j.step.ReadDone? && !j.step.ReadFailed? && (!IsLoopTurn(j.step))
    ensures !(n.frames.Over? && n.frames.top.Reading?)
  {
    InsideIsALoop(n.frames, n.p.h.stack, n.p.c.stack, i);
    if n.frames.top.Reading? { InsideIsALoop(n.frames.below, n.p.h.stack.below, n.p.c.stack, i); }
    hide Outside, Enabled, Inv, Drains, HInv.Drains, HInv.Input, HInv.Output, HInv.Clean, Link.EndsTask, Link.Alone;
  }

  /** The connection does not fail or end, the i-th transceiver is not dropped, nor stopped if it is on its way up. */
  predicate Spares(n: Nest, j: Link.Joint, i: nat) {
    match j
    case Handler(e) => Link.Told(n.p.h, e) == []
    case Own(e) =>
      i < |n.p.c.members| ==>
        var onItsWayDown := Trx.Rank(n.p.c.members[i].t.state) > Trx.Rank(Trx.Ready);
        && (e.Stop? || (e.Close? && e.i == i) || (e.Happens? && e.i == i && e.event.Stop?) ==> onItsWayDown)
        && !(e.Happens? && e.i == i && e.event.Drop?)
    case _ => true
  }

  predicate AllSpare(n: Nest, js: seq<Link.Joint>, i: nat)
    decreases js
  {
    js == [] || (Spares(n, js[0], i) && AllSpare(NestStep(n, js[0]), js[1..], i))
  }

  lemma TurnKeepsWaiting(n: Nest, i: nat)
    requires Fine(n) && Stuck(n, i) && NestEnabled(n, Link.Own(Turn))
    ensures var d := TakeTurn(n.p.c);
      d.members == n.p.c.members && Inside(FramesAfter(n, Link.Own(Turn)), d.stack, i)
  {
    TurnIs(n.p.c);
    if WaitsFor(n.p.c.stack.top, i) {
      WaitGoesOn(n.p.c, i);
    } else {
      OtherTurn(n.p.c, i);
      hide Step, TakeTurn, WaitsFor, Enabled, Inv, Link.Together, Link.Alone, Ended;
    }
  }

  lemma WaitGoesOn(c: C, i: nat)
    requires c.stack.On? && WaitsFor(c.stack.top, i)
    requires i < |c.members| && !Ended(c.members[i]) && c.members[i].t.state != Trx.Ready
    ensures TakeTurn(c) == c
  {
  }

  lemma OtherTurn(c: C, i: nat)
    requires Enabled(c, Turn) && Link.Alone(c, Turn)
    ensures TakeTurn(c).members == c.members
    ensures var t := TakeTurn(c).stack;
      t == c.stack || t == c.stack.below || (t.On? && t.below == c.stack.below && !t.top.Drain?)
  {
    hide Ended, Passes;
  }

  lemma CallKeepsMember(c: C, e: Event, i: nat)
    requires c.link == Up && i < |c.members| && !Ended(c.members[i]) && c.members[i].t.state != Trx.Ready
    requires Enabled(c, e) && Link.Alone(c, e) && !e.Turn? && !FromBroker(e) && !e.Remove?
    requires e.Stop? || (e.Close? && e.i == i) || (e.Happens? && e.i == i && e.event.Stop?) ==>
      Trx.Rank(c.members[i].t.state) > Trx.Rank(Trx.Ready)
    requires !(e.Happens? && e.i == i && e.event.Drop?)
    ensures var d := Step(c, e); i < |d.members| && d.members[i].t.state == c.members[i].t.state
  {
    hide Tell, TellAll, StartIdle, TakeTurn, MayStart, Trx.Enabled, Trx.Rank, Ended;
    if e.Stop? { Waits.TellAllHeld(c.members, i); }
    if e.Close? && e.i == i { Waits.TellHeld(c.members[i], Trx.Stop); }
    Waits.StartIdleHeld(c.members, c.connection, i);
    if e.Happens? && e.i == i { Unheeded(c.members[i], e.event); }
  }

  lemma Unheeded(m: Member, e: Trx.Event)
    requires e.Send? || (e.Stop? && Trx.Rank(m.t.state) > Trx.Rank(Trx.Ready) && !Ended(m))
    requires !e.Start? && m.t.state != Trx.Ready
    ensures Tell(m, e).t.state == m.t.state
  {
  }

  lemma SpareKeeps(n: Nest, j: Link.Joint, i: nat)
    requires Fine(n) && Stuck(n, i) && NestEnabled(n, j) && Spares(n, j, i)
    ensures var q := NestStep(n, j);
      Stuck(q, i) && q.p.c.members[i].t.state == n.p.c.members[i].t.state
  {
    NothingIsRead(n, i, j);
    match j
    case Handler(e) =>
      hide H.Step, H.Enabled, Inv, Link.Together, Outside;
    case Own(e) => OwnSpares(n, e, i);
    case Stops => Waits.TaskNotOver(n.p.c.stack, n.p.c.members, i);
    case Anew =>
  }

  lemma OwnSpares(n: Nest, e: Event, i: nat)
    requires Fine(n) && Stuck(n, i) && NestEnabled(n, Link.Own(e)) && Spares(n, Link.Own(e), i) && !FromBroker(e)
    ensures var q := NestStep(n, Link.Own(e));
      Stuck(q, i) && q.p.c.members[i].t.state == n.p.c.members[i].t.state
  {
    Link.AloneLeavesTheLink(n.p.c, e);
    if e.Turn? {
      TurnIs(n.p.c);
      TurnKeepsWaiting(n, i);
    } else {
      StackIsNotEmpty(n.frames, n.p.c.stack, i);
      CallKeepsMember(n.p.c, e, i);
      StackOfCall(n.p.c, e);
    }
    hide Step, TakeTurn, Enabled, Inv, Link.Together, Link.Alone, Outside, Trx.Rank;
  }

  lemma {:induction false} StackIsNotEmpty(frames: Frames, cs: Stack, i: nat)
    requires Inside(frames, cs, i)
    ensures cs.On?
  {
    if frames.top.Reading? { StackIsNotEmpty(frames.below, cs, i); }
  }

  /**
    A wait of the connector inside a read loop waits in vain: whatever other
    code runs meanwhile, nothing comes from the broker until the connection
    fails, and the transceiver stays in the state it is in.
   */
  lemma {:induction false} WaitsInVain(n: Nest, i: nat, js: seq<Link.Joint>)
    requires Fine(n) && Stuck(n, i) && NestLegal(n, js) && AllSpare(n, js, i)
    ensures var q := NestExec(n, js);
      Stuck(q, i) && q.p.c.members[i].t.state == n.p.c.members[i].t.state
    ensures forall j | j in js && j.Own? :: !FromBroker(j.event)
    decreases js
  {
    if js != [] {
      hide Fine, Stuck, NestEnabled, NestStep, Spares, FromBroker;
      NestStepKeeps(n, js[0]);
      NothingIsRead(n, i, js[0]);
      SpareKeeps(n, js[0], i);
      WaitsInVain(NestStep(n, js[0]), i, js[1..]);
      assert js == [js[0]] + js[1..];
    }
  }

  /** `open`, called inside `parse` for an idle transceiver over a working connection: it does not return. */
  lemma OpenInsideParse(n: Nest, i: nat, js: seq<Link.Joint>)
    requires Fine(n) && n.frames.Over? && n.frames.top.Reading? && n.p.c.link == Up
    requires i < |n.p.c.members| && Ended(n.p.c.members[i])
    requires NestEnabled(n, Link.Own(Open(i)))
    requires var s := NestStep(n, Link.Own(Open(i))); NestLegal(s, js) && AllSpare(s, js, i)
    ensures var q := NestExec(NestStep(n, Link.Own(Open(i))), js);
      && Inside(q.frames, q.p.c.stack, i)
      && i < |q.p.c.members| && q.p.c.members[i].t.state == Trx.CreateChannel
  {
    var s := NestStep(n, Link.Own(Open(i)));
    NestStepKeeps(n, Link.Own(Open(i)));
    OpenWaits(n, i);
    hide Fine, Stuck, NestEnabled, NestStep, Spares, FromBroker, NestLegal, AllSpare, NestExec, Inside;
    WaitsInVain(s, i, js);
    StuckIs(NestExec(s, js), i);
  }

  lemma StuckIs(n: Nest, i: nat)
    requires Stuck(n, i)
    ensures i < |n.p.c.members| && Inside(n.frames, n.p.c.stack, i)
  {
  }

  lemma OpenWaits(n: Nest, i: nat)
    requires Fine(n) && n.frames.Over? && n.frames.top.Reading? && n.p.c.link == Up
    requires i < |n.p.c.members| && Ended(n.p.c.members[i])
    requires NestEnabled(n, Link.Own(Open(i)))
    ensures var q := NestStep(n, Link.Own(Open(i)));
      Stuck(q, i) && q.p.c.members[i].t.state == Trx.CreateChannel
  {
    StartsOpening(n.p.c.members[i], n.p.c.connection);
    hide Tell, Tidy, Link.Together, Outside, MayStart, Merged;
  }

  lemma StartsOpening(m: Member, connection: Option<nat>)
    requires Ended(m) && connection.Some?
    ensures Tell(m, Trx.Start(connection)).t.state == Trx.CreateChannel
  {
  }

  /** From any connection at rest, with its read armed, data leads into `parse`. */
  lemma DataLeadsThere(n: Nest, chunk: Bytes.bytes)
    requires Fine(n) && n.frames.Bottom? && n.p.c.link == Up && n.p.h.readReq
    ensures var js := [Link.Handler(H.ReadDone(chunk)), Link.Handler(H.Test(0))];
      NestLegal(n, js)
      && var q := NestExec(n, js);
         Fine(q) && q.p.c == n.p.c && q.frames == Over(Reading, Bottom) && Outside(q)
  {
    var first, second := Link.Handler(H.ReadDone(chunk)), Link.Handler(H.Test(0));
    var m := NestStep(n, first);
    ReadBegins(n, chunk);
    NestStepKeeps(n, first);
    ParseBegins(m);
    NestStepKeeps(m, second);
    TwoSteps(n, first, second);
  }

  lemma TwoSteps(n: Nest, first: Link.Joint, second: Link.Joint)
    ensures var m := NestStep(n, first);
      && (NestLegal(n, [first, second]) <==> NestEnabled(n, first) && NestEnabled(m, second))
      && NestExec(n, [first, second]) == NestStep(m, second)
  {
    hide NestStep, NestEnabled;
    var m := NestStep(n, first);
    assert [first, second][1..] == [second] && [second][1..] == [];
    assert NestExec(m, [second]) == NestExec(NestStep(m, second), []);
    assert NestLegal(NestStep(m, second), []);
  }

  lemma ReadBegins(n: Nest, chunk: Bytes.bytes)
    requires Fine(n) && n.frames.Bottom? && n.p.c.link == Up && n.p.h.readReq
    ensures var first := Link.Handler(H.ReadDone(chunk)); var m := NestStep(n, first);
      && NestEnabled(n, first)
      && m.p.h.stack == H.On(H.Testing(true), H.Empty) && H.Up(m.p.h)
      && m.p.c == n.p.c && m.frames == Over(Reading, Bottom)
  {
    hide HInv.Input, HInv.Output, Inv, HInv.ReadLoops, HInv.Drains;
  }

  lemma ParseBegins(m: Nest)
    requires m.p.h.stack == H.On(H.Testing(true), H.Empty) && H.Up(m.p.h) && m.frames == Over(Reading, Bottom)
    ensures var second := Link.Handler(H.Test(0)); var q := NestStep(m, second);
      && NestEnabled(m, second)
      && q.p.c == m.p.c && q.frames == Over(Reading, Bottom) && Outside(q)
  {
    hide HInv.Input, HInv.Output, Inv, HInv.ReadLoops, HInv.Drains;
  }

  lemma NestedFromTheBeginning(js: seq<Link.Joint>)
    requires NestLegal(Nest(Link.Pair(H.FRESH, FRESH), Bottom), js)
    ensures Fine(NestExec(Nest(Link.Pair(H.FRESH, FRESH), Bottom), js))
    ensures Link.JointLegal(Link.Pair(H.FRESH, FRESH), js)
  {
    var n := Nest(Link.Pair(H.FRESH, FRESH), Bottom);
    FreshIsFine();
    hide Fine, NestLegal, NestExec, Link.JointLegal, Link.JointExec;
    NestedRunsAreJoint(n, js);
  }

  lemma FreshIsFine()
    ensures Fine(Nest(Link.Pair(H.FRESH, FRESH), Bottom))
  {
  }
}
