/**
  What a connector comes to when it is left alone with every transceiver at its
  end: waits take their turns, drains end, posted tasks begin, and nobody calls.
 */
module ConnectorRest {
  import opened Options
  import opened ConnectorSpec
  import opened ConnectorTheorems
  import opened ConnectorSessions
  import Trx = TransceiverSpec

  // ---------------------------------------------------------------- what a session owes

  /** Something is under way that will end the session. */
  predicate Ending(c: C) {
    c.tasks > 0 || HasTask(c.stack) || c.link == Draining
  }

  /** A session whose handler has gone has a stop on its way, and one that exits drains. */
  predicate Owing(c: C) {
    && (c.ready && c.link == Down ==> c.tasks > 0 || HasTask(c.stack))
    && (c.ready && c.exiting ==> c.link == Draining)
  }

  lemma ShutdownOwes(c: C)
    requires c.link == Down
    ensures Owing(OnShutdown(c))
  {
    hide TellAll;
  }

  lemma TurnOwes(c: C)
    requires Flags(c) && Owing(c)
    ensures Owing(TakeTurn(c))
  {
    hide Ended, Passes, Drains;
  }

  lemma StepOwes(c: C, e: Event)
    requires Flags(c) && Owing(c) && Enabled(c, e)
    ensures Owing(Step(c, e))
  {
    hide OnShutdown, TakeTurn, Tell, TellAll, StartIdle, Ended, MayStart, Trx.Enabled;
    match e
    case ConnectFails => ShutdownOwes(c.(link := Down));
    case Drained => ShutdownOwes(Pop(c).(link := Down));
    case Turn => TurnOwes(c);
    case _ =>
  }

  lemma {:induction false} RunOwes(c: C, es: seq<Event>)
    requires Inv(c) && Owing(c) && Legal(c, es)
    ensures Owing(Exec(c, es))
    decreases es
  {
    if es != [] {
      hide Step, Enabled, Flags, Tidy, Owing;
      StepKeepsInv(c, es[0]);
      StepOwes(c, es[0]);
      RunOwes(Step(c, es[0]), es[1..]);
    }
  }

  // ---------------------------------------------------------------- how long it takes

  /** What a wait still takes; `extra` is for the drain that the end of a task can begin. */
  function Effort(stack: Stack, n: nat, extra: nat): nat {
    if stack.Empty? then 0
    else Effort(stack.below, n, extra) +
         match stack.top
         case Task(i) => i + 1 + extra
         case Running(i) => i + 1
         case Drain => n + 3
         case _ => 1
  }

  function Posted(tasks: nat, n: nat, extra: nat): nat {
    if tasks == 0 then 0 else n + 2 + extra + Posted(tasks - 1, n, extra)
  }

  function Extra(c: C): nat {
    if c.link == Down then 0 else |c.members| + 3
  }

  /** So many events bring the connector to rest. */
  function Work(c: C): nat {
    Effort(c.stack, |c.members|, Extra(c)) + Posted(c.tasks, |c.members|, Extra(c))
  }

  lemma {:induction false} EffortShrinks(stack: Stack, n: nat, extra: nat)
    ensures Effort(stack, n, 0) <= Effort(stack, n, extra)
  {
    if stack.On? { EffortShrinks(stack.below, n, extra); }
  }

  lemma {:induction false} PostedShrinks(tasks: nat, n: nat, extra: nat)
    ensures Posted(tasks, n, 0) <= Posted(tasks, n, extra)
  {
    if tasks > 0 { PostedShrinks(tasks - 1, n, extra); }
  }

  // ---------------------------------------------------------------- left alone

  function NextAlone(c: C): Event {
    if c.stack.Empty? then BeginTask else if c.stack.top.Drain? then Drained else Turn
  }

  predicate AtRest(c: C) {
    c.stack.Empty? && c.tasks == 0
  }

  function LeftAlone(c: C, fuel: nat): seq<Event>
    decreases fuel
  {
    if fuel == 0 || AtRest(c) then [] else [NextAlone(c)] + LeftAlone(Step(c, NextAlone(c)), fuel - 1)
  }

  lemma NothingHoldsUp(c: C)
    requires c.stack.On? && !c.stack.top.Drain? && AllEnded(c.members)
    ensures match c.stack.top
      case Task(i) => i > 0 ==> Passes(c, i, false)
      case Running(i) => i > 0 ==> Passes(c, i, true)
      case w => WaitOver(c, w)
  {
    hide Ended;
    var w := c.stack.top;
    if w.Task? || w.Running? {
      if 0 < w.i <= |c.members| { assert c.members[w.i - 1] in c.members; }
    } else if w.i < |c.members| {
      assert c.members[w.i] in c.members;
    }
  }

  /** The turn a wait takes when nothing holds it up. */
  lemma TurnTaken(c: C)
    requires c.stack.On? && !c.stack.top.Drain? && AllEnded(c.members)
    ensures TakeTurn(c) ==
      match c.stack.top
      case Task(i) => if i == 0 then EndTask(Pop(c)) else Push(Pop(c), Task(i - 1))
      case Running(i) => if i == 0 then Pop(c) else Push(Pop(c), Running(i - 1))
      case _ => Pop(c)
  {
    NothingHoldsUp(c);
    hide Ended, Passes, AllEnded, EndTask;
  }

  lemma EndedRests(m: Member, e: Trx.Event)
    requires Ended(m) && (e.Stop? || e.Drop?)
    ensures Tell(m, e) == m
  {
  }

  lemma AllEndedRest(ms: seq<Member>, e: Trx.Event)
    requires AllEnded(ms) && (e.Stop? || e.Drop?)
    ensures TellAll(ms, e) == ms
  {
    hide Tell, Ended;
    forall j | 0 <= j < |ms| ensures Tell(ms[j], e) == ms[j] {
      assert ms[j] in ms;
      EndedRests(ms[j], e);
    }
  }

  /** The end of a shutdown, when there is nobody to tell of it. */
  lemma ShutdownTaken(c: C)
    requires AllEnded(c.members)
    ensures OnShutdown(c) ==
            if c.exiting then Release(c, Normal)
            else if !c.ready then Release(c, BrokerConnectError)
            else if c.amqpError then Release(c, AmqpError)
            else c.(tasks := c.tasks + 1)
  {
    hide AllEnded, TellAll;
    AllEndedRest(c.members, Trx.Stop);
    AllEndedRest(c.members, Trx.Drop);
  }

  /** One step of a connector left alone, in all its cases. */
  function StepAlone(c: C): C {
    if c.stack.Empty? then (if c.tasks == 0 then c else Push(c.(tasks := c.tasks - 1), Task(|c.members|)))
    else
      var p := Pop(c);
      match c.stack.top
      case Drain =>
        var d := p.(link := Down);
        if c.exiting then Release(d, Normal)
        else if !c.ready then Release(d, BrokerConnectError)
        else if c.amqpError then Release(d, AmqpError)
        else d.(tasks := c.tasks + 1)
      case Task(i) => if i == 0 then EndTask(p) else Push(p, Task(i - 1))
      case Running(i) => if i == 0 then p else Push(p, Running(i - 1))
      case _ => p
  }

  lemma AloneIs(c: C)
    requires AllEnded(c.members) && !AtRest(c)
    ensures Enabled(c, NextAlone(c)) && Step(c, NextAlone(c)) == StepAlone(c)
    ensures StepAlone(c).members == c.members
  {
    hide AllEnded, TakeTurn, OnShutdown;
    if c.stack.On? {
      if c.stack.top.Drain? { ShutdownTaken(Pop(c).(link := Down)); } else { TurnTaken(c); }
    }
  }

  lemma DrainSpends(c: C)
    requires c.stack.On? && c.stack.top.Drain?
    ensures Work(StepAlone(c)) < Work(c)
  {
    EffortShrinks(c.stack.below, |c.members|, Extra(c));
    PostedShrinks(c.tasks, |c.members|, Extra(c));
  }

  lemma WaitSpends(c: C)
    requires c.stack.On? && !c.stack.top.Drain? && c.stack.top != Task(0)
    ensures Work(StepAlone(c)) < Work(c)
  {
    hide Posted;
  }

  lemma LastTurnSpends(c: C)
    requires c.stack.On? && c.stack.top == Task(0)
    ensures Work(StepAlone(c)) < Work(c)
  {
    hide Posted;
  }

  lemma TaskSpends(c: C)
    requires c.stack.Empty? && c.tasks > 0
    ensures Work(StepAlone(c)) < Work(c)
  {
  }

  lemma AloneSpends(c: C)
    requires !AtRest(c)
    ensures Work(StepAlone(c)) < Work(c)
  {
    hide StepAlone, Work;
    if c.stack.Empty? {
      TaskSpends(c);
    } else if c.stack.top.Drain? {
      DrainSpends(c);
    } else if c.stack.top == Task(0) {
      LastTurnSpends(c);
    } else {
      WaitSpends(c);
    }
  }

  lemma AloneGoesOnEnding(c: C)
    requires Flags(c) && Owing(c) && !AtRest(c)
    ensures var d := StepAlone(c);
      && (!c.ready ==> !d.ready)
      && (c.ready && Ending(c) ==> !d.ready || Ending(d))
      && (c.ready && !Ending(c) ==> d.ready && !Ending(d) && d.exits == c.exits)
  {
  }

  lemma AloneKeeps(c: C)
    requires Flags(c) && Owing(c) && AllEnded(c.members) && !AtRest(c)
    ensures var d := StepAlone(c);
      Flags(d) && Owing(d) && AllEnded(d.members)
  {
    hide StepAlone, Step, Enabled, Flags, Owing, AllEnded;
    AloneIs(c);
    StepKeepsFlags(c, NextAlone(c));
    StepOwes(c, NextAlone(c));
  }

  lemma RestIsOver(c: C)
    requires Flags(c) && Owing(c) && AtRest(c)
    ensures !Ending(c) && (c.ready ==> c.link == Up)
  {
  }

  /**
    With every transceiver at its end and nobody calling, a connector comes to
    rest, whatever it waits for: no wait and no task is left, and if a stop, an
    error or a shutdown was on its way the session is over; otherwise nothing
    has happened to it.
   */
  lemma {:induction false} LeftAloneRests(c: C, fuel: nat)
    requires Flags(c) && Owing(c) && AllEnded(c.members) && fuel >= Work(c)
    ensures var es := LeftAlone(c, fuel); var t := Exec(c, es);
      && Legal(c, es) && AtRest(t) && AllEnded(t.members)
      && (t.ready <==> c.ready && !Ending(c))
      && (c.ready && !Ending(c) ==> t.exits == c.exits)
    decreases fuel
  {
    hide Step, Enabled, Flags, Owing, AllEnded, Work, Ending, NextAlone, StepAlone;
    if AtRest(c) {
      RestIsOver(c);
    } else {
      AloneIs(c);
      AloneSpends(c);
      AloneGoesOnEnding(c);
      AloneKeeps(c);
      LeftAloneRests(StepAlone(c), fuel - 1);
    }
  }

  // ---------------------------------------------------------------- how it ends

  /** The innermost drain has the task of a stop inside it. */
  predicate TaskInside(stack: Stack) {
    stack.On? && !stack.top.Drain? && (stack.top.Task? || TaskInside(stack.below))
  }

  /**
    The exits still to come: the one that is due, but two if the task of a stop is
    inside the drain, where it will stop the handler once more.
   */
  function Expected(c: C): seq<ExitCode> {
    if !c.ready then []
    else if c.link == Draining then (if TaskInside(c.stack) then [Normal, Normal] else Due(c))
    else if Ending(c) then [Normal]
    else []
  }

  /** The handler has been stopped inside its own drain. */
  predicate StoppedTwice(c: C) {
    c.ready && c.exiting && c.link == Draining && Drains(c.stack) == 2 && c.stack.top.Drain?
  }

  /** And the first of the two exits has been made. */
  predicate OneToCome(c: C) {
    !c.ready && c.exiting && c.link == Down && Drains(c.stack) == 1
  }

  function ToCome(c: C): seq<ExitCode> {
    if StoppedTwice(c) then [Normal, Normal] else if OneToCome(c) then [Normal] else Expected(c)
  }

  predicate Known(c: C) {
    Orderly(c) || StoppedTwice(c) || OneToCome(c)
  }

  lemma AloneOrderly(c: C)
    requires Flags(c) && Owing(c) && Orderly(c) && !AtRest(c)
    ensures var d := StepAlone(c); Known(d) && d.exits + ToCome(d) == c.exits + ToCome(c)
  {
  }

  lemma AloneTwice(c: C)
    requires StoppedTwice(c) || OneToCome(c)
    ensures var d := StepAlone(c); Known(d) && d.exits + ToCome(d) == c.exits + ToCome(c)
  {
  }

  lemma NothingToCome(c: C)
    requires Flags(c) && Owing(c) && AtRest(c) && Known(c)
    ensures ToCome(c) == [] && Orderly(c)
  {
  }

  lemma {:induction false} LeftAloneIsKnown(c: C, fuel: nat)
    requires Flags(c) && Owing(c) && AllEnded(c.members) && Known(c) && fuel >= Work(c)
    ensures Exec(c, LeftAlone(c, fuel)).exits == c.exits + ToCome(c)
    ensures Orderly(Exec(c, LeftAlone(c, fuel)))
    decreases fuel
  {
    hide Step, Enabled, Flags, Owing, AllEnded, Work, ToCome, NextAlone, StepAlone, Orderly, StoppedTwice, OneToCome;
    if AtRest(c) {
      NothingToCome(c);
      assert c.exits + [] == c.exits;
    } else {
      AloneIs(c);
      AloneSpends(c);
      AloneKeeps(c);
      if Orderly(c) { AloneOrderly(c); } else { AloneTwice(c); }
      LeftAloneIsKnown(StepAlone(c), fuel - 1);
    }
  }

  lemma ToComeIsExpected(c: C)
    requires Orderly(c)
    ensures ToCome(c) == Expected(c) && Known(c)
  {
  }

  /**
    Left alone with every transceiver at its end, a connector makes just the exits
    expected of it. A stop over a working connection takes the handler down and
    has its one normal exit; an error has the exit that is due; but a stop whose
    task is inside the drain has two.
   */
  lemma LeftAloneExits(c: C, fuel: nat)
    requires Flags(c) && Owing(c) && Orderly(c) && AllEnded(c.members) && fuel >= Work(c)
    ensures var es := LeftAlone(c, fuel); var t := Exec(c, es);
      && Legal(c, es) && AtRest(t) && t.exits == c.exits + Expected(c)
      && (t.ready <==> c.ready && !Ending(c))
  {
    hide Legal, Exec, LeftAlone, Flags, Owing, Orderly, AllEnded, Work, Expected, Ending, Known;
    LeftAloneRests(c, fuel);
    ToComeIsExpected(c);
    LeftAloneIsKnown(c, fuel);
  }

  /** The ordinary stop: a working connection, a stop on its way, every transceiver at its end. */
  lemma StopOfAWorkingConnection(c: C, fuel: nat)
    requires Flags(c) && c.link == Up && (c.tasks > 0 || HasTask(c.stack)) && AllEnded(c.members) && fuel >= Work(c)
    ensures var es := LeftAlone(c, fuel); var t := Exec(c, es);
      && Legal(c, es) && AtRest(t) && !t.ready && t.exits == c.exits + [Normal]
  {
    hide Legal, Exec, LeftAlone, AllEnded, Work;
    LeftAloneExits(c, fuel);
  }
}
