/** How the sessions of a connector end: how often the exit callback is made, and with which code. */
module ConnectorSessions {
  import opened Options
  import opened ConnectorSpec
  import opened ConnectorTheorems
  import Trx = TransceiverSpec

  // ---------------------------------------------------------------- how often

  /** A session has begun and its exit has not been reported. */
  predicate Active(c: C) {
    c.link == Connecting || c.ready
  }

  /** A drain ends after the exit of its session has been reported. */
  predicate Late(c: C, e: Event) {
    e.Drained? && !c.ready
  }

  function Lates(c: C, es: seq<Event>): nat
    decreases es
  {
    if es == [] then 0 else (if Late(c, es[0]) then 1 else 0) + Lates(Step(c, es[0]), es[1..])
  }

  function Going(c: C): nat {
    if Active(c) then 1 else 0
  }

  lemma ShutdownAddsUp(c: C)
    requires c.link == Down
    ensures OnShutdown(c).starts == c.starts && OnShutdown(c).link == Down
    ensures |OnShutdown(c).exits| + Going(OnShutdown(c)) == |c.exits| + 1
  {
    hide TellAll;
  }

  lemma TurnAddsUp(c: C)
    requires Flags(c)
    ensures TakeTurn(c).starts == c.starts
    ensures |TakeTurn(c).exits| + Going(TakeTurn(c)) == |c.exits| + Going(c)
  {
    hide Ended, Passes, Drains;
  }

  lemma StepAddsUp(c: C, e: Event)
    requires Flags(c) && Enabled(c, e)
    ensures var d := Step(c, e);
      |d.exits| + Going(d) + c.starts == |c.exits| + Going(c) + d.starts + (if Late(c, e) then 1 else 0)
  {
    hide OnShutdown, TakeTurn, Tell, TellAll, StartIdle, Ended, MayStart, HasTask, Trx.Enabled;
    match e
    case ConnectFails => ShutdownAddsUp(c.(link := Down));
    case Drained => ShutdownAddsUp(Pop(c).(link := Down));
    case Turn => TurnAddsUp(c);
    case _ =>
  }

  lemma {:induction false} RunAddsUp(c: C, es: seq<Event>)
    requires Inv(c) && Legal(c, es)
    ensures |Exec(c, es).exits| + Going(Exec(c, es)) + c.starts
         == |c.exits| + Going(c) + Exec(c, es).starts + Lates(c, es)
    decreases es
  {
    if es != [] {
      hide Step, Enabled, Late, Flags, Tidy, Going;
      StepKeepsInv(c, es[0]);
      StepAddsUp(c, es[0]);
      RunAddsUp(Step(c, es[0]), es[1..]);
    }
  }

  /**
    In every run the exits reported and the session still open make up the
    sessions begun, and one more for each drain that ended late. So every
    session has exactly one exit if and only if no drain ends late.
   */
  lemma ExitsAddUp(es: seq<Event>)
    requires Legal(FRESH, es)
    ensures var c := Exec(FRESH, es);
      && |c.exits| + Going(c) == c.starts + Lates(FRESH, es)
      && (|c.exits| + Going(c) == c.starts <==> Lates(FRESH, es) == 0)
  {
    hide Exec, Step, Enabled, Lates;
    RunAddsUp(FRESH, es);
  }

  // ---------------------------------------------------------------- with which code

  /** The handler is made to shut down while it is shutting down, by an error of its own or by the task of a stop. */
  predicate Clashes(c: C, e: Event) {
    c.link == Draining && (e.Fault? || (e.Turn? && c.stack.On? && c.stack.top == Task(0)))
  }

  predicate Quiet(c: C, es: seq<Event>)
    decreases es
  {
    es == [] || (!Clashes(c, es[0]) && Quiet(Step(c, es[0]), es[1..]))
  }

  /** What a run without clashes keeps besides. */
  predicate Orderly(c: C) {
    && Drains(c.stack) == (if c.link == Draining then 1 else 0)
    && (c.link == Draining ==> c.ready)
    && (c.exiting && c.ready ==> c.link == Draining)
  }

  lemma StepStaysOrderly(c: C, e: Event)
    requires Flags(c) && Orderly(c) && Enabled(c, e) && !Clashes(c, e)
    ensures Orderly(Step(c, e)) && !Late(c, e)
  {
    hide Tell, TellAll, StartIdle, Ended, MayStart, Trx.Enabled;
  }

  /** The first thing in a session that makes it end, as the exit code that stands for it. */
  function Cause(c: C, e: Event): seq<ExitCode> {
    match e
    case ConnectFails => [BrokerConnectError]
    case Fault(amqp) => if c.link == Up then [if amqp then AmqpError else Normal] else []
    case Turn => if c.link == Up && c.stack.On? && c.stack.top == Task(0) then [Normal] else []
    case _ => []
  }

  function Causes(c: C, es: seq<Event>): seq<ExitCode>
    decreases es
  {
    if es == [] then [] else Cause(c, es[0]) + Causes(Step(c, es[0]), es[1..])
  }

  /** The exit that is due. */
  function Due(c: C): seq<ExitCode> {
    if c.link == Draining then [if c.amqpError && !c.exiting then AmqpError else Normal]
    else if c.link == Down && c.ready then [Normal]
    else []
  }

  lemma FailureNamesCause(c: C)
    requires Flags(c) && c.link == Connecting
    ensures var d := OnShutdown(c.(link := Down));
      d.exits + Due(d) == c.exits + Due(c) + [BrokerConnectError]
  {
    hide TellAll, Drains, HasTask;
  }

  lemma DrainNamesCause(c: C)
    requires Flags(c) && Orderly(c) && c.link == Draining
    ensures var d := OnShutdown(Pop(c).(link := Down));
      d.exits + Due(d) == c.exits + Due(c)
  {
    hide TellAll, Drains, HasTask;
  }

  lemma TurnNamesCause(c: C)
    requires Flags(c) && Orderly(c) && !Clashes(c, Turn)
    ensures TakeTurn(c).exits + Due(TakeTurn(c)) == c.exits + Due(c) + Cause(c, Turn)
  {
    hide Ended, Passes;
  }

  lemma StepNamesCause(c: C, e: Event)
    requires Flags(c) && Orderly(c) && Enabled(c, e) && !Clashes(c, e)
    ensures Step(c, e).exits + Due(Step(c, e)) == c.exits + Due(c) + Cause(c, e)
  {
    hide OnShutdown, TakeTurn, Tell, TellAll, StartIdle, Ended, MayStart, HasTask, Trx.Enabled;
    match e
    case ConnectFails => FailureNamesCause(c);
    case Drained => DrainNamesCause(c);
    case Turn => TurnNamesCause(c);
    case _ =>
  }

  lemma Chain(was: seq<ExitCode>, cause: seq<ExitCode>, now: seq<ExitCode>, later: seq<ExitCode>, end: seq<ExitCode>)
    requires now == was + cause && end == now + later
    ensures end == was + (cause + later)
  {
  }

  lemma {:induction false} RunNamesCauses(c: C, es: seq<Event>)
    requires Inv(c) && Orderly(c) && Legal(c, es) && Quiet(c, es)
    ensures Orderly(Exec(c, es)) && Lates(c, es) == 0
    ensures Exec(c, es).exits + Due(Exec(c, es)) == c.exits + Due(c) + Causes(c, es)
    decreases es
  {
    if es != [] {
      hide Step, Enabled, Late, Flags, Tidy, Orderly, Clashes, Due, Cause;
      var d := Step(c, es[0]);
      StepKeepsInv(c, es[0]);
      StepStaysOrderly(c, es[0]);
      StepNamesCause(c, es[0]);
      RunNamesCauses(d, es[1..]);
      Chain(c.exits + Due(c), Cause(c, es[0]), d.exits + Due(d), Causes(d, es[1..]),
            Exec(d, es[1..]).exits + Due(Exec(d, es[1..])));
    }
  }

  /**
    In every run without a clash, each session that has ended has had exactly
    one exit, and the codes are, in order, those of the first thing that made
    each session end; one more is due while the ending is under way.
   */
  lemma OneExitEachWithItsCause(es: seq<Event>)
    requires Legal(FRESH, es) && Quiet(FRESH, es)
    ensures var c := Exec(FRESH, es);
      && |c.exits| + Going(c) == c.starts
      && c.exits + Due(c) == Causes(FRESH, es)
      && (Due(c) != [] ==> Active(c))
  {
    hide Exec, Step, Enabled, Lates, Causes, Legal, Quiet;
    ExitsAddUp(es);
    RunNamesCauses(FRESH, es);
  }
}
