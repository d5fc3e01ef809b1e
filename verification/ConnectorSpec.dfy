/**
  What a connector does, event by event: one connection handler, a list of
  transceivers that use its connection, and loops that wait for them.

  A wait runs other completions of the event loop inside itself, which may wait
  in turn. Every wait in progress is an item on a stack, and each of its turns
  is an event, so a run is one sequence of events however deeply it nests.
 */
module ConnectorSpec {
  import opened Options
  import Trx = TransceiverSpec

  /** The connection handler, as far as a connector can tell. */
  datatype Link = Down | Connecting | Up | Draining

  datatype ExitCode = Normal | BrokerConnectError | AmqpError

  /**
    A wait in progress: the handler draining, the posted task of `stop` with i
    transceivers still to wait for, `open` and `close` of the i-th, and `run`
    with i still to wait for.
   */
  datatype Wait = Drain | Task(i: nat) | ForReady(i: nat) | ForEnd(i: nat) | Running(i: nat)

  datatype Stack = Empty | On(top: Wait, below: Stack)

  datatype Member = Member(cfg: Trx.Config, t: Trx.T)

  /**
    The fields of the C++ object, its handler, the tasks it has posted, and the
    record of its callbacks. The list of transceivers is kept back to front: a
    new one goes to the front of the C++ list and to the end here, and loops
    over the list count down.
   */
  datatype C = C(
    link: Link,
    amqpError: bool,
    ready: bool,
    exiting: bool,
    connection: Option<nat>,
    made: nat,
    members: seq<Member>,
    tasks: nat,
    stack: Stack,
    starts: nat,
    exits: seq<ExitCode>)

  const FRESH: C := C(Down, false, false, false, None, 0, [], 0, Empty, 0, [])

  datatype Event =
    | AsyncStart
    | ConnectOk
    | ConnectFails
    | Fault(amqp: bool)      // the handler begins to shut down of itself
    | Drained                // its wait ends, and it makes its callback
    | Stop
    | BeginTask
    | Turn                   // the wait on top of the stack looks at its condition
    | Open(i: nat)
    | Close(i: nat)
    | Run
    | Add(cfg: Trx.Config)
    | Remove(i: nat)
    | Happens(i: nat, event: Trx.Event)

  // ---------------------------------------------------------------- the list

  function Tell(m: Member, e: Trx.Event): Member {
    m.(t := Trx.Step(m.cfg, m.t, e))
  }

  function TellAll(ms: seq<Member>, e: Trx.Event): seq<Member> {
    seq(|ms|, i requires 0 <= i < |ms| => Tell(ms[i], e))
  }

  function StartIdle(ms: seq<Member>, connection: Option<nat>): seq<Member> {
    seq(|ms|, i requires 0 <= i < |ms| =>
      if Ended(ms[i]) then Tell(ms[i], Trx.Start(connection)) else ms[i])
  }

  predicate Ended(m: Member) {
    m.t.state == Trx.End
  }

  predicate AllEnded(ms: seq<Member>) {
    forall m | m in ms :: Ended(m)
  }

  // ---------------------------------------------------------------- steps

  function Push(c: C, w: Wait): C {
    c.(stack := On(w, c.stack))
  }

  function Pop(c: C): C {
    if c.stack.Empty? then c else c.(stack := c.stack.below)
  }

  /** The connection object goes, and the exit callback is made. */
  function Release(c: C, code: ExitCode): C {
    c.(ready := false, connection := None, exits := c.exits + [code])
  }

  function StopNow(c: C): C {
    if !c.ready then c else c.(members := TellAll(c.members, Trx.Stop), tasks := c.tasks + 1)
  }

  function OnShutdown(c: C): C {
    if c.exiting then Release(c, Normal)
    else if !c.ready then Release(c, BrokerConnectError)
    else if c.amqpError then Release(c.(members := TellAll(c.members, Trx.Drop)), AmqpError)
    else StopNow(c)
  }

  /** The end of the posted task, once every transceiver has been waited for. */
  function EndTask(c: C): C {
    if c.link != Down then Push(c.(exiting := true, link := Draining), Drain)
    else if c.ready then Release(c, Normal)
    else c
  }

  predicate WaitOver(c: C, w: Wait) {
    match w
    case Drain => false
    case Task(i) => i == 0
    case Running(i) => i == 0
    case ForReady(i) => i >= |c.members| || Ended(c.members[i]) || c.members[i].t.state == Trx.Ready
    case ForEnd(i) => i >= |c.members| || Ended(c.members[i])
  }

  /** Whether a loop over the list goes past the next transceiver. */
  predicate Passes(c: C, i: nat, orReady: bool) {
    0 < i && (|c.members| < i || Ended(c.members[i - 1]) || (orReady && c.members[i - 1].t.state == Trx.Ready))
  }

  function TakeTurn(c: C): C {
    if c.stack.Empty? then c
    else
      var w := c.stack.top;
      if WaitOver(c, w) then (if w.Task? then EndTask(Pop(c)) else Pop(c))
      else match w
        case Task(i) => if Passes(c, i, false) then Push(Pop(c), Task(i - 1)) else c
        case Running(i) => if Passes(c, i, true) then Push(Pop(c), Running(i - 1)) else c
        case _ => c
  }

  function Step(c: C, e: Event): C {
    match e
    case AsyncStart =>
      if c.ready then c
      else c.(exiting := false, link := Connecting, amqpError := false, starts := c.starts + 1)
    case ConnectOk =>
      if c.link != Connecting then c
      else c.(link := Up, ready := true, connection := Some(c.made), made := c.made + 1)
    case ConnectFails => if c.link != Connecting then c else OnShutdown(c.(link := Down))
    case Fault(amqp) => Push(c.(link := Draining, amqpError := c.amqpError || amqp), Drain)
    case Drained => OnShutdown(Pop(c).(link := Down))
    case Stop => StopNow(c)
    case BeginTask => if c.tasks == 0 then c else Push(c.(tasks := c.tasks - 1), Task(|c.members|))
    case Turn => TakeTurn(c)
    case Open(i) =>
      if i < |c.members| && Ended(c.members[i]) && c.ready
      then Push(c.(members := c.members[i := Tell(c.members[i], Trx.Start(c.connection))]), ForReady(i))
      else c
    case Close(i) =>
      if i < |c.members| && !Ended(c.members[i])
      then Push(c.(members := c.members[i := Tell(c.members[i], Trx.Stop)]), ForEnd(i))
      else c
    case Run =>
      if !c.ready then c else Push(c.(members := StartIdle(c.members, c.connection)), Running(|c.members|))
    case Add(cfg) => c.(members := c.members + [Member(cfg, Trx.FRESH)])
    case Remove(i) => if i < |c.members| then c.(members := c.members[..i] + c.members[i + 1..]) else c
    case Happens(i, event) =>
      if i < |c.members| then c.(members := c.members[i := Tell(c.members[i], event)]) else c
  }

  // ---------------------------------------------------------------- what the surroundings can do

  function Drains(stack: Stack): nat {
    if stack.Empty? then 0 else Drains(stack.below) + (if stack.top.Drain? then 1 else 0)
  }

  predicate HasTask(stack: Stack) {
    stack.On? && (stack.top.Task? || HasTask(stack.below))
  }

  /** A stop has been asked for, and the session is not over yet. */
  predicate Stopping(c: C) {
    c.ready && (c.tasks > 0 || HasTask(c.stack) || c.exiting)
  }

  /** A waiting task has already gone past the i-th transceiver. */
  predicate Passed(stack: Stack, i: nat) {
    stack.On? && ((stack.top.Task? && stack.top.i <= i) || Passed(stack.below, i))
  }

  /** The transceiver can be started without escaping a stop on its way. */
  predicate MayStart(c: C, i: nat) {
    c.ready ==> !c.exiting && !Passed(c.stack, i)
  }

  /**
    A session starts only when neither a task nor a drain is left of the one
    before. Nothing is opened or run that a stop on its way would miss. Nothing
    is removed while something waits. Transceivers are started only through the
    connector.
   */
  predicate Enabled(c: C, e: Event) {
    match e
    case AsyncStart => c.ready || (c.link == Down && c.tasks == 0 && !HasTask(c.stack) && Drains(c.stack) == 0)
    case ConnectOk => c.link == Connecting
    case ConnectFails => c.link == Connecting
    case Fault(_) => c.link == Up || c.link == Draining
    case Drained => c.stack.On? && c.stack.top.Drain?
    case Stop => true
    case BeginTask => c.tasks > 0
    case Turn => c.stack.On? && !c.stack.top.Drain?
    case Open(i) => i < |c.members| && MayStart(c, i)
    case Close(i) => i < |c.members|
    case Run => c.members != [] ==> MayStart(c, |c.members| - 1)
    case Add(_) => true
    case Remove(i) => c.stack.Empty? && i < |c.members|
    case Happens(i, event) =>
      i < |c.members| && Trx.Enabled(c.members[i].t, event) && !event.Start?
  }
}
