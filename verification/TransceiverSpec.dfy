/**
  What one transceiver does, as a table of moves over values.

  The class in Transceiver.dfy carries out the same protocol the way the C++
  code does, with fields, callbacks and a `StateMachine` that calls itself.
  Here the protocol is a function from a state and an event to the next state,
  so that properties of whole runs can be stated and proved.
 */
module TransceiverSpec {
  import opened Options

  /** The states in the order of the C++ enumeration, which `Rank` numbers. */
  datatype State =
    | CreateChannel | CheckQueue | RecreateChannel | CreateExchange
    | CreateQueue | BindQueue | CreateConsumer | Ready
    | Shutdown | UnbindQueue | RemoveQueue | CloseChannel | End

  function Rank(s: State): nat {
    match s
    case CreateChannel => 0
    case CheckQueue => 1
    case RecreateChannel => 2
    case CreateExchange => 3
    case CreateQueue => 4
    case BindQueue => 5
    case CreateConsumer => 6
    case Ready => 7
    case Shutdown => 8
    case UnbindQueue => 9
    case RemoveQueue => 10
    case CloseChannel => 11
    case End => 12
  }

  datatype ExitCode =
    | NoError | CreateChannelError | CreateExchangeError | CreateQueueError
    | BindQueueError | CreateConsumerError | ConsumerCancelError
    | UnbindQueueError | RemoveQueueError | CloseChannelError
    | ChannelAbruptlyClosedError | Dropped

  datatype Config = Config(exchange: string, queue: string, route: string, listener: bool)

  /** What a channel was opened for: the four places that create one. */
  datatype Purpose = ForSetup | ForRetry | ForUnbind | ForRemove

  /**
    What a channel can be asked for. `Subscription` is the consumer's error
    callback once the consume request has been granted, and `Watch` is the
    channel-wide error callback a send-only transceiver installs when ready.
   */
  datatype Op =
    | OpenFor(purpose: Purpose)
    | Check(queue: string)
    | Exchange(exchange: string)
    | Declare(queue: string, exclusive: bool)
    | Bind(exchange: string, queue: string, route: string)
    | Consume(queue: string)
    | Subscription
    | Watch
    | Cancel(tag: string)
    | Unbind(exchange: string, queue: string, route: string)
    | Remove(queue: string)
    | Close

  /** An operation on a channel. Channels are numbered from 1 in each run; 0 is no channel. */
  datatype Request = Request(chan: nat, op: Op)

  datatype Outcome = Ok(name: string) | Fail(text: string)

  /** What the broker has granted in this run, whether or not the transceiver still cared. */
  datatype Fact =
    | ExchangeOn(chan: nat)
    | Found(queue: string)
    | Declared(queue: string)
    | BoundOn(chan: nat, queue: string)
    | ConsumerOn(chan: nat, queue: string, tag: string)

  /** What the transceiver has done in this run that others can see. */
  datatype Action =
    | Issued(request: Request)
    | Abandoned(chan: nat)
    | Published(chan: nat, exchange: string, route: string, message: string, mandatory: bool)
    | Delivered(chan: nat, message: string)
    | Exited(code: ExitCode)

  /** The fields of the C++ object, and after them the record of the run's surroundings. */
  datatype T = T(
    state: State,
    connection: Option<nat>,
    channel: nat,
    recvQueue: string,
    tag: string,
    queueExist: bool,
    ec: ExitCode,
    error: string,
    channels: nat,
    pending: set<Request>,
    facts: set<Fact>,
    trace: seq<Action>)

  const FRESH: T := T(End, None, 0, "", "", false, NoError, "", 0, {}, {}, [])

  datatype Event =
    | Start(connection: Option<nat>)
    | Stop
    | Drop
    | Send(route: string, message: string, mandatory: bool)
    | Incoming(message: string)
    | Answer(request: Request, outcome: Outcome)

  // ---------------------------------------------------------------- doing things

  function Issue(s: T, op: Op): T {
    var r := Request(s.channel, op);
    s.(pending := s.pending + {r}, trace := s.trace + [Issued(r)])
  }

  /** Takes a new channel. Letting go of the old one discards what it still owed. */
  function NewChannel(s: T, purpose: Purpose): T {
    Issue(s.(channel := s.channels + 1, channels := s.channels + 1, pending := {}), OpenFor(purpose))
  }

  /** Closes the channel in hand without waiting for the answer, and takes a new one. */
  function Replace(s: T, purpose: Purpose): T {
    NewChannel(s.(trace := s.trace + [Abandoned(s.channel)]), purpose)
  }

  /** Passes through the states that have nothing to ask the broker for. */
  function Settle(cfg: Config, s: T): T {
    match s.state
    case CreateChannel =>
      if s.connection.None?
      then s.(state := End, ec := CreateChannelError, error := "no AMQP connection")
      else s
    case CheckQueue => if cfg.queue == "" then s.(state := CreateExchange) else s
    case CreateQueue => if s.queueExist then s.(state := BindQueue) else s
    case Shutdown =>
      if !cfg.listener || (s.tag == "" && s.recvQueue == "") then s.(state := CloseChannel)
      else if s.tag == "" then s.(state := UnbindQueue)
      else s
    case UnbindQueue => if s.recvQueue == "" then s.(state := CloseChannel) else s
    case RemoveQueue => if s.queueExist then s.(state := CloseChannel) else s
    case _ => s
  }

  /** What is done on arrival in a state that does not pass through. */
  function Act(cfg: Config, s: T): T {
    match s.state
    case CreateChannel => NewChannel(s, ForSetup)
    case CheckQueue => Issue(s, Check(cfg.queue))
    case RecreateChannel => Replace(s, ForRetry)
    case CreateExchange => Issue(s, Exchange(cfg.exchange))
    case CreateQueue => Issue(s, Declare(cfg.queue, cfg.queue == ""))
    case BindQueue => Issue(s, Bind(cfg.exchange, s.recvQueue, cfg.route))
    case CreateConsumer => Issue(s, Consume(s.recvQueue))
    case Ready => if cfg.listener then s else Issue(s, Watch)
    case Shutdown => Issue(s, Cancel(s.tag))
    case UnbindQueue => Replace(s, ForUnbind)
    case RemoveQueue => Replace(s, ForRemove)
    case CloseChannel => Issue(s, Close)
    case End =>
      s.(connection := None, recvQueue := "", tag := "", queueExist := false,
         channel := 0, pending := {}, trace := s.trace + [Exited(s.ec)])
  }

  /** One call of `StateMachine`, with all the calls it makes to itself. */
  function Enter(cfg: Config, s: T): T {
    Act(cfg, Settle(cfg, s))
  }

  // ---------------------------------------------------------------- answers

  /** The state in which an operation is asked for. */
  function StepOf(op: Op): State {
    match op
    case OpenFor(ForSetup) => CreateChannel
    case OpenFor(ForRetry) => RecreateChannel
    case OpenFor(ForUnbind) => UnbindQueue
    case OpenFor(ForRemove) => RemoveQueue
    case Check(_) => CheckQueue
    case Exchange(_) => CreateExchange
    case Declare(_, _) => CreateQueue
    case Bind(_, _, _) => BindQueue
    case Consume(_) => CreateConsumer
    case Subscription => Ready
    case Watch => Ready
    case Cancel(_) => Shutdown
    case Unbind(_, _, _) => UnbindQueue
    case Remove(_) => RemoveQueue
    case Close => CloseChannel
  }

  predicate Accepts(s: T, op: Op, outcome: Outcome) {
    match op
    case Consume(_) => s.state == CreateConsumer || (s.state == Ready && outcome.Fail?)
    case Subscription => (s.state == CreateConsumer || s.state == Ready) && outcome.Fail?
    case Watch => outcome.Fail?
    case Cancel(_) => outcome.Fail? || outcome.name == s.tag
    case Unbind(_, _, _) => true
    case Remove(_) => true
    case Close => true
    case _ => s.state == StepOf(op)
  }

  /** Where an accepted answer leads. */
  function Next(cfg: Config, from: State, op: Op, ok: bool): State {
    match op
    case OpenFor(ForSetup) =>
      if !ok then End else if cfg.listener then CheckQueue else CreateExchange
    case OpenFor(ForRetry) => if ok then CreateExchange else End
    case OpenFor(_) => if ok then from else End
    case Check(_) => if ok then CreateExchange else RecreateChannel
    case Exchange(_) =>
      if !ok then CloseChannel else if cfg.listener then CreateQueue else Ready
    case Declare(_, _) => if ok then BindQueue else CloseChannel
    case Bind(_, _, _) => if ok then CreateConsumer else RemoveQueue
    case Consume(_) => if ok then Ready else if from == CreateConsumer then UnbindQueue else End
    case Subscription => if from == CreateConsumer then UnbindQueue else End
    case Watch => End
    case Cancel(_) => UnbindQueue
    case Unbind(_, _, _) => if ok then CloseChannel else End
    case Remove(_) => if ok then CloseChannel else End
    case Close => End
  }

  /** The exit code a refused operation stands for. */
  function Blame(from: State, op: Op): ExitCode {
    match op
    case OpenFor(_) => CreateChannelError
    case Check(_) => NoError
    case Exchange(_) => CreateExchangeError
    case Declare(_, _) => CreateQueueError
    case Bind(_, _, _) => BindQueueError
    case Consume(_) => if from == CreateConsumer then CreateConsumerError else ChannelAbruptlyClosedError
    case Subscription => if from == CreateConsumer then CreateConsumerError else ChannelAbruptlyClosedError
    case Watch => ChannelAbruptlyClosedError
    case Cancel(_) => ConsumerCancelError
    case Unbind(_, _, _) => UnbindQueueError
    case Remove(_) => RemoveQueueError
    case Close => CloseChannelError
  }

  /** What the object remembers of a refusal: the last requests of a teardown keep an earlier error. */
  function Record(s: T, op: Op, text: string): T {
    if op.Check? then s
    else if op.Unbind? || op.Remove? || op.Close? then
      s.(ec := if s.ec == NoError then Blame(s.state, op) else s.ec,
         error := if s.error == "" then text else s.error)
    else s.(ec := Blame(s.state, op), error := text)
  }

  /** What the object remembers of a success. */
  function Learn(s: T, op: Op, name: string): T {
    match op
    case Check(_) => s.(queueExist := true, recvQueue := name)
    case Declare(_, _) => s.(recvQueue := name)
    case Consume(_) => s.(tag := name)
    case _ => s
  }

  /** The state a callback leaves behind, and whether it goes on to call `StateMachine`. */
  datatype Reaction = Stay(s: T) | Go(s: T)

  function Deliver(cfg: Config, s: T, op: Op, outcome: Outcome): Reaction {
    if !Accepts(s, op, outcome) then Stay(s)
    else if outcome.Fail? then
      Go(Record(s, op, outcome.text).(state := Next(cfg, s.state, op, false)))
    else if op == OpenFor(ForUnbind) then
      Stay(Issue(s, Unbind(cfg.exchange, s.recvQueue, cfg.route)))
    else if op == OpenFor(ForRemove) then
      Stay(Issue(s, Remove(s.recvQueue)))
    else
      Go(Learn(s, op, outcome.name).(state := Next(cfg, s.state, op, true)))
  }

  /** The broker's side of an answer: the request is settled, and a grant is a fact. */
  function Arrive(s: T, r: Request, outcome: Outcome): T {
    s.(pending := s.pending - {r} +
         (if r.op.Consume? && outcome.Ok? then {Request(r.chan, Subscription)} else {}),
       facts := s.facts + Granted(r, outcome))
  }

  function Granted(r: Request, outcome: Outcome): set<Fact> {
    if outcome.Fail? then {}
    else match r.op
      case Exchange(_) => {ExchangeOn(r.chan)}
      case Check(_) => {Found(outcome.name)}
      case Declare(_, _) => {Declared(outcome.name)}
      case Bind(_, q, _) => {BoundOn(r.chan, q)}
      case Consume(q) => {ConsumerOn(r.chan, q, outcome.name)}
      case _ => {}
  }

  // ---------------------------------------------------------------- events

  /** The stop table. `RecreateChannel` is missing from it in C++, and a missing entry reads as state 0. */
  function StopTarget(s: State): State {
    match s
    case CreateChannel => End
    case CreateExchange => CloseChannel
    case CheckQueue => CloseChannel
    case CreateQueue => CloseChannel
    case BindQueue => RemoveQueue
    case CreateConsumer => UnbindQueue
    case Ready => Shutdown
    case _ => CreateChannel
  }

  function React(cfg: Config, s: T, e: Event): Reaction {
    match e
    case Start(c) =>
      if s.state == End
      then Go(s.(connection := c, error := "", ec := NoError, state := CreateChannel,
                 channels := 0, facts := {}, trace := []))
      else Stay(s)
    case Stop =>
      if Rank(s.state) <= Rank(Ready) then Go(s.(state := StopTarget(s.state))) else Stay(s)
    case Drop =>
      if s.state == End then Stay(s)
      else Go(s.(error := "transceiver dropped", ec := Dropped, state := End))
    case Send(route, message, mandatory) =>
      if s.state != Ready then Stay(s)
      else Stay(s.(trace := s.trace + [Published(s.channel, cfg.exchange, route, message, mandatory)]))
    case Incoming(message) =>
      if s.state != Ready then Stay(s)
      else Stay(s.(trace := s.trace + [Delivered(s.channel, message)]))
    case Answer(r, outcome) => Deliver(cfg, Arrive(s, r, outcome), r.op, outcome)
  }

  function Step(cfg: Config, s: T, e: Event): T {
    match React(cfg, s, e)
    case Stay(t) => t
    case Go(t) => Enter(cfg, t)
  }

  // ---------------------------------------------------------------- the broker's side of the bargain

  /** Names and error texts are never empty, and a cancelled consumer is named back. */
  predicate Sensible(op: Op, outcome: Outcome) {
    match outcome
    case Fail(text) => text != ""
    case Ok(name) =>
      && (op.Check? || op.Declare? || op.Consume? ==> name != "")
      && (op.Cancel? ==> name == op.tag)
      && !op.Subscription? && !op.Watch?
  }

  /** An answer settles an outstanding request, once; messages come only to a registered consumer. */
  predicate Enabled(s: T, e: Event) {
    match e
    case Answer(r, outcome) => r in s.pending && Sensible(r.op, outcome)
    case Incoming(_) => Request(s.channel, Subscription) in s.pending
    case _ => true
  }
}
