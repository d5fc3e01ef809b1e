/**
  A run of a transceiver as a script: what it asks for, one request after the
  other, given the answers. There are no states in it, only what comes next; the
  automaton is proved to keep to it, to the last request, channel and exit code.
 */
module TransceiverScript {
  import opened Options
  import opened TransceiverSpec
  import opened TransceiverInvariant
  import opened TransceiverTheorems
  import Broker = TransceiverBroker

  /** What the script goes by: the channel, the queue in hand and whether it was found, the consumer, the error. */
  datatype Props = Props(chan: nat, queue: string, found: bool, tag: string, error: ExitCode)

  function Ask(p: Props, op: Op): seq<Action> {
    [Issued(Request(p.chan, op))]
  }

  /** The channel in hand is closed, and the next one opened. */
  function Swap(p: Props, purpose: Purpose): seq<Action> {
    [Abandoned(p.chan)] + [Issued(Request(p.chan + 1, OpenFor(purpose)))]
  }

  function NextChannel(p: Props): Props {
    p.(chan := p.chan + 1)
  }

  /** An error of the last steps does not replace one there is. */
  function Unless(p: Props, error: ExitCode): ExitCode {
    if p.error == NoError then error else p.error
  }

  // ---------------------------------------------------------------- the way down

  function Closed(p: Props, a: seq<Outcome>): seq<Action> {
    if a == [] then [] else [Exited(if a[0].Fail? then Unless(p, CloseChannelError) else p.error)]
  }

  function Closing(p: Props, a: seq<Outcome>): seq<Action> {
    Ask(p, Close) + Closed(p, a)
  }

  function Removed(p: Props, a: seq<Outcome>): seq<Action> {
    if a == [] then []
    else if a[0].Fail? then [Exited(Unless(p, RemoveQueueError))]
    else Closing(p, a[1..])
  }

  function OpenedToRemove(p: Props, a: seq<Outcome>): seq<Action> {
    if a == [] then []
    else if a[0].Fail? then [Exited(CreateChannelError)]
    else Ask(p, Remove(p.queue)) + Removed(p, a[1..])
  }

  /** A queue the run has declared itself is deleted over a channel of its own. */
  function Removing(p: Props, a: seq<Outcome>): seq<Action> {
    if p.found then Closing(p, a) else Swap(p, ForRemove) + OpenedToRemove(NextChannel(p), a)
  }

  function Unbound(p: Props, a: seq<Outcome>): seq<Action> {
    if a == [] then []
    else if a[0].Fail? then [Exited(Unless(p, UnbindQueueError))]
    else Closing(p, a[1..])
  }

  function OpenedToUnbind(cfg: Config, p: Props, a: seq<Outcome>): seq<Action> {
    if a == [] then []
    else if a[0].Fail? then [Exited(CreateChannelError)]
    else Ask(p, Unbind(cfg.exchange, p.queue, cfg.route)) + Unbound(p, a[1..])
  }

  function Unbinding(cfg: Config, p: Props, a: seq<Outcome>): seq<Action> {
    Swap(p, ForUnbind) + OpenedToUnbind(cfg, NextChannel(p), a)
  }

  function Cancelled(cfg: Config, p: Props, a: seq<Outcome>): seq<Action> {
    if a == [] then []
    else Unbinding(cfg, if a[0].Fail? then p.(error := ConsumerCancelError) else p, a[1..])
  }

  // ---------------------------------------------------------------- the way up

  /** In use, the only thing to hear of is that the channel has failed. */
  function InUse(a: seq<Outcome>): seq<Action> {
    if a == [] then [] else [Exited(ChannelAbruptlyClosedError)]
  }

  function Consumed(cfg: Config, p: Props, a: seq<Outcome>): seq<Action> {
    if a == [] then []
    else if a[0].Fail? then Unbinding(cfg, p.(error := CreateConsumerError), a[1..])
    else InUse(a[1..])
  }

  function Bound(cfg: Config, p: Props, a: seq<Outcome>): seq<Action> {
    if a == [] then []
    else if a[0].Fail? then Removing(p.(error := BindQueueError), a[1..])
    else Ask(p, Consume(p.queue)) + Consumed(cfg, p, a[1..])
  }

  function Binding(cfg: Config, p: Props, a: seq<Outcome>): seq<Action> {
    Ask(p, Bind(cfg.exchange, p.queue, cfg.route)) + Bound(cfg, p, a)
  }

  function QueueMade(cfg: Config, p: Props, a: seq<Outcome>): seq<Action> {
    if a == [] then []
    else if a[0].Fail? then Closing(p.(error := CreateQueueError), a[1..])
    else Binding(cfg, p.(queue := a[0].name), a[1..])
  }

  /** A sender is in use now; a listener declares its queue, unless it was found, and binds it. */
  function ExchangeMade(cfg: Config, p: Props, a: seq<Outcome>): seq<Action> {
    if a == [] then []
    else if a[0].Fail? then Closing(p.(error := CreateExchangeError), a[1..])
    else if !cfg.listener then Ask(p, Watch) + InUse(a[1..])
    else if p.found then Binding(cfg, p, a[1..])
    else Ask(p, Declare(cfg.queue, cfg.queue == "")) + QueueMade(cfg, p, a[1..])
  }

  function MakingExchange(cfg: Config, p: Props, a: seq<Outcome>): seq<Action> {
    Ask(p, Exchange(cfg.exchange)) + ExchangeMade(cfg, p, a)
  }

  function Reopened(cfg: Config, p: Props, a: seq<Outcome>): seq<Action> {
    if a == [] then []
    else if a[0].Fail? then [Exited(CreateChannelError)]
    else MakingExchange(cfg, p, a[1..])
  }

  /** A queue that is not there costs the channel it was asked for on. */
  function Checked(cfg: Config, p: Props, a: seq<Outcome>): seq<Action> {
    if a == [] then []
    else if a[0].Fail? then Swap(p, ForRetry) + Reopened(cfg, NextChannel(p), a[1..])
    else MakingExchange(cfg, p.(queue := a[0].name, found := true), a[1..])
  }

  function Opened(cfg: Config, p: Props, a: seq<Outcome>): seq<Action> {
    if a == [] then []
    else if a[0].Fail? then [Exited(CreateChannelError)]
    else if cfg.listener && cfg.queue != "" then Ask(p, Check(cfg.queue)) + Checked(cfg, p, a[1..])
    else MakingExchange(cfg, p, a[1..])
  }

  /** A whole run that is left alone. */
  function Script(cfg: Config, connection: Option<nat>, a: seq<Outcome>): seq<Action> {
    if connection.None? then [Exited(CreateChannelError)]
    else
      var p := Props(1, "", false, "", NoError);
      Ask(p, OpenFor(ForSetup)) + Opened(cfg, p, a)
  }

  // ---------------------------------------------------------------- the automaton keeps to it

  function PropsOf(s: T): Props {
    Props(s.channel, s.recvQueue, s.queueExist, s.tag, s.ec)
  }

  /** The request the run waits on, or, in use, the one by which it would hear that its channel has failed. */
  function WaitsOn(cfg: Config, s: T): Op {
    if s.state != Ready then Awaited(cfg, s) else if cfg.listener then Subscription else Watch
  }

  /** Every request is answered when it is waited on. */
  predicate InTurn(cfg: Config, s: T, es: seq<Event>)
    decreases es
  {
    es == [] ||
    (&& s.state != End && es[0].Answer? && es[0].request == Req(s, WaitsOn(cfg, s)) && Enabled(s, es[0])
     && InTurn(cfg, Step(cfg, s, es[0]), es[1..]))
  }

  function Outcomes(es: seq<Event>): seq<Outcome> {
    if es == [] then [] else (if es[0].Answer? then [es[0].outcome] else []) + Outcomes(es[1..])
  }

  /** The rest of the script, from where a run is. */
  function ToCome(cfg: Config, s: T, a: seq<Outcome>): seq<Action> {
    var p := PropsOf(s);
    match s.state
    case CreateChannel => Opened(cfg, p, a)
    case CheckQueue => Checked(cfg, p, a)
    case RecreateChannel => Reopened(cfg, p, a)
    case CreateExchange => ExchangeMade(cfg, p, a)
    case CreateQueue => QueueMade(cfg, p, a)
    case BindQueue => Bound(cfg, p, a)
    case CreateConsumer => Consumed(cfg, p, a)
    case Ready => InUse(a)
    case Shutdown => Cancelled(cfg, p, a)
    case UnbindQueue =>
      if Req(s, OpenFor(ForUnbind)) in s.pending then OpenedToUnbind(cfg, p, a) else Unbound(p, a)
    case RemoveQueue =>
      if Req(s, OpenFor(ForRemove)) in s.pending then OpenedToRemove(p, a) else Removed(p, a)
    case CloseChannel => Closed(p, a)
    case End => []
  }

  /** The script from a state that has just been entered. */
  function FromHere(cfg: Config, t: T, a: seq<Outcome>): seq<Action> {
    var p := PropsOf(t);
    match t.state
    case CheckQueue =>
      if cfg.queue == "" then MakingExchange(cfg, p, a) else Ask(p, Check(cfg.queue)) + Checked(cfg, p, a)
    case RecreateChannel => Swap(p, ForRetry) + Reopened(cfg, NextChannel(p), a)
    case CreateExchange => MakingExchange(cfg, p, a)
    case CreateQueue =>
      if t.queueExist then Binding(cfg, p, a)
      else Ask(p, Declare(cfg.queue, cfg.queue == "")) + QueueMade(cfg, p, a)
    case BindQueue => Binding(cfg, p, a)
    case CreateConsumer => Ask(p, Consume(t.recvQueue)) + Consumed(cfg, p, a)
    case Ready => (if cfg.listener then [] else Ask(p, Watch)) + InUse(a)
    case Shutdown =>
      if cfg.listener then Ask(p, Cancel(t.tag)) + Cancelled(cfg, p, a) else Closing(p, a)
    case UnbindQueue => Unbinding(cfg, p, a)
    case RemoveQueue => Removing(p, a)
    case CloseChannel => Closing(p, a)
    case End => [Exited(t.ec)]
    case CreateChannel =>
      var q := Props(t.channels + 1, "", false, "", t.ec);
      Ask(q, OpenFor(ForSetup)) + Opened(cfg, q, a)
  }

  lemma EnterFollows(cfg: Config, t: T, a: seq<Outcome>)
    requires Entering(cfg, t) && (t.state == CreateChannel ==> t.connection.Some?)
    ensures var u := Enter(cfg, t);
      Broker.News(cfg, Settle(cfg, t)) + ToCome(cfg, u, a) == FromHere(cfg, t, a)
  {
    hide Opened, Checked, Reopened, ExchangeMade, QueueMade, Bound, Consumed, InUse, Cancelled, OpenedToUnbind,
         Unbound, OpenedToRemove, Removed, Closed;
  }

  /** What an answer does before `StateMachine` is called, if it is. */
  ghost predicate Follows(cfg: Config, s: T, r: Reaction, o: Outcome, a: seq<Outcome>) {
    match r
    case Go(t) => t.trace == s.trace && FromHere(cfg, t, a) == ToCome(cfg, s, [o] + a)
    case Stay(t) => t.trace + ToCome(cfg, t, a) == s.trace + ToCome(cfg, s, [o] + a)
  }

  lemma ChannelFollows(cfg: Config, s: T, o: Outcome, a: seq<Outcome>)
    requires Shape(cfg, s) && Codes(cfg, s) && (s.state == CreateChannel || s.state == RecreateChannel)
    requires Enabled(s, Answer(Req(s, WaitsOn(cfg, s)), o))
    ensures Follows(cfg, s, React(cfg, s, Answer(Req(s, WaitsOn(cfg, s)), o)), o, a)
  {
    assert ([o] + a)[1..] == a;
    WhoAnswers(cfg, s, Req(s, WaitsOn(cfg, s)));
    hide Removing, Unbinding, Closing, Binding, Granted, Leftover, InUse, ExchangeMade, Reopened, Checked, QueueMade;
  }

  lemma ExchangeFollows(cfg: Config, s: T, o: Outcome, a: seq<Outcome>)
    requires Shape(cfg, s) && Codes(cfg, s) && (s.state == CheckQueue || s.state == CreateExchange)
    requires Enabled(s, Answer(Req(s, WaitsOn(cfg, s)), o))
    ensures Follows(cfg, s, React(cfg, s, Answer(Req(s, WaitsOn(cfg, s)), o)), o, a)
  {
    assert ([o] + a)[1..] == a;
    WhoAnswers(cfg, s, Req(s, WaitsOn(cfg, s)));
    hide Removing, Unbinding, Closing, Binding, Granted, Leftover, InUse, Reopened, QueueMade, Consumed;
  }

  lemma DeclareFollows(cfg: Config, s: T, o: Outcome, a: seq<Outcome>)
    requires Shape(cfg, s) && Codes(cfg, s) && s.state == CreateQueue
    requires Enabled(s, Answer(Req(s, WaitsOn(cfg, s)), o))
    ensures Follows(cfg, s, React(cfg, s, Answer(Req(s, WaitsOn(cfg, s)), o)), o, a)
  {
    assert ([o] + a)[1..] == a;
    WhoAnswers(cfg, s, Req(s, WaitsOn(cfg, s)));
    hide Removing, Unbinding, Closing, Granted, Leftover, InUse, Reopened, Consumed, Bound;
  }

  lemma BindFollows(cfg: Config, s: T, o: Outcome, a: seq<Outcome>)
    requires Shape(cfg, s) && Codes(cfg, s) && s.state == BindQueue
    requires Enabled(s, Answer(Req(s, WaitsOn(cfg, s)), o))
    ensures Follows(cfg, s, React(cfg, s, Answer(Req(s, WaitsOn(cfg, s)), o)), o, a)
  {
    assert ([o] + a)[1..] == a;
    WhoAnswers(cfg, s, Req(s, WaitsOn(cfg, s)));
    hide Removing, Unbinding, Closing, Granted, Leftover, InUse, Reopened, Consumed;
  }

  lemma ConsumerFollows(cfg: Config, s: T, o: Outcome, a: seq<Outcome>)
    requires Shape(cfg, s) && Codes(cfg, s) && (s.state == CreateConsumer || s.state == Ready)
    requires Enabled(s, Answer(Req(s, WaitsOn(cfg, s)), o))
    ensures Follows(cfg, s, React(cfg, s, Answer(Req(s, WaitsOn(cfg, s)), o)), o, a)
  {
    assert ([o] + a)[1..] == a;
    WhoAnswers(cfg, s, Req(s, WaitsOn(cfg, s)));
    hide Removing, Unbinding, Closing, Granted, Leftover, Reopened, Binding;
  }

  lemma CloseFollows(cfg: Config, s: T, o: Outcome, a: seq<Outcome>)
    requires Shape(cfg, s) && Codes(cfg, s) && (s.state == Shutdown || s.state == CloseChannel)
    requires Enabled(s, Answer(Req(s, WaitsOn(cfg, s)), o))
    ensures Follows(cfg, s, React(cfg, s, Answer(Req(s, WaitsOn(cfg, s)), o)), o, a)
  {
    assert ([o] + a)[1..] == a;
    WhoAnswers(cfg, s, Req(s, WaitsOn(cfg, s)));
    hide Closing, Removing, Granted, Leftover, Unbinding, Binding;
  }

  lemma UnbindFollows(cfg: Config, s: T, o: Outcome, a: seq<Outcome>)
    requires Shape(cfg, s) && Codes(cfg, s) && s.state == UnbindQueue
    requires Enabled(s, Answer(Req(s, WaitsOn(cfg, s)), o))
    ensures Follows(cfg, s, React(cfg, s, Answer(Req(s, WaitsOn(cfg, s)), o)), o, a)
  {
    assert ([o] + a)[1..] == a;
    WhoAnswers(cfg, s, Req(s, WaitsOn(cfg, s)));
    hide Closing, Removing, Granted, Leftover, Unbinding, Binding;
  }

  lemma RemoveFollows(cfg: Config, s: T, o: Outcome, a: seq<Outcome>)
    requires Shape(cfg, s) && Codes(cfg, s) && s.state == RemoveQueue
    requires Enabled(s, Answer(Req(s, WaitsOn(cfg, s)), o))
    ensures Follows(cfg, s, React(cfg, s, Answer(Req(s, WaitsOn(cfg, s)), o)), o, a)
  {
    assert ([o] + a)[1..] == a;
    WhoAnswers(cfg, s, Req(s, WaitsOn(cfg, s)));
    hide Closing, Removing, Granted, Leftover, Unbinding, Binding;
  }

  lemma AnswerFollows(cfg: Config, s: T, o: Outcome, a: seq<Outcome>)
    requires Shape(cfg, s) && Codes(cfg, s) && s.state != End
    requires Enabled(s, Answer(Req(s, WaitsOn(cfg, s)), o))
    ensures Follows(cfg, s, React(cfg, s, Answer(Req(s, WaitsOn(cfg, s)), o)), o, a)
  {
    hide Shape, Codes, Enabled, React, Follows, WaitsOn;
    match s.state
    case CreateChannel => ChannelFollows(cfg, s, o, a);
    case RecreateChannel => ChannelFollows(cfg, s, o, a);
    case CheckQueue => ExchangeFollows(cfg, s, o, a);
    case CreateExchange => ExchangeFollows(cfg, s, o, a);
    case CreateQueue => DeclareFollows(cfg, s, o, a);
    case BindQueue => BindFollows(cfg, s, o, a);
    case CreateConsumer => ConsumerFollows(cfg, s, o, a);
    case Ready => ConsumerFollows(cfg, s, o, a);
    case Shutdown => CloseFollows(cfg, s, o, a);
    case CloseChannel => CloseFollows(cfg, s, o, a);
    case UnbindQueue => UnbindFollows(cfg, s, o, a);
    case RemoveQueue => RemoveFollows(cfg, s, o, a);
    case End =>
  }

  lemma ArrivalFollows(cfg: Config, t: T, a: seq<Outcome>)
    requires Entering(cfg, t) && (t.state == CreateChannel ==> t.connection.Some?)
    ensures Enter(cfg, t).trace + ToCome(cfg, Enter(cfg, t), a) == t.trace + FromHere(cfg, t, a)
  {
    hide Entering, Enter, ToCome, FromHere, Settle, Broker.News;
    EnterFollows(cfg, t, a);
    Broker.EnterAdds(cfg, t);
  }

  lemma AnswersDoNotSetUp(cfg: Config, s: T, e: Event)
    requires Shape(cfg, s) && Enabled(s, e) && e.Answer?
    ensures match React(cfg, s, e) case Stay(_) => true case Go(t) => t.state != CreateChannel
  {
  }

  lemma StepFollows(cfg: Config, s: T, e: Event, a: seq<Outcome>)
    requires Inv(cfg, s) && s.state != End && e.Answer? && e.request == Req(s, WaitsOn(cfg, s)) && Enabled(s, e)
    ensures var t := Step(cfg, s, e); t.trace + ToCome(cfg, t, a) == s.trace + ToCome(cfg, s, [e.outcome] + a)
  {
    hide Shape, Codes, RecordOk, Enabled, React, WaitsOn, ToCome, FromHere, Enter, Entering;
    AnswerFollows(cfg, s, e.outcome, a);
    ReactLands(cfg, s, e);
    AnswersDoNotSetUp(cfg, s, e);
    match React(cfg, s, e)
    case Stay(_) =>
    case Go(t) => ArrivalFollows(cfg, t, a);
  }

  lemma {:induction false} RunFollows(cfg: Config, s: T, es: seq<Event>)
    requires Inv(cfg, s) && InTurn(cfg, s, es)
    ensures Exec(cfg, s, es).trace == s.trace + ToCome(cfg, s, Outcomes(es))
    decreases es
  {
    if es == [] {
      NothingToCome(cfg, s);
    } else {
      hide Step, Inv, Enabled, WaitsOn, ToCome;
      StepKeepsInv(cfg, s, es[0]);
      StepFollows(cfg, s, es[0], Outcomes(es[1..]));
      RunFollows(cfg, Step(cfg, s, es[0]), es[1..]);
    }
  }

  lemma NothingToCome(cfg: Config, s: T)
    ensures ToCome(cfg, s, []) == [] && s.trace + [] == s.trace
  {
  }

  lemma StartFollows(cfg: Config, s: T, connection: Option<nat>, a: seq<Outcome>)
    requires Inv(cfg, s) && s.state == End
    ensures var t := Step(cfg, s, Start(connection));
      t.trace + ToCome(cfg, t, a) == Script(cfg, connection, a)
  {
    hide Opened;
  }

  /**
    A run in which every request is answered when it is waited on, in whatever
    way, asks what the script asks for, on the same channels, in the same order,
    and ends as the script ends.
   */
  lemma KeepsToTheScript(cfg: Config, s: T, connection: Option<nat>, es: seq<Event>)
    requires Inv(cfg, s) && s.state == End && InTurn(cfg, Step(cfg, s, Start(connection)), es)
    ensures Exec(cfg, Step(cfg, s, Start(connection)), es).trace == Script(cfg, connection, Outcomes(es))
  {
    hide Step, Inv, InTurn, Exec, ToCome, Script;
    StartKeepsInv(cfg, s, connection);
    RunFollows(cfg, Step(cfg, s, Start(connection)), es);
    StartFollows(cfg, s, connection, Outcomes(es));
  }

  lemma StartKeepsInv(cfg: Config, s: T, connection: Option<nat>)
    requires Inv(cfg, s)
    ensures Inv(cfg, Step(cfg, s, Start(connection)))
  {
    hide Step, Inv;
    StepKeepsInv(cfg, s, Start(connection));
  }

  // ---------------------------------------------------------------- a stop

  /** What is still to come once a run has been stopped. */
  function StopScript(cfg: Config, s: T, a: seq<Outcome>): seq<Action> {
    var p := PropsOf(s);
    match s.state
    case CreateChannel => [Exited(NoError)]
    case RecreateChannel =>
      var q := Props(s.channel + 1, "", false, "", NoError);
      Ask(q, OpenFor(ForSetup)) + Opened(cfg, q, a)
    case CheckQueue => Closing(p, a)
    case CreateExchange => Closing(p, a)
    case CreateQueue => Closing(p, a)
    case BindQueue => Removing(p, a)
    case CreateConsumer => Unbinding(cfg, p, a)
    case Ready => if cfg.listener then Ask(p, Cancel(s.tag)) + Cancelled(cfg, p, a) else Closing(p, a)
    case _ => ToCome(cfg, s, a)
  }

  lemma StopLeads(cfg: Config, s: T, a: seq<Outcome>)
    requires Codes(cfg, s) && (s.state != End ==> s.connection.Some?)
    requires s.state == CreateChannel || s.state == RecreateChannel ==> s.channel == s.channels
    ensures match React(cfg, s, Stop)
      case Go(t) =>
        t.trace == s.trace && FromHere(cfg, t, a) == StopScript(cfg, s, a)
        && (t.state == CreateChannel ==> t.connection.Some?)
      case Stay(t) => t == s && StopScript(cfg, s, a) == ToCome(cfg, s, a)
  {
    hide Closing, Removing, Unbinding, Cancelled, Opened, Checked, Reopened, ExchangeMade, QueueMade, Bound, Consumed,
         InUse, OpenedToUnbind, Unbound, OpenedToRemove, Removed, Closed, MakingExchange, Binding;
  }

  lemma StopFollows(cfg: Config, s: T, a: seq<Outcome>)
    requires Inv(cfg, s)
    ensures var t := Step(cfg, s, Stop); t.trace + ToCome(cfg, t, a) == s.trace + StopScript(cfg, s, a)
  {
    hide Outstanding, Knowledge, Codes, RecordOk, React, ToCome, FromHere, Enter, Entering, StopScript;
    CallLands(cfg, s, Stop);
    StopLeads(cfg, s, a);
    match React(cfg, s, Stop)
    case Stay(_) =>
    case Go(t) => ArrivalFollows(cfg, t, a);
  }

  /**
    After a stop, at any point of any run, what follows, if every request is
    answered when it is waited on, is what the script has for that point: what has
    been set up is taken down again in the opposite order, and no more than that.
   */
  lemma StopKeepsToTheScript(cfg: Config, s: T, es: seq<Event>)
    requires Inv(cfg, s) && InTurn(cfg, Step(cfg, s, Stop), es)
    ensures Exec(cfg, Step(cfg, s, Stop), es).trace == s.trace + StopScript(cfg, s, Outcomes(es))
  {
    hide Step, Inv, InTurn, Exec, ToCome, StopScript;
    StopKeepsInv(cfg, s);
    RunFollows(cfg, Step(cfg, s, Stop), es);
    StopFollows(cfg, s, Outcomes(es));
  }

  lemma StopKeepsInv(cfg: Config, s: T)
    requires Inv(cfg, s)
    ensures Inv(cfg, Step(cfg, s, Stop))
  {
    hide Step, Inv;
    StepKeepsInv(cfg, s, Stop);
  }
}
