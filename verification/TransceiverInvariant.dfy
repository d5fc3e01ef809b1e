/**
  Runs of one transceiver, any sequence of calls, answers and messages, and
  `Inv`, which every event of a run keeps.
 */
module TransceiverInvariant {
  import opened Options
  import opened TransceiverSpec

  // ---------------------------------------------------------------- runs

  function Exec(cfg: Config, s: T, es: seq<Event>): T
    decreases es
  {
    if es == [] then s else Exec(cfg, Step(cfg, s, es[0]), es[1..])
  }

  /** Every event of the run is one its surroundings allow at that point. */
  predicate Legal(cfg: Config, s: T, es: seq<Event>)
    decreases es
  {
    es == [] || (Enabled(s, es[0]) && Legal(cfg, Step(cfg, s, es[0]), es[1..]))
  }

  // ---------------------------------------------------------------- the invariant

  function Req(s: T, op: Op): Request {
    Request(s.channel, op)
  }

  /** The requests still owed an answer, state by state. */
  predicate Outstanding(cfg: Config, s: T) {
    match s.state
    case CreateChannel => s.pending == {Req(s, OpenFor(ForSetup))}
    case CheckQueue => s.pending == {Req(s, Check(cfg.queue))}
    case RecreateChannel => s.pending == {Req(s, OpenFor(ForRetry))}
    case CreateExchange => s.pending == {Req(s, Exchange(cfg.exchange))}
    case CreateQueue => s.pending == {Req(s, Declare(cfg.queue, cfg.queue == ""))}
    case BindQueue => s.pending == {Req(s, Bind(cfg.exchange, s.recvQueue, cfg.route))}
    case CreateConsumer => s.pending == {Req(s, Consume(s.recvQueue))}
    case Ready => s.pending == {Req(s, if cfg.listener then Subscription else Watch)}
    case Shutdown =>
      || s.pending == {Req(s, Cancel(s.tag))}
      || s.pending == {Req(s, Cancel(s.tag)), Req(s, Subscription)}
    case UnbindQueue =>
      || s.pending == {Req(s, OpenFor(ForUnbind))}
      || s.pending == {Req(s, Unbind(cfg.exchange, s.recvQueue, cfg.route))}
    case RemoveQueue =>
      || s.pending == {Req(s, OpenFor(ForRemove))}
      || s.pending == {Req(s, Remove(s.recvQueue))}
    case CloseChannel =>
      Req(s, Close) in s.pending && Leftover(cfg, s, s.pending)
    case End => s.pending == {}
  }

  /** What a channel can still owe besides its closing: at most one answer that comes too late. */
  predicate Leftover(cfg: Config, s: T, pending: set<Request>) {
    && (forall r | r in pending ::
          r.chan == s.channel && (r.op == Close || TooLate(cfg, s, r.op)))
    && (forall q, r | q in pending && r in pending && q.op != Close && r.op != Close :: q == r)
  }

  predicate TooLate(cfg: Config, s: T, op: Op) {
    match op
    case Check(q) => q == cfg.queue
    case Exchange(x) => x == cfg.exchange
    case Declare(q, x) => q == cfg.queue && x == (cfg.queue == "")
    case Bind(x, q, r) => x == cfg.exchange && q == s.recvQueue && r == cfg.route
    case Watch => !cfg.listener
    case _ => false
  }

  ghost predicate NothingFound(facts: set<Fact>) {
    forall f | f in facts :: !f.Found?
  }

  /** The queue in hand was either found by the passive check, or declared by this run and not found. */
  ghost predicate QueueInHand(s: T) {
    && s.recvQueue != ""
    && if s.queueExist then Found(s.recvQueue) in s.facts
       else Declared(s.recvQueue) in s.facts && NothingFound(s.facts)
  }

  /** What the transceiver knows, against what the broker has granted. */
  ghost predicate Knowledge(cfg: Config, s: T) {
    match s.state
    case CreateChannel => s.recvQueue == s.tag == "" && !s.queueExist && s.facts == {}
    case CheckQueue =>
      cfg.listener && cfg.queue != "" && s.recvQueue == s.tag == "" && !s.queueExist && s.facts == {}
    case RecreateChannel =>
      cfg.listener && cfg.queue != "" && s.recvQueue == s.tag == "" && !s.queueExist && s.facts == {}
    case CreateExchange =>
      && s.tag == ""
      && if s.queueExist then cfg.listener && QueueInHand(s)
         else s.recvQueue == "" && NothingFound(s.facts)
    case CreateQueue =>
      && cfg.listener && !s.queueExist && s.recvQueue == s.tag == ""
      && NothingFound(s.facts) && ExchangeOn(s.channel) in s.facts
    case BindQueue =>
      cfg.listener && s.tag == "" && QueueInHand(s) && ExchangeOn(s.channel) in s.facts
    case CreateConsumer =>
      && cfg.listener && s.tag == "" && QueueInHand(s) && ExchangeOn(s.channel) in s.facts
      && BoundOn(s.channel, s.recvQueue) in s.facts
    case Ready => ReadyMeans(cfg, s)
    case Shutdown => cfg.listener && s.tag != "" && s.recvQueue != ""
    case UnbindQueue => cfg.listener && s.recvQueue != ""
    case RemoveQueue => cfg.listener && !s.queueExist && QueueInHand(s)
    case CloseChannel => true
    case End => s.recvQueue == s.tag == "" && !s.queueExist
  }

  /** What being ready promises about the channel in hand. */
  ghost predicate ReadyMeans(cfg: Config, s: T) {
    && s.channel > 0
    && ExchangeOn(s.channel) in s.facts
    && (cfg.listener ==>
          && QueueInHand(s)
          && BoundOn(s.channel, s.recvQueue) in s.facts
          && s.tag != ""
          && ConsumerOn(s.channel, s.recvQueue, s.tag) in s.facts)
  }

  /** The shape of a state: its channel, what it awaits, and what it knows. */
  ghost predicate Shape(cfg: Config, s: T) {
    && Outstanding(cfg, s)
    && Knowledge(cfg, s)
    && if s.state == End then s.connection.None? && s.channel == 0
       else s.connection.Some? && s.channel == s.channels > 0
  }

  /** An error code comes with a text; none is there before a step has failed, nor while only a `Watch` can fail. */
  predicate Codes(cfg: Config, s: T) {
    && (s.ec == NoError <==> s.error == "")
    && (s.state != End ==> s.ec != Dropped)
    && (Rank(s.state) <= Rank(Shutdown) || (s.state == CloseChannel && Req(s, Watch) in s.pending) ==>
          s.ec == NoError)
  }

  predicate NoExit(trace: seq<Action>) {
    forall a | a in trace :: !a.Exited?
  }

  /** The user's exit callback was made once, as the last thing the run did, with this code. */
  predicate ExitedOnce(trace: seq<Action>, code: ExitCode) {
    && |trace| > 0
    && trace[|trace| - 1] == Exited(code)
    && NoExit(trace[..|trace| - 1])
  }

  predicate RecordOk(s: T) {
    if s.state == End then s == FRESH || ExitedOnce(s.trace, s.ec) else NoExit(s.trace)
  }

  ghost predicate Inv(cfg: Config, s: T) {
    Shape(cfg, s) && Codes(cfg, s) && RecordOk(s)
  }

  /** The shape `StateMachine` is always called in, before it passes through any state. */
  ghost predicate Entering(cfg: Config, s: T) {
    && (s.state != CreateChannel && s.state != End ==>
          s.connection.Some? && s.channel == s.channels > 0)
    && match s.state
       case CreateChannel => s.recvQueue == s.tag == "" && !s.queueExist && s.facts == {}
       case CheckQueue =>
         && cfg.listener && s.recvQueue == s.tag == "" && !s.queueExist && s.facts == {}
         && s.pending == {}
       case CreateQueue =>
         && cfg.listener && s.tag == "" && ExchangeOn(s.channel) in s.facts && s.pending == {}
         && if s.queueExist then QueueInHand(s) else s.recvQueue == "" && NothingFound(s.facts)
       case Ready =>
         ReadyMeans(cfg, s) && s.pending == if cfg.listener then {Req(s, Subscription)} else {}
       case Shutdown =>
         if cfg.listener
         then s.tag != "" && s.recvQueue != "" && s.pending == {Req(s, Subscription)}
         else s.pending == {Req(s, Watch)}
       case RemoveQueue =>
         && cfg.listener && QueueInHand(s)
         && Leftover(cfg, s, s.pending)
       case CloseChannel => Leftover(cfg, s, s.pending)
       case End => true
       case UnbindQueue => Knowledge(cfg, s)
       case _ => Knowledge(cfg, s) && s.pending == {}
  }

  // ---------------------------------------------------------------- every event keeps it

  lemma EnterEarly(cfg: Config, s: T)
    requires Entering(cfg, s) && Rank(s.state) <= Rank(Ready)
    ensures Shape(cfg, Enter(cfg, s))
  {
  }

  lemma EnterTeardown(cfg: Config, s: T)
    requires Entering(cfg, s) && (s.state == Shutdown || s.state == UnbindQueue)
    ensures Shape(cfg, Enter(cfg, s))
  {
  }

  lemma EnterLast(cfg: Config, s: T)
    requires Entering(cfg, s) && Rank(s.state) > Rank(UnbindQueue)
    ensures Shape(cfg, Enter(cfg, s))
  {
  }

  lemma EnterCodes(cfg: Config, s: T)
    requires Entering(cfg, s) && Codes(cfg, s)
    ensures Codes(cfg, Enter(cfg, s))
  {
  }

  lemma EnterRecord(cfg: Config, s: T)
    requires NoExit(s.trace)
    ensures RecordOk(Enter(cfg, s))
  {
  }

  /** Who can be answering, state by state. */
  lemma WhoAnswers(cfg: Config, s: T, r: Request)
    requires Shape(cfg, s) && r in s.pending
    ensures r.chan == s.channel
    ensures Rank(s.state) < Rank(Ready) ==>
              s.pending == {r} && StepOf(r.op) == s.state && !r.op.Subscription? && !r.op.Watch?
    ensures match r.op
      case Subscription => s.state == Ready || s.state == Shutdown
      case Watch => s.state == Ready || s.state == CloseChannel
      case OpenFor(_) => s.state == StepOf(r.op)
      case Cancel(_) => s.state == Shutdown
      case Unbind(_, _, _) => s.state == UnbindQueue
      case Remove(_) => s.state == RemoveQueue
      case Close => s.state == CloseChannel
      case _ => s.state == StepOf(r.op) || s.state == CloseChannel
  {
  }

  ghost predicate Lands(cfg: Config, r: Reaction) {
    match r case Stay(t) => Shape(cfg, t) case Go(t) => Entering(cfg, t)
  }

  lemma CallLands(cfg: Config, s: T, e: Event)
    requires Shape(cfg, s) && Enabled(s, e) && !e.Answer?
    ensures Lands(cfg, React(cfg, s, e))
  {
  }

  /** The broker's side of an answer, before the transceiver hears of it. */
  lemma Settled(cfg: Config, s: T, r: Request, outcome: Outcome)
    requires Shape(cfg, s) && r in s.pending && Rank(s.state) < Rank(Ready)
    ensures Arrive(s, r, outcome).pending ==
            if r.op.Consume? && outcome.Ok? then {Req(s, Subscription)} else {}
    ensures outcome.Fail? || r.op.OpenFor? ==> Arrive(s, r, outcome).facts == s.facts
  {
    WhoAnswers(cfg, s, r);
  }

  lemma SetupRefusalLands(cfg: Config, s: T, r: Request, text: string)
    requires Shape(cfg, s) && Enabled(s, Answer(r, Fail(text))) && Rank(s.state) < Rank(Ready)
    ensures Lands(cfg, React(cfg, s, Answer(r, Fail(text))))
  {
    WhoAnswers(cfg, s, r);
    Settled(cfg, s, r, Fail(text));
  }

  lemma EarlyGrantLands(cfg: Config, s: T, r: Request, name: string)
    requires Shape(cfg, s) && Enabled(s, Answer(r, Ok(name))) && Rank(s.state) < Rank(CreateQueue)
    ensures Lands(cfg, React(cfg, s, Answer(r, Ok(name))))
  {
    WhoAnswers(cfg, s, r);
    Settled(cfg, s, r, Ok(name));
  }

  lemma QueueGrantLands(cfg: Config, s: T, r: Request, name: string)
    requires Shape(cfg, s) && Enabled(s, Answer(r, Ok(name)))
    requires Rank(CreateQueue) <= Rank(s.state) < Rank(Ready)
    ensures Lands(cfg, React(cfg, s, Answer(r, Ok(name))))
  {
    WhoAnswers(cfg, s, r);
    Settled(cfg, s, r, Ok(name));
  }

  lemma ConsumerAnswerLands(cfg: Config, s: T, r: Request, outcome: Outcome)
    requires Shape(cfg, s) && Enabled(s, Answer(r, outcome))
    requires s.state == Ready || s.state == Shutdown
    ensures Lands(cfg, React(cfg, s, Answer(r, outcome)))
  {
    WhoAnswers(cfg, s, r);
  }

  lemma TeardownAnswerLands(cfg: Config, s: T, r: Request, outcome: Outcome)
    requires Shape(cfg, s) && Enabled(s, Answer(r, outcome))
    requires s.state == UnbindQueue || s.state == RemoveQueue
    ensures Lands(cfg, React(cfg, s, Answer(r, outcome)))
  {
    WhoAnswers(cfg, s, r);
  }

  lemma CloseAnswerLands(cfg: Config, s: T, r: Request, outcome: Outcome)
    requires Shape(cfg, s) && Enabled(s, Answer(r, outcome)) && s.state == CloseChannel
    ensures Lands(cfg, React(cfg, s, Answer(r, outcome)))
  {
    WhoAnswers(cfg, s, r);
  }

  lemma ReactLands(cfg: Config, s: T, e: Event)
    requires Shape(cfg, s) && Enabled(s, e)
    ensures Lands(cfg, React(cfg, s, e))
  {
    match e
    case Answer(r, outcome) =>
      if s.state == CloseChannel {
        CloseAnswerLands(cfg, s, r, outcome);
      } else if s.state == Ready || s.state == Shutdown {
        ConsumerAnswerLands(cfg, s, r, outcome);
      } else if Rank(Ready) < Rank(s.state) {
        TeardownAnswerLands(cfg, s, r, outcome);
      } else if outcome.Fail? {
        SetupRefusalLands(cfg, s, r, outcome.text);
      } else if Rank(s.state) < Rank(CreateQueue) {
        EarlyGrantLands(cfg, s, r, outcome.name);
      } else {
        QueueGrantLands(cfg, s, r, outcome.name);
      }
    case _ => CallLands(cfg, s, e);
  }

  lemma CallKeepsCodes(cfg: Config, s: T, e: Event)
    requires Shape(cfg, s) && Codes(cfg, s) && Enabled(s, e) && !e.Answer?
    ensures Codes(cfg, React(cfg, s, e).s)
  {
  }

  lemma RefusalKeepsCodes(cfg: Config, s: T, r: Request, text: string)
    requires Shape(cfg, s) && Codes(cfg, s) && Enabled(s, Answer(r, Fail(text)))
    ensures Codes(cfg, React(cfg, s, Answer(r, Fail(text))).s)
  {
    hide Knowledge, Learn, Granted;
    WhoAnswers(cfg, s, r);
  }

  lemma GrantKeepsCodes(cfg: Config, s: T, r: Request, name: string)
    requires Shape(cfg, s) && Codes(cfg, s) && Enabled(s, Answer(r, Ok(name)))
    ensures Codes(cfg, React(cfg, s, Answer(r, Ok(name))).s)
  {
    WhoAnswers(cfg, s, r);
  }

  lemma ReactKeepsCodes(cfg: Config, s: T, e: Event)
    requires Shape(cfg, s) && Codes(cfg, s) && Enabled(s, e)
    ensures Codes(cfg, React(cfg, s, e).s)
  {
    match e
    case Answer(r, Ok(name)) => GrantKeepsCodes(cfg, s, r, name);
    case Answer(r, Fail(text)) => RefusalKeepsCodes(cfg, s, r, text);
    case _ => CallKeepsCodes(cfg, s, e);
  }

  lemma ReactKeepsRecord(cfg: Config, s: T, e: Event)
    requires Shape(cfg, s) && Enabled(s, e) && RecordOk(s)
    ensures match React(cfg, s, e) case Stay(t) => RecordOk(t) case Go(t) => NoExit(t.trace)
  {
  }

  lemma StepKeepsInv(cfg: Config, s: T, e: Event)
    requires Inv(cfg, s) && Enabled(s, e)
    ensures Inv(cfg, Step(cfg, s, e))
  {
    hide React, Enter, Outstanding, Knowledge, Codes, RecordOk;
    ReactLands(cfg, s, e);
    ReactKeepsCodes(cfg, s, e);
    ReactKeepsRecord(cfg, s, e);
    match React(cfg, s, e)
    case Stay(_) =>
    case Go(t) =>
      if Rank(t.state) <= Rank(Ready) {
        EnterEarly(cfg, t);
      } else if Rank(t.state) <= Rank(UnbindQueue) {
        EnterTeardown(cfg, t);
      } else {
        EnterLast(cfg, t);
      }
      EnterCodes(cfg, t);
      EnterRecord(cfg, t);
  }

  lemma {:induction false} RunKeepsInv(cfg: Config, s: T, es: seq<Event>)
    requires Inv(cfg, s) && Legal(cfg, s, es)
    ensures Inv(cfg, Exec(cfg, s, es))
    decreases es
  {
    if es != [] {
      StepKeepsInv(cfg, s, es[0]);
      RunKeepsInv(cfg, Step(cfg, s, es[0]), es[1..]);
    }
  }

  lemma ReachableInv(cfg: Config, es: seq<Event>)
    requires Legal(cfg, FRESH, es)
    ensures Inv(cfg, Exec(cfg, FRESH, es))
  {
    RunKeepsInv(cfg, FRESH, es);
  }
}
