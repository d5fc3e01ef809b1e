/**
  What a run asks of the broker, and what it lets through to the user: messages
  only when the broker has granted what being ready means, and a deletion only
  of the run's own queue.
 */
module TransceiverBroker {
  import opened Options
  import opened TransceiverSpec
  import opened TransceiverInvariant

  // ---------------------------------------------------------------- messages

  /** The broker bound a queue and registered a consumer of it on this channel. */
  predicate Served(facts: set<Fact>, chan: nat) {
    exists f | f in facts :: f.ConsumerOn? && f.chan == chan && BoundOn(chan, f.queue) in facts
  }

  /** What was published or delivered went over a channel with all that being ready takes. */
  predicate Honest(cfg: Config, s: T) {
    forall a | a in s.trace ::
      && (a.Published? ==> ExchangeOn(a.chan) in s.facts && (cfg.listener ==> Served(s.facts, a.chan)))
      && (a.Delivered? ==> ExchangeOn(a.chan) in s.facts && Served(s.facts, a.chan))
  }

  /** What is added to the record on arrival in a state that does not pass through. */
  function News(cfg: Config, u: T): seq<Action> {
    match u.state
    case CreateChannel => [Issued(Request(u.channels + 1, OpenFor(ForSetup)))]
    case RecreateChannel => [Abandoned(u.channel), Issued(Request(u.channels + 1, OpenFor(ForRetry)))]
    case UnbindQueue => [Abandoned(u.channel), Issued(Request(u.channels + 1, OpenFor(ForUnbind)))]
    case RemoveQueue => [Abandoned(u.channel), Issued(Request(u.channels + 1, OpenFor(ForRemove)))]
    case CheckQueue => [Issued(Req(u, Check(cfg.queue)))]
    case CreateExchange => [Issued(Req(u, Exchange(cfg.exchange)))]
    case CreateQueue => [Issued(Req(u, Declare(cfg.queue, cfg.queue == "")))]
    case BindQueue => [Issued(Req(u, Bind(cfg.exchange, u.recvQueue, cfg.route)))]
    case CreateConsumer => [Issued(Req(u, Consume(u.recvQueue)))]
    case Ready => if cfg.listener then [] else [Issued(Req(u, Watch))]
    case Shutdown => [Issued(Req(u, Cancel(u.tag)))]
    case CloseChannel => [Issued(Req(u, Close))]
    case End => [Exited(u.ec)]
  }

  lemma ActAdds(cfg: Config, u: T)
    ensures Act(cfg, u).trace == u.trace + News(cfg, u)
    ensures Act(cfg, u).facts == u.facts
  {
  }

  lemma EnterAdds(cfg: Config, t: T)
    ensures Enter(cfg, t).trace == t.trace + News(cfg, Settle(cfg, t))
    ensures Enter(cfg, t).facts == t.facts
  {
    ActAdds(cfg, Settle(cfg, t));
    hide Act;
  }

  lemma EnterStaysHonest(cfg: Config, t: T)
    requires Honest(cfg, t)
    ensures Honest(cfg, Enter(cfg, t))
  {
    EnterAdds(cfg, t);
    hide Enter, Settle, Served;
  }

  lemma StillServed(facts: set<Fact>, more: set<Fact>, chan: nat)
    requires Served(facts, chan) && facts <= more
    ensures Served(more, chan)
  {
    var f :| f in facts && f.ConsumerOn? && f.chan == chan && BoundOn(chan, f.queue) in facts;
    assert f in more;
  }

  lemma FactsGrow(cfg: Config, s: T, r: Request, outcome: Outcome)
    requires Honest(cfg, s)
    ensures Honest(cfg, Arrive(s, r, outcome))
  {
    hide Served;
    var t := Arrive(s, r, outcome);
    forall chan: nat | Served(s.facts, chan) ensures Served(t.facts, chan) {
      StillServed(s.facts, t.facts, chan);
    }
  }

  lemma DeliverPassesNothing(cfg: Config, s: T, op: Op, outcome: Outcome)
    ensures Deliver(cfg, s, op, outcome).s.facts == s.facts
    ensures forall a | a in Deliver(cfg, s, op, outcome).s.trace :: a in s.trace || a.Issued?
  {
  }

  lemma ReactStaysHonest(cfg: Config, s: T, e: Event)
    requires Shape(cfg, s) && Enabled(s, e) && Honest(cfg, s)
    ensures Honest(cfg, React(cfg, s, e).s)
  {
    if e.Answer? {
      hide Deliver, Arrive;
      FactsGrow(cfg, s, e.request, e.outcome);
      DeliverPassesNothing(cfg, Arrive(s, e.request, e.outcome), e.request.op, e.outcome);
    } else if (e.Incoming? || e.Send?) && s.state == Ready {
      if cfg.listener {
        assert ConsumerOn(s.channel, s.recvQueue, s.tag) in s.facts;
        assert Served(s.facts, s.channel);
      }
    }
  }

  lemma {:induction false} RunStaysHonest(cfg: Config, s: T, es: seq<Event>)
    requires Inv(cfg, s) && Legal(cfg, s, es) && Honest(cfg, s)
    ensures Honest(cfg, Exec(cfg, s, es))
    decreases es
  {
    if es != [] {
      hide React, Enter, Outstanding, Knowledge, Codes, RecordOk;
      StepKeepsInv(cfg, s, es[0]);
      ReactStaysHonest(cfg, s, es[0]);
      match React(cfg, s, es[0]) {
        case Stay(_) =>
        case Go(t) => EnterStaysHonest(cfg, t);
      }
      RunStaysHonest(cfg, Step(cfg, s, es[0]), es[1..]);
    }
  }

  /**
    Whenever the state is ready, the channel in hand is the one on which this run
    was granted its exchange and, for a listener, its binding and the consumer
    whose tag it holds; and all that was ever published or delivered in the run
    went over a channel of which the same is true.
   */
  lemma ReadyMeaning(cfg: Config, es: seq<Event>)
    requires Legal(cfg, FRESH, es)
    ensures var t := Exec(cfg, FRESH, es);
      && (t.state == Ready ==> ReadyMeans(cfg, t))
      && Honest(cfg, t)
  {
    ReachableInv(cfg, es);
    RunStaysHonest(cfg, FRESH, es);
  }

  // ---------------------------------------------------------------- deletions

  predicate AskedBind(trace: seq<Action>) {
    exists a | a in trace :: a.Issued? && a.request.op.Bind?
  }

  predicate AskedConsume(trace: seq<Action>) {
    exists a | a in trace :: a.Issued? && a.request.op.Consume?
  }

  predicate AskedRemove(trace: seq<Action>) {
    exists a | a in trace :: a.Issued? && a.request.op.Remove?
  }

  /** All that was asked on a channel is to open it for a deletion, to delete this queue, and to close. */
  predicate OnlyRemoves(trace: seq<Action>, chan: nat, queue: string) {
    forall a | a in trace && a.Issued? && a.request.chan == chan ::
      a.request.op == OpenFor(ForRemove) || a.request.op == Remove(queue) || a.request.op == Close
  }

  /** Every deletion is of a queue this run declared and did not find, on a channel opened for it alone. */
  ghost predicate RemovesItsOwn(s: T) {
    forall a | a in s.trace && a.Issued? && a.request.op.Remove? ::
      && Declared(a.request.op.queue) in s.facts
      && NothingFound(s.facts)
      && OnlyRemoves(s.trace, a.request.chan, a.request.op.queue)
  }

  predicate InRange(s: T) {
    forall a | a in s.trace && a.Issued? :: 1 <= a.request.chan <= s.channels
  }

  /** The binding was asked for, no consumer was, and the queue had not been found: the one case that deletes. */
  ghost predicate OughtToRemove(s: T) {
    AskedBind(s.trace) && !AskedConsume(s.trace) && NothingFound(s.facts)
  }

  ghost predicate Ownership(cfg: Config, s: T) {
    match s.state
       case BindQueue => !AskedConsume(s.trace) && !AskedRemove(s.trace) && AskedBind(s.trace)
       case CreateConsumer => AskedConsume(s.trace) && !AskedRemove(s.trace)
       case Ready => !AskedRemove(s.trace) && if cfg.listener then AskedConsume(s.trace) else !AskedBind(s.trace)
       case Shutdown => AskedConsume(s.trace) && !AskedRemove(s.trace)
       case UnbindQueue => AskedConsume(s.trace) && !AskedRemove(s.trace)
       case RemoveQueue =>
         && AskedBind(s.trace) && !AskedConsume(s.trace)
         && OnlyRemoves(s.trace, s.channel, s.recvQueue)
         && (AskedRemove(s.trace) <==> Req(s, OpenFor(ForRemove)) !in s.pending)
       case CloseChannel =>
         && (AskedRemove(s.trace) ==> !AskedConsume(s.trace) && AskedBind(s.trace) && s.pending == {Req(s, Close)})
         && (OughtToRemove(s) ==> AskedRemove(s.trace))
       case End =>
         && (AskedRemove(s.trace) ==> !AskedConsume(s.trace) && AskedBind(s.trace))
         && (OughtToRemove(s) && s.ec != Dropped && s.ec != CreateChannelError ==> AskedRemove(s.trace))
       case _ => !AskedBind(s.trace) && !AskedConsume(s.trace) && !AskedRemove(s.trace)
  }

  ghost predicate EnteringOwnership(cfg: Config, s: T) {
    match s.state
       case CreateConsumer => AskedBind(s.trace) && !AskedConsume(s.trace) && !AskedRemove(s.trace)
       case Ready => !AskedRemove(s.trace) && if cfg.listener then AskedConsume(s.trace) else !AskedBind(s.trace)
       case Shutdown => !AskedRemove(s.trace) && if cfg.listener then AskedConsume(s.trace) else !AskedBind(s.trace)
       case UnbindQueue => AskedConsume(s.trace) && !AskedRemove(s.trace)
       case RemoveQueue => AskedBind(s.trace) && !AskedConsume(s.trace) && !AskedRemove(s.trace)
       case CloseChannel =>
         && (AskedRemove(s.trace) ==> !AskedConsume(s.trace) && AskedBind(s.trace) && s.pending == {})
         && (OughtToRemove(s) ==> AskedRemove(s.trace))
       case End =>
         && (AskedRemove(s.trace) ==> !AskedConsume(s.trace) && AskedBind(s.trace))
         && (OughtToRemove(s) && s.ec != Dropped && s.ec != CreateChannelError ==> AskedRemove(s.trace))
       case _ => !AskedBind(s.trace) && !AskedConsume(s.trace) && !AskedRemove(s.trace)
  }

  lemma Joined(xs: seq<Action>, ys: seq<Action>)
    ensures AskedBind(xs + ys) <==> AskedBind(xs) || AskedBind(ys)
    ensures AskedConsume(xs + ys) <==> AskedConsume(xs) || AskedConsume(ys)
    ensures AskedRemove(xs + ys) <==> AskedRemove(xs) || AskedRemove(ys)
  {
    forall a ensures a in xs + ys <==> a in xs || a in ys {}
  }

  lemma NewsAsks(cfg: Config, u: T)
    ensures AskedBind(News(cfg, u)) <==> u.state == BindQueue
    ensures AskedConsume(News(cfg, u)) <==> u.state == CreateConsumer
    ensures !AskedRemove(News(cfg, u))
  {
    if u.state == BindQueue {
      assert News(cfg, u)[0] in News(cfg, u);
    } else if u.state == CreateConsumer {
      assert News(cfg, u)[0] in News(cfg, u);
    }
  }

  lemma EnterAsks(cfg: Config, t: T)
    ensures var u := Enter(cfg, t);
      && (AskedBind(u.trace) <==> AskedBind(t.trace) || Settle(cfg, t).state == BindQueue)
      && (AskedConsume(u.trace) <==> AskedConsume(t.trace) || Settle(cfg, t).state == CreateConsumer)
      && (AskedRemove(u.trace) <==> AskedRemove(t.trace))
      && u.facts == t.facts
  {
    hide Enter, Settle, News, AskedBind, AskedConsume, AskedRemove;
    EnterAdds(cfg, t);
    Joined(t.trace, News(cfg, Settle(cfg, t)));
    NewsAsks(cfg, Settle(cfg, t));
  }

  lemma EnterOwns(cfg: Config, t: T)
    requires Entering(cfg, t) && EnteringOwnership(cfg, t) && t.state != RemoveQueue
    ensures Ownership(cfg, Enter(cfg, t))
  {
    hide AskedBind, AskedConsume, AskedRemove, OnlyRemoves;
    EnterAsks(cfg, t);
  }

  /** Replacing the channel for a deletion: the new one has been asked for nothing but to open. */
  lemma EnterRemoveOwns(cfg: Config, t: T)
    requires Entering(cfg, t) && EnteringOwnership(cfg, t) && InRange(t) && t.state == RemoveQueue
    ensures Ownership(cfg, Enter(cfg, t))
  {
    EnterAsks(cfg, t);
    if !t.queueExist {
      hide AskedBind, AskedConsume, AskedRemove, EnteringOwnership;
      var u := Enter(cfg, t);
      assert OnlyRemoves(t.trace, u.channel, u.recvQueue);
      assert OnlyRemoves(u.trace, u.channel, u.recvQueue);
    } else {
      hide AskedBind, AskedConsume, AskedRemove, OnlyRemoves;
      assert Found(t.recvQueue) in t.facts;
    }
  }

  lemma SettleKeepsChannel(cfg: Config, t: T)
    ensures Settle(cfg, t).channel == t.channel && Settle(cfg, t).channels == t.channels
    ensures Settle(cfg, t).state == CreateChannel ==> t.state == CreateChannel
    ensures t.state == CreateChannel && Settle(cfg, t).state != CreateChannel ==> Settle(cfg, t).state == End
    ensures t.state == End ==> Settle(cfg, t).state == End
  {
  }

  lemma NewsInRange(cfg: Config, u: T)
    requires u.state != CreateChannel && u.state != End ==> u.channel == u.channels > 0
    ensures Act(cfg, u).channels >= u.channels
    ensures forall a | a in News(cfg, u) && a.Issued? :: 1 <= a.request.chan <= Act(cfg, u).channels
  {
  }

  lemma EnterStaysInRange(cfg: Config, t: T)
    requires InRange(t) && (t.state != CreateChannel && t.state != End ==> t.channel == t.channels > 0)
    ensures InRange(Enter(cfg, t))
  {
    hide Act, Settle, News;
    EnterAdds(cfg, t);
    SettleKeepsChannel(cfg, t);
    NewsInRange(cfg, Settle(cfg, t));
  }

  lemma EnterRemovesItsOwn(cfg: Config, t: T)
    requires RemovesItsOwn(t) && (AskedRemove(t.trace) ==> t.state == CloseChannel || t.state == End)
    ensures RemovesItsOwn(Enter(cfg, t))
  {
    hide Enter;
    EnterAsks(cfg, t);
    if AskedRemove(t.trace) { EnterAtTheEnd(cfg, t); }
  }

  lemma EnterAtTheEnd(cfg: Config, t: T)
    requires t.state == CloseChannel || t.state == End
    ensures Enter(cfg, t).trace == t.trace + (if t.state == End then [Exited(t.ec)] else [Issued(Req(t, Close))])
    ensures Enter(cfg, t).facts == t.facts
  {
  }

  // What an event does before `StateMachine` is called.

  lemma MessageAsksNothing(trace: seq<Action>, a: Action)
    requires a.Published? || a.Delivered?
    ensures AskedBind(trace + [a]) == AskedBind(trace)
    ensures AskedConsume(trace + [a]) == AskedConsume(trace)
    ensures AskedRemove(trace + [a]) == AskedRemove(trace)
  {
    Joined(trace, [a]);
  }

  lemma NothingAskedYet()
    ensures !AskedBind([]) && !AskedConsume([]) && !AskedRemove([])
  {
  }

  ghost predicate Owns(cfg: Config, s: T) {
    Ownership(cfg, s) && InRange(s) && RemovesItsOwn(s)
  }

  ghost predicate LandsOwning(cfg: Config, r: Reaction) {
    && InRange(r.s) && RemovesItsOwn(r.s)
    && match r case Stay(t) => Ownership(cfg, t) case Go(t) => EnteringOwnership(cfg, t)
  }

  lemma CallOwns(cfg: Config, s: T, e: Event)
    requires Shape(cfg, s) && Ownership(cfg, s) && !e.Answer?
    ensures match React(cfg, s, e) case Stay(t) => Ownership(cfg, t) case Go(t) => EnteringOwnership(cfg, t)
  {
    hide AskedBind, AskedConsume, AskedRemove, OnlyRemoves;
    NothingAskedYet();
    match e
    case Send(route, m, mandatory) =>
      MessageAsksNothing(s.trace, Published(s.channel, cfg.exchange, route, m, mandatory));
    case Incoming(m) =>
      MessageAsksNothing(s.trace, Delivered(s.channel, m));
    case _ =>
  }

  lemma CallKeepsTheRest(cfg: Config, s: T, e: Event)
    requires InRange(s) && RemovesItsOwn(s) && !e.Answer?
    ensures InRange(React(cfg, s, e).s) && RemovesItsOwn(React(cfg, s, e).s)
  {
    var t := React(cfg, s, e).s;
    assert t.trace == [] || (t.channels == s.channels && t.facts == s.facts);
    assert forall a: Action | a in t.trace :: a in s.trace || !a.Issued?;
    hide React;
  }

  lemma SetupAnswerOwns(cfg: Config, s: T, r: Request, outcome: Outcome)
    requires Shape(cfg, s) && Ownership(cfg, s) && Enabled(s, Answer(r, outcome)) && Rank(s.state) < Rank(Ready)
    ensures match React(cfg, s, Answer(r, outcome))
      case Stay(_) => false case Go(t) => EnteringOwnership(cfg, t) && t.trace == s.trace
  {
    hide AskedBind, AskedConsume, AskedRemove, OnlyRemoves;
    WhoAnswers(cfg, s, r);
  }

  lemma RemovalIsAsked(cfg: Config, s: T, t: T)
    requires s.state == RemoveQueue && Shape(cfg, s) && Ownership(cfg, s) && RemovesItsOwn(s) && InRange(s)
    requires Req(s, OpenFor(ForRemove)) in s.pending
    requires t == s.(pending := {Req(s, Remove(s.recvQueue))},
                     trace := s.trace + [Issued(Req(s, Remove(s.recvQueue)))])
    ensures Owns(cfg, t)
  {
    var a := Issued(Req(s, Remove(s.recvQueue)));
    Joined(s.trace, [a]);
    assert a in t.trace;
    hide AskedBind, AskedConsume;
  }

  lemma UnbindAsksNothingElse(trace: seq<Action>, r: Request)
    requires r.op.Unbind?
    ensures AskedConsume(trace) ==> AskedConsume(trace + [Issued(r)])
    ensures AskedRemove(trace + [Issued(r)]) == AskedRemove(trace)
  {
    Joined(trace, [Issued(r)]);
  }

  lemma UpAnswerOwns(cfg: Config, s: T, r: Request, outcome: Outcome)
    requires Shape(cfg, s) && Ownership(cfg, s) && Enabled(s, Answer(r, outcome))
    requires s.state == Ready || s.state == Shutdown
    ensures match React(cfg, s, Answer(r, outcome))
      case Stay(t) => Ownership(cfg, t) case Go(t) => EnteringOwnership(cfg, t)
  {
    hide AskedBind, AskedConsume, AskedRemove, OnlyRemoves;
    WhoAnswers(cfg, s, r);
  }

  lemma QueueAnswerOwns(cfg: Config, s: T, r: Request, outcome: Outcome)
    requires Shape(cfg, s) && Ownership(cfg, s) && Enabled(s, Answer(r, outcome))
    requires s.state == UnbindQueue || (s.state == RemoveQueue && r.op != OpenFor(ForRemove))
    ensures match React(cfg, s, Answer(r, outcome))
      case Stay(t) => Ownership(cfg, t) case Go(t) => EnteringOwnership(cfg, t)
  {
    hide AskedBind, AskedConsume, AskedRemove, OnlyRemoves;
    WhoAnswers(cfg, s, r);
    UnbindAsksNothingElse(s.trace, Req(s, Unbind(cfg.exchange, s.recvQueue, cfg.route)));
  }

  lemma CloseAnswerOwns(cfg: Config, s: T, r: Request, outcome: Outcome)
    requires Shape(cfg, s) && Ownership(cfg, s) && Enabled(s, Answer(r, outcome)) && s.state == CloseChannel
    ensures match React(cfg, s, Answer(r, outcome))
      case Stay(t) => Ownership(cfg, t) case Go(t) => EnteringOwnership(cfg, t)
  {
    hide AskedBind, AskedConsume, AskedRemove, OnlyRemoves, Knowledge;
    WhoAnswers(cfg, s, r);
  }

  lemma TeardownAnswerOwns(cfg: Config, s: T, r: Request, outcome: Outcome)
    requires Shape(cfg, s) && Ownership(cfg, s) && Enabled(s, Answer(r, outcome))
    requires Rank(s.state) >= Rank(Ready) && r.op != OpenFor(ForRemove)
    ensures match React(cfg, s, Answer(r, outcome))
      case Stay(t) => Ownership(cfg, t) case Go(t) => EnteringOwnership(cfg, t)
  {
    hide React, Ownership, EnteringOwnership, Knowledge;
    if s.state == Ready || s.state == Shutdown {
      UpAnswerOwns(cfg, s, r, outcome);
    } else if s.state == CloseChannel {
      CloseAnswerOwns(cfg, s, r, outcome);
    } else {
      QueueAnswerOwns(cfg, s, r, outcome);
    }
  }

  /** Once a deletion has been asked for, the run asks only to close, and finds no queue any more. */
  lemma AfterRemoval(cfg: Config, s: T, r: Request, outcome: Outcome)
    requires Shape(cfg, s) && Ownership(cfg, s) && r in s.pending && AskedRemove(s.trace)
    ensures React(cfg, s, Answer(r, outcome)).s.trace == s.trace
    ensures React(cfg, s, Answer(r, outcome)).s.facts == s.facts
    ensures React(cfg, s, Answer(r, outcome)).s.channels == s.channels
  {
    hide AskedBind, AskedConsume, AskedRemove, OnlyRemoves;
    WhoAnswers(cfg, s, r);
  }

  lemma BeforeRemoval(cfg: Config, s: T, r: Request, outcome: Outcome)
    requires Shape(cfg, s) && Enabled(s, Answer(r, outcome)) && (r.op == OpenFor(ForRemove) ==> outcome.Fail?)
    ensures var t := React(cfg, s, Answer(r, outcome)).s;
      && t.channels == s.channels
      && (t.trace == s.trace ||
          t.trace == s.trace + [Issued(Req(s, Unbind(cfg.exchange, s.recvQueue, cfg.route)))])
  {
    hide Knowledge;
    WhoAnswers(cfg, s, r);
  }

  lemma RemovalAnswer(cfg: Config, s: T, name: string)
    requires Shape(cfg, s) && Req(s, OpenFor(ForRemove)) in s.pending
    ensures s.state == RemoveQueue
    ensures React(cfg, s, Answer(Req(s, OpenFor(ForRemove)), Ok(name))) ==
            Stay(s.(pending := {Req(s, Remove(s.recvQueue))},
                    trace := s.trace + [Issued(Req(s, Remove(s.recvQueue)))]))
  {
    var r := Req(s, OpenFor(ForRemove));
    WhoAnswers(cfg, s, r);
    assert s.pending - {r} + {} + {Req(s, Remove(s.recvQueue))} == {Req(s, Remove(s.recvQueue))};
    assert s.facts + {} == s.facts;
  }

  lemma AnswerOwns(cfg: Config, s: T, r: Request, outcome: Outcome)
    requires Shape(cfg, s) && Owns(cfg, s) && Enabled(s, Answer(r, outcome))
    ensures LandsOwning(cfg, React(cfg, s, Answer(r, outcome)))
  {
    hide React, Ownership, EnteringOwnership, OnlyRemoves, Outstanding, Knowledge, AskedBind, AskedConsume;
    WhoAnswers(cfg, s, r);
    if r.op == OpenFor(ForRemove) && outcome.Ok? {
      RemovalAnswer(cfg, s, outcome.name);
      RemovalIsAsked(cfg, s, React(cfg, s, Answer(r, outcome)).s);
    } else {
      if Rank(s.state) < Rank(Ready) {
        SetupAnswerOwns(cfg, s, r, outcome);
      } else if r.op == OpenFor(ForRemove) {
        RemovalRefused(cfg, s, r, outcome);
      } else {
        TeardownAnswerOwns(cfg, s, r, outcome);
      }
      BeforeRemoval(cfg, s, r, outcome);
      if AskedRemove(s.trace) {
        AfterRemoval(cfg, s, r, outcome);
      }
    }
  }

  lemma RemovalRefused(cfg: Config, s: T, r: Request, outcome: Outcome)
    requires Shape(cfg, s) && Ownership(cfg, s) && r in s.pending && r.op == OpenFor(ForRemove) && outcome.Fail?
    ensures match React(cfg, s, Answer(r, outcome)) case Stay(_) => false case Go(t) => EnteringOwnership(cfg, t)
  {
    hide AskedBind, AskedConsume, AskedRemove, OnlyRemoves;
    WhoAnswers(cfg, s, r);
  }

  lemma StepOwns(cfg: Config, s: T, e: Event)
    requires Inv(cfg, s) && Owns(cfg, s) && Enabled(s, e)
    ensures Owns(cfg, Step(cfg, s, e))
  {
    hide React, Enter, Ownership, EnteringOwnership, OnlyRemoves, Outstanding, Knowledge, Codes, RecordOk;
    hide InRange, RemovesItsOwn, AskedBind, AskedConsume, AskedRemove;
    ReactLands(cfg, s, e);
    if e.Answer? {
      AnswerOwns(cfg, s, e.request, e.outcome);
    } else {
      CallOwns(cfg, s, e);
      CallKeepsTheRest(cfg, s, e);
    }
    match React(cfg, s, e)
    case Stay(_) =>
    case Go(t) =>
      RemovalsAreLast(cfg, t);
      EnterStaysInRange(cfg, t);
      EnterRemovesItsOwn(cfg, t);
      if t.state == RemoveQueue { EnterRemoveOwns(cfg, t); } else { EnterOwns(cfg, t); }
  }

  lemma RemovalsAreLast(cfg: Config, t: T)
    requires EnteringOwnership(cfg, t)
    ensures AskedRemove(t.trace) ==> t.state == CloseChannel || t.state == End
  {
    hide AskedRemove, AskedBind, AskedConsume;
  }

  lemma {:induction false} RunOwns(cfg: Config, s: T, es: seq<Event>)
    requires Inv(cfg, s) && Legal(cfg, s, es) && Owns(cfg, s)
    ensures Owns(cfg, Exec(cfg, s, es))
    decreases es
  {
    if es != [] {
      hide Step, Inv, Owns;
      StepKeepsInv(cfg, s, es[0]);
      StepOwns(cfg, s, es[0]);
      RunOwns(cfg, Step(cfg, s, es[0]), es[1..]);
    }
  }

  /**
    A deletion is asked for only for a queue this run declared and the passive
    check did not find, after a binding was asked for and before any consumer
    was, and on a channel used for nothing else.
   */
  lemma DeletesOnlyItsOwn(cfg: Config, es: seq<Event>)
    requires Legal(cfg, FRESH, es)
    ensures var t := Exec(cfg, FRESH, es);
      && RemovesItsOwn(t)
      && (AskedRemove(t.trace) ==> AskedBind(t.trace) && !AskedConsume(t.trace))
  {
    FreshOwns(cfg);
    RunOwns(cfg, FRESH, es);
    hide AskedBind, AskedConsume, AskedRemove;
  }

  lemma FreshOwns(cfg: Config)
    ensures Owns(cfg, FRESH)
  {
  }

  /**
    Exactly when a finished run has asked for a deletion. The documentation
    promises an attempt to delete the queue after any error; a run that got as
    far as asking for a consumer never makes one.
   */
  lemma DeletesExactlyAtTheBinding(cfg: Config, es: seq<Event>)
    requires Legal(cfg, FRESH, es)
    ensures var t := Exec(cfg, FRESH, es);
      t.state == End && t.ec != Dropped && t.ec != CreateChannelError ==>
        (AskedRemove(t.trace) <==> AskedBind(t.trace) && !AskedConsume(t.trace) && NothingFound(t.facts))
  {
    FreshOwns(cfg);
    RunOwns(cfg, FRESH, es);
    var t := Exec(cfg, FRESH, es);
    if AskedRemove(t.trace) {
      var a :| a in t.trace && a.Issued? && a.request.op.Remove?;
    }
    hide AskedBind, AskedConsume;
  }
}
