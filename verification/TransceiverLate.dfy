/** Answers that come too late, new starts, transceivers that only send, and branches never taken. */
module TransceiverLate {
  import opened Options
  import opened TransceiverSpec
  import opened TransceiverInvariant
  import opened TransceiverTheorems
  import opened TransceiverBroker

  // ---------------------------------------------------------------- late answers

  /** The operations of the way up, whose callbacks check that their step is still on. */
  predicate Absorbable(op: Op) {
    || op == OpenFor(ForSetup) || op == OpenFor(ForRetry)
    || op.Check? || op.Exchange? || op.Declare? || op.Bind? || op.Consume?
  }

  /** What can happen to a transceiver whose channels are not as tidy as `Enabled` has them. */
  datatype Happening = Due(event: Event) | Stale(request: Request, outcome: Outcome)

  /** A callback made out of turn: the broker's books do not change, the callback runs. */
  function CallBack(cfg: Config, s: T, r: Request, outcome: Outcome): T {
    match Deliver(cfg, s, r.op, outcome)
    case Stay(t) => t
    case Go(t) => Enter(cfg, t)
  }

  function ExecAll(cfg: Config, s: T, hs: seq<Happening>): T
    decreases hs
  {
    if hs == [] then s
    else match hs[0]
      case Due(e) => ExecAll(cfg, Step(cfg, s, e), hs[1..])
      case Stale(r, outcome) => ExecAll(cfg, CallBack(cfg, s, r, outcome), hs[1..])
  }

  /**
    A stale answer is to a request this run did make and that is no longer
    outstanding: answered before, or discarded with its channel. A failing
    consumer callback is that of the subscription as long as the state is ready.
   */
  predicate StaleHere(s: T, r: Request, outcome: Outcome) {
    && Absorbable(r.op)
    && Issued(r) in s.trace && r !in s.pending
    && (r.op.Consume? && outcome.Fail? ==> s.state != Ready)
  }

  predicate LegalAll(cfg: Config, s: T, hs: seq<Happening>)
    decreases hs
  {
    hs == [] ||
    match hs[0]
    case Due(e) =>
      Enabled(s, e) && !StopsWhileRecreating(s, e) && LegalAll(cfg, Step(cfg, s, e), hs[1..])
    case Stale(r, outcome) =>
      StaleHere(s, r, outcome) && LegalAll(cfg, CallBack(cfg, s, r, outcome), hs[1..])
  }

  function DueOnly(hs: seq<Happening>): seq<Event> {
    if hs == [] then []
    else if hs[0].Due? then [hs[0].event] + DueOnly(hs[1..])
    else DueOnly(hs[1..])
  }

  /** Requests of the way up belong to steps already left, or are the one the step in hand waits on. */
  predicate AskedOnce(s: T) {
    forall a | a in s.trace && a.Issued? && Absorbable(a.request.op) ::
      && Rank(StepOf(a.request.op)) <= Rank(s.state)
      && (StepOf(a.request.op) == s.state ==> a.request in s.pending)
  }

  predicate AllLeft(s: T) {
    forall a | a in s.trace && a.Issued? && Absorbable(a.request.op) ::
      Rank(StepOf(a.request.op)) < Rank(s.state)
  }

  lemma ActIsAwaited(cfg: Config, u: T)
    ensures forall a | a in News(cfg, u) && a.Issued? && Absorbable(a.request.op) ::
      StepOf(a.request.op) == u.state && a.request in Act(cfg, u).pending
    ensures Act(cfg, u).state == u.state
  {
  }

  lemma EnterAsksOnce(cfg: Config, t: T)
    requires AllLeft(t)
    ensures AskedOnce(Enter(cfg, t))
  {
    hide Act, News, StepOf;
    EnterAdds(cfg, t);
    ActIsAwaited(cfg, Settle(cfg, t));
    SettleRises(cfg, t);
    hide Settle;
  }

  lemma SettleRises(cfg: Config, t: T)
    ensures Rank(Settle(cfg, t).state) >= Rank(t.state)
  {
  }

  lemma InnerRequestsOnly(cfg: Config, s: T, op: Op, outcome: Outcome)
    ensures var t := Deliver(cfg, s, op, outcome).s;
      forall a | a in t.trace && a.Issued? && Absorbable(a.request.op) :: a in s.trace
  {
  }

  lemma CallAsksOnce(cfg: Config, s: T, e: Event)
    requires AskedOnce(s) && Shape(cfg, s) && !e.Answer? && !StopsWhileRecreating(s, e)
    ensures match React(cfg, s, e) case Stay(t) => AskedOnce(t) case Go(t) => AllLeft(t)
  {
    hide StepOf, Outstanding, Knowledge;
  }

  lemma AnswerAsksOnce(cfg: Config, s: T, r: Request, outcome: Outcome)
    requires AskedOnce(s) && Shape(cfg, s) && Enabled(s, Answer(r, outcome))
    ensures match React(cfg, s, Answer(r, outcome)) case Stay(t) => AskedOnce(t) case Go(t) => AllLeft(t)
  {
    hide Outstanding, Knowledge, Deliver;
    AnswerRises(cfg, s, r, outcome);
    InnerRequestsOnly(cfg, Arrive(s, r, outcome), r.op, outcome);
    if Rank(s.state) < Rank(Ready) {
      SetupAnswersGo(cfg, s, r, outcome);
    } else {
      StepsOfTheWayUp();
    }
    hide StepOf;
  }

  lemma StepsOfTheWayUp()
    ensures forall op | Absorbable(op) :: Rank(StepOf(op)) < Rank(Ready)
  {
  }

  lemma SetupAnswersGo(cfg: Config, s: T, r: Request, outcome: Outcome)
    requires Shape(cfg, s) && r in s.pending && Rank(s.state) < Rank(Ready)
    ensures React(cfg, s, Answer(r, outcome)).Go?
  {
    hide Knowledge;
    WhoAnswers(cfg, s, r);
  }

  lemma StepAsksOnce(cfg: Config, s: T, e: Event)
    requires AskedOnce(s) && Inv(cfg, s) && Enabled(s, e) && !StopsWhileRecreating(s, e)
    ensures AskedOnce(Step(cfg, s, e))
  {
    hide React, Enter, Outstanding, Knowledge, Codes, RecordOk, AskedOnce, AllLeft;
    if e.Answer? { AnswerAsksOnce(cfg, s, e.request, e.outcome); } else { CallAsksOnce(cfg, s, e); }
    match React(cfg, s, e)
    case Stay(_) =>
    case Go(t) => EnterAsksOnce(cfg, t);
  }

  lemma StaleChangesNothing(cfg: Config, s: T, r: Request, outcome: Outcome)
    requires AskedOnce(s) && StaleHere(s, r, outcome)
    ensures CallBack(cfg, s, r, outcome) == s
  {
    assert s.state != StepOf(r.op);
  }

  lemma {:induction false} LateAnswersAreAbsorbedFrom(cfg: Config, s: T, hs: seq<Happening>)
    requires Inv(cfg, s) && AskedOnce(s) && LegalAll(cfg, s, hs)
    ensures ExecAll(cfg, s, hs) == Exec(cfg, s, DueOnly(hs))
    ensures Legal(cfg, s, DueOnly(hs))
    decreases hs
  {
    if hs != [] {
      hide Step, CallBack, Inv, AskedOnce;
      match hs[0] {
        case Due(e) =>
          StepKeepsInv(cfg, s, e);
          StepAsksOnce(cfg, s, e);
          LateAnswersAreAbsorbedFrom(cfg, Step(cfg, s, e), hs[1..]);
          var es := DueOnly(hs[1..]);
          assert ([e] + es)[0] == e && ([e] + es)[1..] == es;
        case Stale(r, outcome) =>
          StaleChangesNothing(cfg, s, r, outcome);
          LateAnswersAreAbsorbedFrom(cfg, s, hs[1..]);
      }
    }
  }

  /**
    Any number of late, repeated or reordered answers to the requests of the way
    up, put anywhere into a history, leave it where it would be without them.
   */
  lemma LateAnswersAreAbsorbed(cfg: Config, hs: seq<Happening>)
    requires LegalAll(cfg, FRESH, hs)
    ensures ExecAll(cfg, FRESH, hs) == Exec(cfg, FRESH, DueOnly(hs))
  {
    LateAnswersAreAbsorbedFrom(cfg, FRESH, hs);
  }

  // ---------------------------------------------------------------- new starts

  /** After any history that has come to an end, a new start goes as it would on a new object. */
  lemma StartsLikeNew(cfg: Config, history: seq<Event>, c: Option<nat>, es: seq<Event>)
    requires Legal(cfg, FRESH, history) && Exec(cfg, FRESH, history).state == End
    ensures Exec(cfg, Exec(cfg, FRESH, history), [Start(c)] + es) == Exec(cfg, FRESH, [Start(c)] + es)
  {
    ReachableInv(cfg, history);
    var s := Exec(cfg, FRESH, history);
    SameStart(cfg, s, c);
    assert ([Start(c)] + es)[0] == Start(c) && ([Start(c)] + es)[1..] == es;
  }

  lemma SameStart(cfg: Config, s: T, c: Option<nat>)
    requires Inv(cfg, s) && s.state == End
    ensures Step(cfg, s, Start(c)) == Step(cfg, FRESH, Start(c))
  {
    assert React(cfg, s, Start(c)) == React(cfg, FRESH, Start(c));
    hide React;
  }

  // ---------------------------------------------------------------- transceivers that only send

  predicate SendingOp(op: Op) {
    op == OpenFor(ForSetup) || op.Exchange? || op == Watch || op == Close
  }

  predicate AsksOnlyToSend(trace: seq<Action>) {
    forall a | a in trace && a.Issued? :: SendingOp(a.request.op)
  }

  lemma EnterOnlySends(cfg: Config, t: T)
    requires !cfg.listener && Entering(cfg, t) && AsksOnlyToSend(t.trace)
    ensures AsksOnlyToSend(Enter(cfg, t).trace)
  {
    EnterAdds(cfg, t);
    assert forall a | a in News(cfg, Settle(cfg, t)) && a.Issued? :: SendingOp(a.request.op);
    hide Enter, Settle, News;
  }

  lemma ReactOnlySends(cfg: Config, s: T, e: Event)
    requires !cfg.listener && Shape(cfg, s) && Enabled(s, e) && AsksOnlyToSend(s.trace)
    ensures AsksOnlyToSend(React(cfg, s, e).s.trace)
  {
    if e.Answer? { WhoAnswers(cfg, s, e.request); }
  }

  lemma {:induction false} RunOnlySends(cfg: Config, s: T, es: seq<Event>)
    requires !cfg.listener && Inv(cfg, s) && Legal(cfg, s, es) && AsksOnlyToSend(s.trace)
    ensures AsksOnlyToSend(Exec(cfg, s, es).trace)
    decreases es
  {
    if es != [] {
      hide React, Enter, Outstanding, Knowledge, Codes, RecordOk, AsksOnlyToSend;
      ReactLands(cfg, s, es[0]);
      ReactOnlySends(cfg, s, es[0]);
      StepKeepsInv(cfg, s, es[0]);
      match React(cfg, s, es[0]) {
        case Stay(_) =>
        case Go(t) => EnterOnlySends(cfg, t);
      }
      RunOnlySends(cfg, Step(cfg, s, es[0]), es[1..]);
    }
  }

  /** A transceiver that is no listener never enters a queue state or asks for anything to do with queues. */
  lemma SendOnlyStaysClear(cfg: Config, es: seq<Event>)
    requires !cfg.listener && Legal(cfg, FRESH, es)
    ensures var t := Exec(cfg, FRESH, es);
      && AsksOnlyToSend(t.trace)
      && t.state in {CreateChannel, CreateExchange, Ready, CloseChannel, End}
  {
    ReachableInv(cfg, es);
    RunOnlySends(cfg, FRESH, es);
  }

  // ---------------------------------------------------------------- branches that are never taken

  /**
    Whenever `StateMachine` is called for a listener that shuts down it has a
    consumer tag, and whenever it is called to unbind there is a queue name.
   */
  lemma FallbacksAreDead(cfg: Config, es: seq<Event>, e: Event)
    requires Legal(cfg, FRESH, es) && Enabled(Exec(cfg, FRESH, es), e)
    ensures match React(cfg, Exec(cfg, FRESH, es), e)
      case Stay(_) => true
      case Go(t) =>
        && (t.state == Shutdown && cfg.listener ==> t.tag != "")
        && (t.state == UnbindQueue ==> t.recvQueue != "")
  {
    ReachableInv(cfg, es);
    ReactLands(cfg, Exec(cfg, FRESH, es), e);
    hide React;
  }
}
