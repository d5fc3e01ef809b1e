/** What holds of every run of one transceiver. */
module TransceiverTheorems {
  import opened Options
  import opened TransceiverSpec
  import opened TransceiverInvariant

  // ---------------------------------------------------------------- order of the states

  /** The one call that the stop table sends backwards. */
  predicate StopsWhileRecreating(s: T, e: Event) {
    e.Stop? && s.state == RecreateChannel
  }

  lemma EnterRises(cfg: Config, t: T)
    ensures Rank(Enter(cfg, t).state) >= Rank(t.state)
    ensures t.state == CreateChannel && t.connection.Some? ==> Enter(cfg, t).state == CreateChannel
  {
  }

  lemma AnswerRises(cfg: Config, s: T, r: Request, outcome: Outcome)
    requires Shape(cfg, s) && r in s.pending
    ensures match React(cfg, s, Answer(r, outcome))
            case Stay(t) => t.state == s.state
            case Go(t) => Rank(t.state) > Rank(s.state)
  {
    WhoAnswers(cfg, s, r);
  }

  lemma CallRises(cfg: Config, s: T, e: Event)
    requires !e.Answer? && !e.Start?
    ensures match React(cfg, s, e)
            case Stay(t) => t.state == s.state
            case Go(t) => if StopsWhileRecreating(s, e) then t.state == CreateChannel && t.connection == s.connection
                          else Rank(t.state) > Rank(s.state)
  {
  }

  /** Every event but that call leaves the state alone or moves it up the enumeration. */
  lemma RankRises(cfg: Config, s: T, e: Event)
    requires Inv(cfg, s) && Enabled(s, e) && !e.Start? && Step(cfg, s, e).state != s.state
    ensures Rank(Step(cfg, s, e).state) > Rank(s.state) <==> !StopsWhileRecreating(s, e)
  {
    hide React, Enter, Outstanding, Knowledge;
    if e.Answer? {
      AnswerRises(cfg, s, e.request, e.outcome);
    } else {
      CallRises(cfg, s, e);
    }
    match React(cfg, s, e)
    case Stay(_) =>
    case Go(t) => EnterRises(cfg, t);
  }

  /** One run, from wherever it is: no new start, and no stop that falls through the table. */
  predicate Forward(cfg: Config, s: T, es: seq<Event>)
    decreases es
  {
    es == [] ||
    (!es[0].Start? && !StopsWhileRecreating(s, es[0]) && Forward(cfg, Step(cfg, s, es[0]), es[1..]))
  }

  lemma {:induction false} RankNeverFalls(cfg: Config, s: T, es: seq<Event>)
    requires Inv(cfg, s) && Legal(cfg, s, es) && Forward(cfg, s, es)
    ensures Rank(Exec(cfg, s, es).state) >= Rank(s.state)
    decreases es
  {
    if es != [] {
      var t := Step(cfg, s, es[0]);
      StepKeepsInv(cfg, s, es[0]);
      if t.state != s.state { RankRises(cfg, s, es[0]); }
      RankNeverFalls(cfg, t, es[1..]);
    }
  }

  lemma {:induction false} ExecSplit(cfg: Config, s: T, xs: seq<Event>, ys: seq<Event>)
    ensures Exec(cfg, s, xs + ys) == Exec(cfg, Exec(cfg, s, xs), ys)
    ensures Legal(cfg, s, xs + ys) <==> Legal(cfg, s, xs) && Legal(cfg, Exec(cfg, s, xs), ys)
    ensures Forward(cfg, s, xs + ys) <==> Forward(cfg, s, xs) && Forward(cfg, Exec(cfg, s, xs), ys)
    decreases xs
  {
    if xs == [] {
      assert xs + ys == ys;
    } else {
      assert (xs + ys)[0] == xs[0] && (xs + ys)[1..] == xs[1..] + ys;
      ExecSplit(cfg, Step(cfg, s, xs[0]), xs[1..], ys);
    }
  }

  /** A state once left is not seen again in the run. */
  lemma NeverReentered(cfg: Config, s: T, xs: seq<Event>, ys: seq<Event>)
    requires Inv(cfg, s) && Legal(cfg, s, xs + ys) && Forward(cfg, s, xs + ys)
    requires Exec(cfg, s, xs).state != s.state
    ensures Exec(cfg, s, xs + ys).state != s.state
  {
    ExecSplit(cfg, s, xs, ys);
    RankNeverFalls(cfg, s, xs);
    RunKeepsInv(cfg, s, xs);
    RankNeverFalls(cfg, Exec(cfg, s, xs), ys);
    RankTellsStates(Exec(cfg, s, xs).state, s.state);
  }

  lemma RankTellsStates(a: State, b: State)
    ensures Rank(a) == Rank(b) ==> a == b
  {
  }

  // ---------------------------------------------------------------- progress

  /** The request a state is waiting on. */
  function Awaited(cfg: Config, s: T): Op {
    match s.state
    case CreateChannel => OpenFor(ForSetup)
    case CheckQueue => Check(cfg.queue)
    case RecreateChannel => OpenFor(ForRetry)
    case CreateExchange => Exchange(cfg.exchange)
    case CreateQueue => Declare(cfg.queue, cfg.queue == "")
    case BindQueue => Bind(cfg.exchange, s.recvQueue, cfg.route)
    case CreateConsumer => Consume(s.recvQueue)
    case Shutdown => Cancel(s.tag)
    case UnbindQueue =>
      if Req(s, OpenFor(ForUnbind)) in s.pending then OpenFor(ForUnbind)
      else Unbind(cfg.exchange, s.recvQueue, cfg.route)
    case RemoveQueue =>
      if Req(s, OpenFor(ForRemove)) in s.pending then OpenFor(ForRemove) else Remove(s.recvQueue)
    case _ => Close
  }

  /** The run is a state further, or the channel it waited for is open and the inner request is out. */
  predicate Further(s: T, t: T) {
    || Rank(t.state) > Rank(s.state)
    || (t.state == s.state && t.channel == s.channel && exists r | r in s.pending :: r.op.OpenFor? && r !in t.pending)
  }

  /** Either answer to the awaited request is heeded: it moves the run on, or brings out the inner request. */
  lemma AwaitedIsHeeded(cfg: Config, s: T, outcome: Outcome)
    requires Shape(cfg, s) && s.state != Ready && s.state != End
    requires Sensible(Awaited(cfg, s), outcome)
    ensures Req(s, Awaited(cfg, s)) in s.pending
    ensures var r := Req(s, Awaited(cfg, s));
      match React(cfg, s, Answer(r, outcome))
      case Go(_) => true
      case Stay(t) => r.op.OpenFor? && r !in t.pending && t.state == s.state && t.channel == s.channel
  {
  }

  lemma Progress(cfg: Config, s: T, outcome: Outcome)
    requires Inv(cfg, s) && s.state != Ready && s.state != End
    requires Sensible(Awaited(cfg, s), outcome)
    ensures Enabled(s, Answer(Req(s, Awaited(cfg, s)), outcome))
    ensures Further(s, Step(cfg, s, Answer(Req(s, Awaited(cfg, s)), outcome)))
  {
    var r := Req(s, Awaited(cfg, s));
    AwaitedIsHeeded(cfg, s, outcome);
    AnswerRises(cfg, s, r, outcome);
    match React(cfg, s, Answer(r, outcome))
    case Stay(_) =>
    case Go(t) => EnterRises(cfg, t);
  }

  // ---------------------------------------------------------------- termination

  function Answers(es: seq<Event>): nat {
    if es == [] then 0 else (if es[0].Answer? then 1 else 0) + Answers(es[1..])
  }

  predicate NoStart(es: seq<Event>) {
    forall e | e in es :: !e.Start?
  }

  /** How many more answers a run that has begun to stop can be given. */
  function Remaining(s: T): nat {
    match s.state
    case End => 0
    case CloseChannel => |s.pending|
    case UnbindQueue => if Req(s, OpenFor(ForUnbind)) in s.pending then 3 else 2
    case RemoveQueue => if Req(s, OpenFor(ForRemove)) in s.pending then 3 else 2
    case _ => 3 + |s.pending|
  }

  predicate Stopping(s: T) {
    Rank(s.state) > Rank(Ready)
  }

  lemma StoppingCall(cfg: Config, s: T, e: Event)
    requires Shape(cfg, s) && Stopping(s) && Enabled(s, e) && !e.Start? && !e.Answer?
    ensures Step(cfg, s, e) == s || (e.Drop? && Step(cfg, s, e).state == End)
  {
  }

  /** An answer during the teardown: where it leads, or which request it settles. */
  lemma TeardownAnswer(cfg: Config, s: T, r: Request, outcome: Outcome)
    requires Shape(cfg, s) && r in s.pending && Stopping(s)
    ensures s.state != End
    ensures match React(cfg, s, Answer(r, outcome))
      case Go(t) =>
        || t.state == End
        || (t.state == (match s.state case Shutdown => UnbindQueue case CloseChannel => End case _ => CloseChannel)
            && (s.state == UnbindQueue || s.state == RemoveQueue ==> t.pending == {}))
      case Stay(t) =>
        && t.state == s.state && t.channel == s.channel
        && match s.state
           case UnbindQueue => r == Req(s, OpenFor(ForUnbind)) && r !in t.pending
           case RemoveQueue => r == Req(s, OpenFor(ForRemove)) && r !in t.pending
           case _ => t.pending == s.pending - {r}
  {
    WhoAnswers(cfg, s, r);
  }

  lemma EnterOnTheWayOut(cfg: Config, t: T)
    requires t.state == UnbindQueue || t.state == CloseChannel || t.state == End
    ensures var u := Enter(cfg, t); u.state == t.state || (t.state == UnbindQueue && u.state == CloseChannel)
  {
  }

  lemma ClosingOwesOne(cfg: Config, t: T)
    requires t.state == CloseChannel && t.pending == {}
    ensures |Enter(cfg, t).pending| == 1
  {
  }

  /** A later state of the teardown leaves room for fewer answers. */
  lemma LaterLeavesFewer(cfg: Config, s: T, u: T)
    requires Inv(cfg, s) && Inv(cfg, u) && Stopping(s)
    requires s.state == UnbindQueue || s.state == RemoveQueue ==> |u.pending| <= 1 || u.state == End
    requires match s.state
      case Shutdown => u.state == UnbindQueue || u.state == CloseChannel || u.state == End
      case CloseChannel => u.state == End
      case End => false
      case _ => u.state == CloseChannel || u.state == End
    ensures Remaining(u) < Remaining(s)
  {
    AtMostTwo(cfg, u);
    if s.state == CloseChannel {
      assert Req(s, Close) in s.pending;
    } else if s.state == Shutdown {
      assert Req(s, Cancel(s.tag)) in s.pending;
    }
  }

  lemma TeardownAnswerSpends(cfg: Config, s: T, r: Request, outcome: Outcome)
    requires Inv(cfg, s) && Stopping(s) && Enabled(s, Answer(r, outcome))
    ensures Stopping(Step(cfg, s, Answer(r, outcome)))
    ensures Remaining(Step(cfg, s, Answer(r, outcome))) < Remaining(s)
  {
    hide React, Enter, Outstanding, Knowledge;
    TeardownAnswer(cfg, s, r, outcome);
    match React(cfg, s, Answer(r, outcome))
    case Stay(t) =>
      assert |s.pending - {r}| == |s.pending| - 1;
    case Go(t) =>
      EnterOnTheWayOut(cfg, t);
      StepKeepsInv(cfg, s, Answer(r, outcome));
      if t.state == CloseChannel && t.pending == {} { ClosingOwesOne(cfg, t); }
      LaterLeavesFewer(cfg, s, Enter(cfg, t));
  }

  lemma StoppingGoesOn(cfg: Config, s: T, e: Event)
    requires Inv(cfg, s) && Stopping(s) && Enabled(s, e) && !e.Start?
    ensures Stopping(Step(cfg, s, e))
    ensures Remaining(Step(cfg, s, e)) <= Remaining(s) - (if e.Answer? then 1 else 0)
  {
    hide Step, Outstanding, Knowledge;
    match e
    case Answer(r, outcome) => TeardownAnswerSpends(cfg, s, r, outcome);
    case _ => StoppingCall(cfg, s, e);
  }

  lemma {:induction false} StoppingEnds(cfg: Config, s: T, es: seq<Event>)
    requires Inv(cfg, s) && Stopping(s) && Legal(cfg, s, es) && NoStart(es)
    ensures Stopping(Exec(cfg, s, es))
    ensures Remaining(Exec(cfg, s, es)) + Answers(es) <= Remaining(s)
    decreases es
  {
    if es != [] {
      StoppingGoesOn(cfg, s, es[0]);
      StepKeepsInv(cfg, s, es[0]);
      StoppingEnds(cfg, Step(cfg, s, es[0]), es[1..]);
    }
  }

  /** A stop sets a running transceiver on its way to the end, unless it was waiting for a second channel. */
  lemma StopTakesHold(cfg: Config, s: T)
    requires Inv(cfg, s) && s.state != End
    ensures Stopping(Step(cfg, s, Stop)) <==> s.state != RecreateChannel
    ensures Stopping(s) ==> Step(cfg, s, Stop) == s
    ensures Stopping(Step(cfg, s, Stop)) ==> Remaining(Step(cfg, s, Stop)) <= 5
  {
    hide Enter;
    StepKeepsInv(cfg, s, Stop);
    AtMostTwo(cfg, Step(cfg, s, Stop));
    match React(cfg, s, Stop)
    case Stay(_) =>
    case Go(t) => EnterRises(cfg, t);
  }

  lemma AtMostTwo(cfg: Config, s: T)
    requires Inv(cfg, s)
    ensures |s.pending| <= 2
  {
    if s.state == CloseChannel {
      var late := s.pending - {Req(s, Close)};
      assert |late| == |s.pending| - 1;
      if late != {} {
        var r :| r in late;
        assert late == {r};
      }
    } else if s.state == Shutdown {
      assert s.pending <= {Req(s, Cancel(s.tag)), Req(s, Subscription)};
    }
  }

  /** Five answers after a stop that took hold, the run is over, whatever else happens meanwhile. */
  lemma StopEndsTheRun(cfg: Config, s: T, es: seq<Event>)
    requires Inv(cfg, s) && s.state != End && s.state != RecreateChannel
    requires Legal(cfg, Step(cfg, s, Stop), es) && NoStart(es) && Answers(es) >= 5
    ensures Exec(cfg, Step(cfg, s, Stop), es).state == End
  {
    var t := Step(cfg, s, Stop);
    StopTakesHold(cfg, s);
    StepKeepsInv(cfg, s, Stop);
    StoppingEnds(cfg, t, es);
    RunKeepsInv(cfg, t, es);
    NothingRemains(cfg, Exec(cfg, t, es));
  }

  lemma NothingRemains(cfg: Config, s: T)
    requires Inv(cfg, s) && Stopping(s) && Remaining(s) == 0
    ensures s.state == End
  {
  }

  // Four are not always enough: the late end of a subscription, and one answer to each step but the last.

  function LateEnd(s: T): Event {
    Answer(Req(s, Subscription), Fail("closed"))
  }

  function Cancelled(s: T): Event {
    Answer(Req(s, Cancel(s.tag)), Ok(s.tag))
  }

  function OpenedToUnbind(s: T): Event {
    Answer(Req(s, OpenFor(ForUnbind)), Ok(""))
  }

  function Unbound(cfg: Config, s: T): Event {
    Answer(Req(s, Unbind(cfg.exchange, s.recvQueue, cfg.route)), Ok(""))
  }

  lemma StopAsksToCancel(cfg: Config, s: T)
    requires Shape(cfg, s) && cfg.listener && s.state == Ready
    ensures var t := Step(cfg, s, Stop);
      && t.state == Shutdown && t.tag != "" && t.recvQueue != ""
      && t.pending == {Req(t, Subscription), Req(t, Cancel(t.tag))}
  {
  }

  lemma LateEndIsAbsorbed(cfg: Config, s: T)
    requires s.state == Shutdown && s.pending == {Req(s, Subscription), Req(s, Cancel(s.tag))}
    ensures Enabled(s, LateEnd(s)) && Step(cfg, s, LateEnd(s)) == s.(pending := {Req(s, Cancel(s.tag))})
  {
    hide Enter;
  }

  lemma CancelThenOpen(cfg: Config, s: T)
    requires s.state == Shutdown && s.recvQueue != "" && s.pending == {Req(s, Cancel(s.tag))}
    ensures var t := Step(cfg, s, Cancelled(s));
      && Enabled(s, Cancelled(s))
      && t.state == UnbindQueue && t.recvQueue != "" && t.pending == {Req(t, OpenFor(ForUnbind))}
  {
  }

  lemma StopThenCancel(cfg: Config, s: T)
    requires Shape(cfg, s) && cfg.listener && s.state == Ready
    ensures var s0 := Step(cfg, s, Stop);
      var s1 := Step(cfg, s0, LateEnd(s0));
      var s2 := Step(cfg, s1, Cancelled(s1));
      && Enabled(s0, LateEnd(s0)) && Enabled(s1, Cancelled(s1))
      && s2.state == UnbindQueue && s2.recvQueue != "" && s2.pending == {Req(s2, OpenFor(ForUnbind))}
  {
    hide Step, Enabled, Shape, LateEnd, Cancelled;
    var s0 := Step(cfg, s, Stop);
    StopAsksToCancel(cfg, s);
    LateEndIsAbsorbed(cfg, s0);
    CancelThenOpen(cfg, Step(cfg, s0, LateEnd(s0)));
  }

  lemma OpenThenUnbind(cfg: Config, s: T)
    requires s.state == UnbindQueue && s.recvQueue != "" && s.pending == {Req(s, OpenFor(ForUnbind))}
    ensures var s1 := Step(cfg, s, OpenedToUnbind(s));
      var s2 := Step(cfg, s1, Unbound(cfg, s1));
      && Enabled(s, OpenedToUnbind(s)) && Enabled(s1, Unbound(cfg, s1)) && s2.state == CloseChannel
  {
    var s1 := Step(cfg, s, OpenedToUnbind(s));
    assert s1.pending == {Req(s, Unbind(cfg.exchange, s.recvQueue, cfg.route))} && s1.channel == s.channel;
  }

  lemma FourAreNotEnough(cfg: Config, s: T)
    requires Inv(cfg, s) && cfg.listener && s.state == Ready
    ensures var s0 := Step(cfg, s, Stop);
      var s1 := Step(cfg, s0, LateEnd(s0));
      var s2 := Step(cfg, s1, Cancelled(s1));
      var s3 := Step(cfg, s2, OpenedToUnbind(s2));
      var s4 := Step(cfg, s3, Unbound(cfg, s3));
      && Enabled(s0, LateEnd(s0)) && Enabled(s1, Cancelled(s1))
      && Enabled(s2, OpenedToUnbind(s2)) && Enabled(s3, Unbound(cfg, s3))
      && s4.state == CloseChannel
  {
    StopThenCancel(cfg, s);
    var s0 := Step(cfg, s, Stop);
    var s1 := Step(cfg, s0, LateEnd(s0));
    hide Step, Enabled, Inv;
    OpenThenUnbind(cfg, Step(cfg, s1, Cancelled(s1)));
  }
}
