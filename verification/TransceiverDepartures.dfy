/** Runs in which a transceiver departs from what its documentation says, each with the events that lead there. */
module TransceiverDepartures {
  import opened Options
  import opened TransceiverSpec
  import opened TransceiverInvariant
  import opened TransceiverTheorems
  import opened TransceiverBroker
  import opened TransceiverLate

  const NAMED: Config := Config("exchange", "queue", "route", true)

  /** A state of such a run that waits on one request: the fields that decide where it goes next. */
  predicate At(s: T, state: State, r: Request, queue: string, exist: bool) {
    && s.state == state && s.channel == s.channels == r.chan && s.connection.Some?
    && s.pending == {r} && s.recvQueue == queue && s.queueExist == exist
  }

  lemma {:induction false} Before(cfg: Config, s: T, e: Event, es: seq<Event>)
    ensures Exec(cfg, s, [e] + es) == Exec(cfg, Step(cfg, s, e), es)
    ensures Legal(cfg, s, [e] + es) <==> Enabled(s, e) && Legal(cfg, Step(cfg, s, e), es)
    ensures Exec(cfg, Step(cfg, s, e), []) == Step(cfg, s, e) && Legal(cfg, Step(cfg, s, e), [])
  {
    assert ([e] + es)[0] == e && ([e] + es)[1..] == es;
  }

  function TheBind(chan: nat): Request {
    Request(chan, Bind("exchange", "queue", "route"))
  }

  lemma StartComes()
    ensures At(Step(NAMED, FRESH, Start(Some(1))), CreateChannel, Request(1, OpenFor(ForSetup)), "", false)
  {
  }

  lemma ChannelComes(s: T, chan: nat)
    requires At(s, CreateChannel, Request(chan, OpenFor(ForSetup)), "", false)
    ensures var e := Answer(Request(chan, OpenFor(ForSetup)), Ok(""));
      && Enabled(s, e)
      && At(Step(NAMED, s, e), CheckQueue, Request(chan, Check("queue")), "", false)
      && Issued(Request(chan, Check("queue"))) in Step(NAMED, s, e).trace
  {
  }

  lemma CheckComes(s: T, chan: nat)
    requires At(s, CheckQueue, Request(chan, Check("queue")), "", false)
    ensures var e := Answer(Request(chan, Check("queue")), Ok("queue"));
      && Enabled(s, e)
      && At(Step(NAMED, s, e), CreateExchange, Request(chan, Exchange("exchange")), "queue", true)
  {
  }

  lemma CheckDoesNotCome(s: T, chan: nat)
    requires At(s, CheckQueue, Request(chan, Check("queue")), "", false)
    ensures var e := Answer(Request(chan, Check("queue")), Fail("no such queue"));
      && Enabled(s, e)
      && At(Step(NAMED, s, e), RecreateChannel, Request(chan + 1, OpenFor(ForRetry)), "", false)
      && (forall a | a in s.trace :: a in Step(NAMED, s, e).trace)
  {
  }

  lemma ExchangeComes(s: T, chan: nat)
    requires At(s, CreateExchange, Request(chan, Exchange("exchange")), s.recvQueue, s.queueExist)
    ensures var e := Answer(Request(chan, Exchange("exchange")), Ok(""));
      && Enabled(s, e)
      && if s.queueExist
         then s.recvQueue == "queue" ==> At(Step(NAMED, s, e), BindQueue, TheBind(chan), "queue", true)
         else At(Step(NAMED, s, e), CreateQueue, Request(chan, Declare("queue", false)), s.recvQueue, false)
  {
  }

  lemma BindingComes(s: T, chan: nat)
    requires At(s, BindQueue, TheBind(chan), "queue", s.queueExist)
    ensures var e := Answer(TheBind(chan), Ok(""));
      && Enabled(s, e)
      && At(Step(NAMED, s, e), CreateConsumer, Request(chan, Consume("queue")), "queue", s.queueExist)
  {
  }

  lemma ConsumerComes(s: T, chan: nat)
    requires At(s, CreateConsumer, Request(chan, Consume("queue")), "queue", s.queueExist)
    ensures var e := Answer(Request(chan, Consume("queue")), Ok("tag"));
      Enabled(s, e) && Step(NAMED, s, e).state == Ready
  {
  }

  lemma ConsumerDoesNotCome(s: T, chan: nat)
    requires At(s, CreateConsumer, Request(chan, Consume("queue")), "queue", s.queueExist)
    ensures var e := Answer(Request(chan, Consume("queue")), Fail("refused"));
      && Enabled(s, e)
      && At(Step(NAMED, s, e), UnbindQueue, Request(chan + 1, OpenFor(ForUnbind)), "queue", s.queueExist)
  {
  }

  /** The passive check has failed, and a second channel is being opened. */
  const CHECK_FAILS: seq<Event> :=
    [Start(Some(1))] + (
    [Answer(Request(1, OpenFor(ForSetup)), Ok(""))] + (
    [Answer(Request(1, Check("queue")), Fail("no such queue"))] + []))

  lemma AfterCheckFails()
    ensures Legal(NAMED, FRESH, CHECK_FAILS)
    ensures At(Exec(NAMED, FRESH, CHECK_FAILS), RecreateChannel, Request(2, OpenFor(ForRetry)), "", false)
    ensures Issued(Request(1, Check("queue"))) in Exec(NAMED, FRESH, CHECK_FAILS).trace
  {
    var e1, e2, e3 := Start(Some(1)), Answer(Request(1, OpenFor(ForSetup)), Ok("")),
      Answer(Request(1, Check("queue")), Fail("no such queue"));
    var s1 := Step(NAMED, FRESH, e1);
    var s2 := Step(NAMED, s1, e2);
    hide Step, Exec, Legal, At;
    StartComes();
    ChannelComes(s1, 1);
    CheckDoesNotCome(s2, 1);
    Before(NAMED, FRESH, e1, [e2] + ([e3] + []));
    Before(NAMED, s1, e2, [e3] + []);
    Before(NAMED, s2, e3, []);
  }

  /** A broker that grants everything, from the first request on a channel on. */
  function GrantAll(chan: nat): seq<Event> {
    [Answer(Request(chan, OpenFor(ForSetup)), Ok(""))] + (
    [Answer(Request(chan, Check("queue")), Ok("queue"))] + (
    [Answer(Request(chan, Exchange("exchange")), Ok(""))] + (
    [Answer(TheBind(chan), Ok(""))] + (
    [Answer(Request(chan, Consume("queue")), Ok("tag"))] + []))))
  }

  lemma GrantAllMakesReady(s: T, chan: nat)
    requires At(s, CreateChannel, Request(chan, OpenFor(ForSetup)), "", false)
    ensures Legal(NAMED, s, GrantAll(chan)) && Exec(NAMED, s, GrantAll(chan)).state == Ready
  {
    var e1, e2, e3 := Answer(Request(chan, OpenFor(ForSetup)), Ok("")),
      Answer(Request(chan, Check("queue")), Ok("queue")),
      Answer(Request(chan, Exchange("exchange")), Ok(""));
    var e4, e5 := Answer(TheBind(chan), Ok("")), Answer(Request(chan, Consume("queue")), Ok("tag"));
    var s1 := Step(NAMED, s, e1);
    var s2 := Step(NAMED, s1, e2);
    var s3 := Step(NAMED, s2, e3);
    var s4 := Step(NAMED, s3, e4);
    hide Step, Exec, Legal;
    ChannelComes(s, chan);
    CheckComes(s1, chan);
    ExchangeComes(s2, chan);
    BindingComes(s3, chan);
    ConsumerComes(s4, chan);
    Before(NAMED, s, e1, [e2] + ([e3] + ([e4] + ([e5] + []))));
    Before(NAMED, s1, e2, [e3] + ([e4] + ([e5] + [])));
    Before(NAMED, s2, e3, [e4] + ([e5] + []));
    Before(NAMED, s3, e4, [e5] + []);
    Before(NAMED, s4, e5, []);
  }

  lemma StopGoesBack(s: T)
    requires At(s, RecreateChannel, Request(2, OpenFor(ForRetry)), "", false)
    ensures At(Step(NAMED, s, Stop), CreateChannel, Request(3, OpenFor(ForSetup)), "", false)
    ensures forall a | a in s.trace :: a in Step(NAMED, s, Stop).trace
  {
  }

  /**
    The gap in the stop table: a stop while the second channel is being opened
    starts the set-up again, and with a willing broker ends in the ready state.
   */
  lemma StopIsForgotten()
    ensures Legal(NAMED, FRESH, CHECK_FAILS + ([Stop] + GrantAll(3)))
    ensures Exec(NAMED, FRESH, CHECK_FAILS + ([Stop] + GrantAll(3))).state == Ready
  {
    hide GrantAll, Step, Legal, Exec, At;
    AfterCheckFails();
    var s := Exec(NAMED, FRESH, CHECK_FAILS);
    var t := Step(NAMED, s, Stop);
    StopGoesBack(s);
    GrantAllMakesReady(t, 3);
    Before(NAMED, s, Stop, GrantAll(3));
    ExecSplit(NAMED, FRESH, CHECK_FAILS, [Stop] + GrantAll(3));
  }

  /**
    After such a stop an answer repeated from the first channel would be taken for
    one from the new channel. Channels that have been let go call back no more, so
    this is hypothetical: it shows that here, and only here, that is what protects
    the run, and not the callback's look at the state.
   */
  lemma StopLetsALateAnswerIn()
    ensures var es := CHECK_FAILS + ([Stop] + ([Answer(Request(3, OpenFor(ForSetup)), Ok(""))] + []));
      var s := Exec(NAMED, FRESH, es);
      && Legal(NAMED, FRESH, es)
      && StaleHere(s, Request(1, Check("queue")), Ok("queue"))
      && CallBack(NAMED, s, Request(1, Check("queue")), Ok("queue")) != s
  {
    hide Step, Exec, Legal;
    AfterCheckFails();
    var s := Exec(NAMED, FRESH, CHECK_FAILS);
    var open := Answer(Request(3, OpenFor(ForSetup)), Ok(""));
    var t := Step(NAMED, s, Stop);
    StopGoesBack(s);
    assert Issued(Request(1, Check("queue"))) in t.trace;
    StepRemembers(NAMED, t, open);
    var u := Step(NAMED, t, open);
    ChannelComes(t, 3);
    Before(NAMED, t, open, []);
    Before(NAMED, s, Stop, [open] + []);
    ExecSplit(NAMED, FRESH, CHECK_FAILS, [Stop] + ([open] + []));
    TakenForNew(u);
  }

  lemma TakenForNew(u: T)
    requires At(u, CheckQueue, Request(3, Check("queue")), "", false)
    ensures CallBack(NAMED, u, Request(1, Check("queue")), Ok("queue")).state == CreateExchange
  {
  }

  // A queue this run declared is left behind when registering the consumer fails.

  lemma QueueComes(s: T, chan: nat)
    requires At(s, CreateQueue, Request(chan, Declare("queue", false)), "", false)
    ensures var e := Answer(Request(chan, Declare("queue", false)), Ok("queue"));
      && Enabled(s, e)
      && At(Step(NAMED, s, e), BindQueue, TheBind(chan), "queue", false)
      && Declared("queue") in Step(NAMED, s, e).facts
  {
  }

  lemma RetryComes(s: T, chan: nat)
    requires At(s, RecreateChannel, Request(chan, OpenFor(ForRetry)), "", false)
    ensures var e := Answer(Request(chan, OpenFor(ForRetry)), Ok(""));
      && Enabled(s, e)
      && At(Step(NAMED, s, e), CreateExchange, Request(chan, Exchange("exchange")), "", false)
  {
  }

  /** A broker that grants a second channel and everything on it but the consumer. */
  const CONSUMER_REFUSED: seq<Event> :=
    [Answer(Request(2, OpenFor(ForRetry)), Ok(""))] + (
    [Answer(Request(2, Exchange("exchange")), Ok(""))] + (
    [Answer(Request(2, Declare("queue", false)), Ok("queue"))] + (
    [Answer(TheBind(2), Ok(""))] + (
    [Answer(Request(2, Consume("queue")), Fail("refused"))] + []))))

  lemma AfterConsumerRefused(s: T)
    requires At(s, RecreateChannel, Request(2, OpenFor(ForRetry)), "", false)
    ensures Legal(NAMED, s, CONSUMER_REFUSED)
    ensures var t := Exec(NAMED, s, CONSUMER_REFUSED);
      At(t, UnbindQueue, Request(3, OpenFor(ForUnbind)), "queue", false) && Declared("queue") in t.facts
  {
    var e1, e2, e3 := Answer(Request(2, OpenFor(ForRetry)), Ok("")),
      Answer(Request(2, Exchange("exchange")), Ok("")),
      Answer(Request(2, Declare("queue", false)), Ok("queue"));
    var e4, e5 := Answer(TheBind(2), Ok("")), Answer(Request(2, Consume("queue")), Fail("refused"));
    var s1 := Step(NAMED, s, e1);
    var s2 := Step(NAMED, s1, e2);
    var s3 := Step(NAMED, s2, e3);
    var s4 := Step(NAMED, s3, e4);
    var s5 := Step(NAMED, s4, e5);
    hide Step, Exec, Legal;
    StepRemembers(NAMED, s3, e4);
    StepRemembers(NAMED, s4, e5);
    RetryComes(s, 2);
    ExchangeComes(s1, 2);
    QueueComes(s2, 2);
    BindingComes(s3, 2);
    ConsumerDoesNotCome(s4, 2);
    hide Enabled;
    Before(NAMED, s, e1, [e2] + ([e3] + ([e4] + ([e5] + []))));
    Before(NAMED, s1, e2, [e3] + ([e4] + ([e5] + [])));
    Before(NAMED, s2, e3, [e4] + ([e5] + []));
    Before(NAMED, s3, e4, [e5] + []);
    Before(NAMED, s4, e5, []);
  }

  lemma ConsumerWasAsked()
    ensures var s := Exec(NAMED, FRESH, CHECK_FAILS + CONSUMER_REFUSED);
      && Legal(NAMED, FRESH, CHECK_FAILS + CONSUMER_REFUSED)
      && Inv(NAMED, s) && Owns(NAMED, s) && s.state == UnbindQueue && Declared("queue") in s.facts
  {
    hide Exec, Legal, Owns, Inv;
    AfterCheckFails();
    AfterConsumerRefused(Exec(NAMED, FRESH, CHECK_FAILS));
    ExecSplit(NAMED, FRESH, CHECK_FAILS, CONSUMER_REFUSED);
    FreshOwns(NAMED);
    FreshKeepsInv();
    RunOwns(NAMED, FRESH, CHECK_FAILS + CONSUMER_REFUSED);
    RunKeepsInv(NAMED, FRESH, CHECK_FAILS + CONSUMER_REFUSED);
  }

  lemma FreshKeepsInv()
    ensures Inv(NAMED, FRESH)
  {
  }

  lemma UnbindingAfterConsume(s: T)
    requires Owns(NAMED, s) && s.state == UnbindQueue
    ensures AskedConsume(s.trace)
  {
    hide AskedConsume, AskedBind, AskedRemove, RemovesItsOwn;
  }

  /**
    However such a run goes on, short of a new start, it never asks for its queue
    to be deleted, although it ends in an error.
   */
  lemma DeclaredQueueIsLeftBehind(es: seq<Event>)
    requires Legal(NAMED, Exec(NAMED, FRESH, CHECK_FAILS + CONSUMER_REFUSED), es) && NoStart(es)
    ensures Legal(NAMED, FRESH, CHECK_FAILS + CONSUMER_REFUSED)
    ensures var t := Exec(NAMED, FRESH, CHECK_FAILS + CONSUMER_REFUSED + es);
      Declared("queue") in t.facts && !AskedRemove(t.trace)
  {
    hide Exec, Legal, Owns, Inv, NoStart, AskedBind, AskedConsume, AskedRemove;
    ConsumerWasAsked();
    var s := Exec(NAMED, FRESH, CHECK_FAILS + CONSUMER_REFUSED);
    ExecSplit(NAMED, FRESH, CHECK_FAILS + CONSUMER_REFUSED, es);
    UnbindingAfterConsume(s);
    RunRemembers(NAMED, s, es);
    DeletesOnlyItsOwn(NAMED, CHECK_FAILS + CONSUMER_REFUSED + es);
  }

  lemma {:induction false} RunRemembers(cfg: Config, s: T, es: seq<Event>)
    requires NoStart(es)
    ensures s.facts <= Exec(cfg, s, es).facts
    ensures AskedConsume(s.trace) ==> AskedConsume(Exec(cfg, s, es).trace)
    decreases es
  {
    if es != [] {
      assert es[0] in es;
      hide Step;
      StepRemembers(cfg, s, es[0]);
      RunRemembers(cfg, Step(cfg, s, es[0]), es[1..]);
    }
  }

  lemma StepRemembers(cfg: Config, s: T, e: Event)
    requires !e.Start?
    ensures s.facts <= Step(cfg, s, e).facts
    ensures forall a | a in s.trace :: a in Step(cfg, s, e).trace
    ensures AskedConsume(s.trace) ==> AskedConsume(Step(cfg, s, e).trace)
  {
    hide Enter;
    assert forall a | a in s.trace :: a in React(cfg, s, e).s.trace;
    match React(cfg, s, e)
    case Stay(_) =>
    case Go(t) => EnterAdds(cfg, t);
  }
}
