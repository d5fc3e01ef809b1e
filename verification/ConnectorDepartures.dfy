/** Runs in which a connector does not do what one would expect of it. */
module ConnectorDepartures {
  import opened Options
  import opened ConnectorSpec
  import opened ConnectorTheorems
  import opened ConnectorSessions
  import opened ConnectorRest
  import opened ConnectorWaits
  import Trx = TransceiverSpec
  import H = HandlerSpec
  import HTheorems = HandlerTheorems
  import Link = HandlerRefinesLink

  // ---------------------------------------------------------------- two exits

  /**
    The task of a stop comes to its end while the handler is shutting down: it
    stops the handler once more, and the session has two exits.
   */
  lemma StopDuringADrain(c: C)
    requires c.link == Draining && c.ready && c.stack.On? && c.stack.top == Task(0)
    requires c.stack.below.On? && c.stack.below.top.Drain?
    ensures var es := [Turn, Drained, Drained];
      && Legal(c, es) && !Quiet(c, es)
      && Exec(c, es).exits == c.exits + [Normal] + [Normal] && Exec(c, es).starts == c.starts
  {
    hide TellAll;
    var c1 := Step(c, Turn);
    var c2 := Step(c1, Drained);
    var c3 := Step(c2, Drained);
    Three(c, Turn, Drained, Drained);
  }

  lemma Three(c: C, x: Event, y: Event, z: Event)
    ensures var c1 := Step(c, x); var c2 := Step(c1, y);
      && Exec(c, [x, y, z]) == Step(c2, z)
      && (Legal(c, [x, y, z]) <==> Enabled(c, x) && Enabled(c1, y) && Enabled(c2, z))
      && (Quiet(c, [x, y, z]) <==> !Clashes(c, x) && !Clashes(c1, y) && !Clashes(c2, z))
  {
    hide Step, Enabled, Clashes;
    var c1 := Step(c, x);
    var c2 := Step(c1, y);
    assert [x, y, z][1..] == [y, z] && [y, z][1..] == [z] && [z][1..] == [];
    assert Exec(c2, [z]) == Exec(Step(c2, z), []);
    assert Legal(c2, [z]) <==> Enabled(c2, z) && Legal(Step(c2, z), []);
    assert Quiet(c2, [z]) <==> !Clashes(c2, z) && Quiet(Step(c2, z), []);
  }

  /** What two errors, one in the drain of the other, are to a connector. */
  lemma TwoErrors(c: C)
    requires Inv(c) && c.link == Up
    ensures var d := Link.SeenOf(c);
      d.exits == c.exits + [AmqpError] + [BrokerConnectError] && d.starts == c.starts
  {
    hide TellAll, AllSound, TasksSeen, AllEnded;
  }

  /**
    A write fails, and while the handler waits for the read in flight, that read
    brings a frame AMQP-CPP objects to: the session has two exits, and the second
    says that it never connected. This is a run of the handler, too.
   */
  lemma ErrorDuringADrain(p: Link.Pair)
    requires Inv(p.c) && p.c.link == Up && HTheorems.Working(p.h)
    ensures Link.JointLegal(p, Link.ERROR_IN_A_SHUTDOWN)
    ensures var q := Link.JointExec(p, Link.ERROR_IN_A_SHUTDOWN);
      && q.c.exits == p.c.exits + [AmqpError] + [BrokerConnectError] && q.c.starts == p.c.starts
      && |q.h.shutdowns| == 2
  {
    hide Inv, HTheorems.Working, Link.JointLegal, Link.JointExec, Link.ERROR_IN_A_SHUTDOWN, Link.SeenOf;
    Link.ErrorInAShutdownHappens(p);
    TwoErrors(p.c);
  }

  lemma ConnectedAlone()
    ensures var c1 := Step(FRESH, AsyncStart);
      var c := Step(c1, ConnectOk);
      && Enabled(FRESH, AsyncStart) && Enabled(c1, ConnectOk)
      && c.ready && c.members == [] && c.tasks == 0 && c.stack == Empty && c.link == Up
      && c.exits == [] && c.starts == 1
  {
  }

  lemma StopIsOvertaken(c: C)
    requires c.ready && c.members == [] && c.tasks == 0 && c.stack == Empty && c.link == Up
    ensures var c1 := Step(c, Stop);
      var c2 := Step(c1, Fault(false));
      var d := Step(c2, BeginTask);
      && Enabled(c, Stop) && Enabled(c1, Fault(false)) && Enabled(c2, BeginTask)
      && d.link == Draining && d.ready && d.stack == On(Task(0), On(Drain, Empty))
      && d.exits == c.exits && d.starts == c.starts
  {
    assert TellAll([], Trx.Stop) == [];
    hide TellAll;
  }

  /** A connection without transceivers, over which a buffer is being written. */
  const CONNECTS: seq<Link.Joint> :=
    [Link.Anew] + ([Link.Handler(H.Resolved(true, ""))] + ([Link.Handler(H.Connected(true, ""))] + (
    [Link.Handler(H.Data([0]))] + [])))

  lemma ToldOfConnecting(h: H.H, c: C)
    ensures Link.Told(h, H.Resolved(true, "")) == [] && Link.Fits(c, H.Resolved(true, ""))
    ensures h.state == H.Connecting ==> Link.Told(h, H.Connected(true, "")) == [ConnectOk]
    ensures Link.Fits(c, H.Connected(true, ""))
    ensures Link.Told(h, H.Data([0])) == [] && Link.Fits(c, H.Data([0]))
    ensures Link.After(c, []) == c && Link.After(c, [ConnectOk]) == Step(c, ConnectOk)
  {
    hide Step;
  }

  lemma ConnectsJointly()
    ensures Link.JointLegal(Link.Pair(H.FRESH, FRESH), CONNECTS)
    ensures var p := Link.JointExec(Link.Pair(H.FRESH, FRESH), CONNECTS);
      && HTheorems.Working(p.h) && p.c == Step(Step(FRESH, AsyncStart), ConnectOk)
  {
    hide H.Step, H.Enabled, Step, Enabled, HTheorems.Working, Link.JointLegal, Link.JointExec,
         Link.Told, Link.Fits, Link.After;
    var h1 := H.Step(H.FRESH, H.Start);
    var h2 := H.Step(h1, H.Resolved(true, ""));
    var h3 := H.Step(h2, H.Connected(true, ""));
    var h4 := H.Step(h3, H.Data([0]));
    var c1 := Step(FRESH, AsyncStart);
    var c2 := Step(c1, ConnectOk);
    HTheorems.OpeningSteps();
    ConnectedAlone();
    ToldOfConnecting(h1, c1);
    ToldOfConnecting(h2, c1);
    ToldOfConnecting(h3, c2);
    var j4: seq<Link.Joint> := [Link.Handler(H.Data([0]))] + [];
    var j3 := [Link.Handler(H.Connected(true, ""))] + j4;
    Link.Before(Link.Pair(H.FRESH, FRESH), Link.Anew, [Link.Handler(H.Resolved(true, ""))] + j3);
    Link.Handles(Link.Pair(h1, c1), H.Resolved(true, ""), h2, [], j3);
    Link.Handles(Link.Pair(h2, c1), H.Connected(true, ""), h3, [ConnectOk], j4);
    Link.Handles(Link.Pair(h3, c2), H.Data([0]), h4, [], []);
    Link.Before(Link.Pair(h4, c2), Link.Stops, []);
  }

  /** The task of a stop ends in a drain: the handler is stopped once more, and both drains come to their end. */
  const STOPS_TWICE: seq<Link.Joint> :=
    [Link.Stops] + (
    [Link.Handler(H.ReadFailed("closed"))] + ([Link.Handler(H.Drained)] + ([Link.Handler(H.Drained)] + [])))

  lemma ToldOfDraining(h: H.H, c: C)
    ensures h.state == H.Shutdown ==> Link.Told(h, H.ReadFailed("closed")) == []
    ensures Link.Fits(c, H.ReadFailed("closed"))
    ensures Link.Told(h, H.Drained) == [Drained]
    ensures c.stack.On? && c.stack.top.Drain? ==> Link.Fits(c, H.Drained)
    ensures Link.After(c, []) == c && Link.After(c, [Drained]) == Step(c, Drained)
  {
    hide Step;
  }

  lemma StopsTwiceJointly(p: Link.Pair)
    requires p.h.state == H.Shutdown && p.h.stack == HTheorems.OUTER && p.h.shutdowns == []
    requires p.h.readReq && p.h.readsOut == 1 && !p.h.writeReq && p.h.writesOut == 0
    requires p.c.link == Draining && p.c.ready && p.c.stack == On(Task(0), On(Drain, Empty))
    ensures Link.JointLegal(p, STOPS_TWICE)
    ensures var q := Link.JointExec(p, STOPS_TWICE);
      && q.c.exits == p.c.exits + [Normal] + [Normal] && q.c.starts == p.c.starts && |q.h.shutdowns| == 2
  {
    hide H.Step, H.Enabled, Step, Enabled, Legal, Exec, Quiet, Clashes, HTheorems.TwiceDown,
         Link.JointLegal, Link.JointExec, Link.Told, Link.Fits, Link.After;
    var h2 := H.Step(p.h, H.Stop);
    var h3 := H.Step(h2, H.ReadFailed("closed"));
    var h4 := H.Step(h3, H.Drained);
    var h5 := H.Step(h4, H.Drained);
    var c4 := Step(p.c, Turn);
    var c5 := Step(c4, Drained);
    HTheorems.StopThenNothingToRead(p.h);
    HTheorems.BothDrain(h3);
    StopDuringADrain(p.c);
    Three(p.c, Turn, Drained, Drained);
    TwoDrainsOnTop(p.c);
    ToldOfDraining(h2, c4);
    ToldOfDraining(h3, c4);
    ToldOfDraining(h4, c5);
    var j7: seq<Link.Joint> := [Link.Handler(H.Drained)] + [];
    var j6 := [Link.Handler(H.Drained)] + j7;
    Link.Before(p, Link.Stops, [Link.Handler(H.ReadFailed("closed"))] + j6);
    Link.Handles(Link.Pair(h2, c4), H.ReadFailed("closed"), h3, [], j6);
    Link.Handles(Link.Pair(h3, c4), H.Drained, h4, [Drained], j7);
    Link.Handles(Link.Pair(h4, c5), H.Drained, h5, [Drained], []);
    Link.Before(Link.Pair(h5, Step(c5, Drained)), Link.Stops, []);
  }

  /**
    A stop is asked for; a write fails; and while the handler waits for the read
    in flight, the task of the stop comes to its end and stops it once more.
   */
  const STOP_IS_LATE: seq<Link.Joint> :=
    [Link.Own(Stop)] + ([Link.Handler(HTheorems.FAILED_WRITE)] + ([Link.Own(BeginTask)] + STOPS_TWICE))

  lemma TwoStopsJointly(p: Link.Pair)
    requires HTheorems.Working(p.h)
    requires p.c.ready && p.c.members == [] && p.c.tasks == 0 && p.c.stack == Empty && p.c.link == Up
    ensures Link.JointLegal(p, STOP_IS_LATE)
    ensures var q := Link.JointExec(p, STOP_IS_LATE);
      && q.c.exits == p.c.exits + [Normal] + [Normal] && q.c.starts == p.c.starts && |q.h.shutdowns| == 2
  {
    hide H.Step, H.Enabled, Step, Enabled, HTheorems.Working, Link.JointLegal, Link.JointExec,
         Link.Told, Link.Fits, STOPS_TWICE;
    var h1 := H.Step(p.h, HTheorems.FAILED_WRITE);
    var c1 := Step(p.c, Stop);
    var c2 := Step(c1, Fault(false));
    var c3 := Step(c2, BeginTask);
    HTheorems.WriteErrorComes(p.h);
    StopIsOvertaken(p.c);
    Link.ToldOfAWrite(p.h, c1);
    StopsTwiceJointly(Link.Pair(h1, c3));
    var j3 := [Link.Own(BeginTask)] + STOPS_TWICE;
    Link.Before(p, Link.Own(Stop), [Link.Handler(HTheorems.FAILED_WRITE)] + j3);
    Link.Handles(Link.Pair(p.h, c1), HTheorems.FAILED_WRITE, h1, [Fault(false)], j3);
    Link.Before(Link.Pair(h1, c2), Link.Own(BeginTask), STOPS_TWICE);
  }

  lemma TwoDrainsOnTop(c: C)
    requires c.link == Draining && c.stack == On(Task(0), On(Drain, Empty))
    ensures Step(c, Turn).stack == On(Drain, On(Drain, Empty))
    ensures Step(Step(c, Turn), Drained).stack == On(Drain, Empty)
  {
    hide TellAll;
  }

  /** So a connector and its handler can come to two exits of one session, without any transceiver. */
  lemma TwoExits()
    ensures var p := Link.Pair(H.FRESH, FRESH);
      var q := Link.JointExec(p, CONNECTS);
      && Link.JointLegal(p, CONNECTS) && Link.JointLegal(q, STOP_IS_LATE)
      && Link.JointExec(q, STOP_IS_LATE).c.starts == 1
      && Link.JointExec(q, STOP_IS_LATE).c.exits == [Normal] + [Normal]
  {
    hide Link.JointLegal, Link.JointExec, HTheorems.Working, Step, CONNECTS, STOP_IS_LATE;
    ConnectsJointly();
    ConnectedAlone();
    TwoStopsJointly(Link.JointExec(Link.Pair(H.FRESH, FRESH), CONNECTS));
  }

  lemma Before(c: C, e: Event, es: seq<Event>)
    ensures Exec(c, [e] + es) == Exec(Step(c, e), es)
    ensures Legal(c, [e] + es) <==> Enabled(c, e) && Legal(Step(c, e), es)
  {
    hide Step, Enabled;
    assert ([e] + es)[1..] == es;
  }

  // ---------------------------------------------------------------- no exit

  lemma StoppedIsOnItsWay(m: Member)
    requires !Ended(m) && m.t.state != Trx.CreateChannel && m.t.state != Trx.RecreateChannel
    ensures !Ended(Tell(m, Trx.Stop)) && Trx.Rank(Tell(m, Trx.Stop).t.state) > Trx.Rank(Trx.Ready)
  {
  }

  /**
    A plain error takes the handler down while a transceiver is past the opening
    of its channel: the connector stops the transceiver and waits for it, and
    `SilenceHoldsForEver` says that a broker out of reach never lets the session end.
   */
  lemma PlainErrorHolds(c: C, i: nat, es: seq<Event>)
    requires Inv(c) && c.link == Up && i < |c.members| && !Ended(c.members[i])
    requires c.members[i].t.state != Trx.CreateChannel && c.members[i].t.state != Trx.RecreateChannel
    requires Legal(Step(Step(c, Fault(false)), Drained), es) && forall e | e in es :: Silent(e)
    ensures var d := Exec(Step(Step(c, Fault(false)), Drained), es);
      d.ready && d.exits == c.exits && i < |d.members| && !Ended(d.members[i])
  {
    hide Tell, Ended, Trx.Rank, Legal, Silent, AllSound, TasksSeen;
    StoppedIsOnItsWay(c.members[i]);
    var c1 := Step(c, Fault(false));
    var c2 := Step(c1, Drained);
    StepKeepsInv(c, Fault(false));
    StepKeepsInv(c1, Drained);
    SilenceHoldsForEver(c2, i, es);
  }

  /** The transceiver ends at once when it is stopped, or when it is stopped once more. */
  predicate Lets(m: Member) {
    Ended(m) || m.t.state == Trx.CreateChannel || m.t.state == Trx.RecreateChannel
  }

  lemma TwoStopsEnd(m: Member)
    requires Lets(m)
    ensures Ended(Tell(Tell(m, Trx.Stop), Trx.Stop))
  {
  }

  lemma TwoStopsEndAll(ms: seq<Member>)
    requires forall m | m in ms :: Lets(m)
    ensures AllEnded(TellAll(TellAll(ms, Trx.Stop), Trx.Stop))
  {
    hide Tell, Ended, Lets;
    forall j | 0 <= j < |ms| ensures Ended(Tell(Tell(ms[j], Trx.Stop), Trx.Stop)) {
      assert ms[j] in ms;
      TwoStopsEnd(ms[j]);
    }
  }

  /** The connector after a plain error, when the handler has shut down. */
  function AfterPlainError(c: C): C {
    Step(Step(c, Fault(false)), Drained)
  }

  lemma PlainErrorStops(c: C)
    requires Flags(c) && c.link == Up
    ensures var d := AfterPlainError(c);
      && Enabled(c, Fault(false)) && Enabled(Step(c, Fault(false)), Drained)
      && d == StopNow(c.(link := Down)) && Enabled(d, Stop) && Step(d, Stop) == StopNow(d)
      && d.ready && Flags(d) && Owing(d)
      && StopNow(d).ready && StopNow(d).members == TellAll(TellAll(c.members, Trx.Stop), Trx.Stop)
      && Flags(StopNow(d)) && Owing(StopNow(d)) && Ending(StopNow(d))
  {
    hide TellAll;
  }

  lemma {:induction false} AloneIsSilent(c: C, fuel: nat)
    ensures forall e | e in LeftAlone(c, fuel) :: Silent(e)
    decreases fuel
  {
    if fuel > 0 && !AtRest(c) {
      hide Step;
      AloneIsSilent(Step(c, NextAlone(c)), fuel - 1);
    }
  }

  /** Some run without the broker ends the session. */
  ghost predicate CanEndInSilence(c: C) {
    exists es :: Legal(c, es) && (forall e | e in es :: Silent(e)) && !Exec(c, es).ready
  }

  lemma SecondStopEnds(c: C)
    requires Flags(c) && c.link == Up && forall m | m in c.members :: Lets(m)
    ensures CanEndInSilence(AfterPlainError(c))
  {
    var d := AfterPlainError(c);
    hide AfterPlainError, Step, Enabled, Legal, Exec, Flags, Owing, Ending, StopNow, Lets, AllEnded, TellAll,
         LeftAlone, Work, AtRest;
    PlainErrorStops(c);
    TwoStopsEndAll(c.members);
    var e := StopNow(d);
    var alone := LeftAlone(e, Work(e));
    LeftAloneRests(e, Work(e));
    AloneIsSilent(e, Work(e));
    Before(d, Stop, alone);
    var es := [Stop] + alone;
    forall x | x in es ensures Silent(x) { assert x == Stop || x in alone; }
    assert !Exec(d, es).ready;
  }

  /**
    Whether a session can end after a plain error with the broker out of reach: if
    and only if every transceiver that runs is waiting for a channel. The error
    stops each once, and another stop ends those that were stopped there; any
    other holds the session for ever.
   */
  lemma PlainErrorEndsExactly(c: C)
    requires Inv(c) && c.link == Up
    ensures CanEndInSilence(AfterPlainError(c)) <==> forall m | m in c.members :: Lets(m)
  {
    if forall m | m in c.members :: Lets(m) {
      SecondStopEnds(c);
    } else {
      var m :| m in c.members && !Lets(m);
      var i :| 0 <= i < |c.members| && c.members[i] == m;
      forall es | Legal(AfterPlainError(c), es) && forall e | e in es :: Silent(e)
        ensures Exec(AfterPlainError(c), es).ready
      {
        hide Legal, Exec, Step, Silent, Inv;
        PlainErrorHolds(c, i, es);
      }
    }
  }

  // ---------------------------------------------------------------- a task inside the drain

  /** An AMQP error overtakes a stop, and its task begins inside the drain, where it waits for a transceiver. */
  lemma AStopIsOvertaken(c: C, i: nat)
    requires Inv(c) && c.link == Up && i < |c.members| && !Ended(c.members[i])
    requires c.members[i].t.state != Trx.CreateChannel && c.members[i].t.state != Trx.RecreateChannel
    ensures var c1 := Step(c, Stop);
      var c2 := Step(c1, Fault(true));
      var d := Step(c2, BeginTask);
      && Enabled(c, Stop) && Enabled(c1, Fault(true)) && Enabled(c2, BeginTask)
      && Held(d, i) && Due(d) == [AmqpError] && d.exits == c.exits && d.link == Draining
  {
    hide Tell, Ended, Trx.Rank, AllSound, TasksSeen;
    StoppedIsOnItsWay(c.members[i]);
  }

  lemma HeldAfter(c: C, i: nat, es: seq<Event>)
    requires Inv(c) && c.link == Up && i < |c.members| && !Ended(c.members[i])
    requires c.members[i].t.state != Trx.CreateChannel && c.members[i].t.state != Trx.RecreateChannel
    requires Legal(Step(Step(Step(c, Stop), Fault(true)), BeginTask), es) && forall e | e in es :: Silent(e)
    ensures var d := Step(Step(Step(c, Stop), Fault(true)), BeginTask);
      Exec(d, es).ready && Exec(d, es).exits == c.exits && Due(d) == [AmqpError]
  {
    hide Step, Enabled, Legal, Exec, Inv, Silent, Trx.Rank;
    AStopIsOvertaken(c, i);
    var c1 := Step(c, Stop);
    var c2 := Step(c1, Fault(true));
    StepKeepsInv(c, Stop);
    StepKeepsInv(c1, Fault(true));
    StepKeepsInv(c2, BeginTask);
    SilenceHoldsForEver(Step(c2, BeginTask), i, es);
  }

  /** A frame that turns out bad comes with a write in flight, and the task of the stop begins before that is done. */
  const OVERTAKES_A_STOP: seq<Link.Joint> :=
    [Link.Own(Stop)] + (
    [Link.Handler(H.ReadDone(HTheorems.A_FRAME))] + ([Link.Handler(H.Test(0))] + ([Link.Handler(H.Dispatch)] + (
    [Link.Handler(HTheorems.BAD_FRAME)] + ([Link.Own(BeginTask)] + [])))))

  /**
    An AMQP error comes out of `parse` after a stop and with a write in flight, and
    the drain picks up the task of the stop. It waits for transceivers that only
    the shutdown callback beneath it would drop: the exit that is due, that of an
    AMQP error, never comes while the broker is silent.
   */
  lemma TaskInsideTheDrain(p: Link.Pair, i: nat, es: seq<Event>)
    requires HTheorems.Working(p.h) && Inv(p.c) && p.c.link == Up && i < |p.c.members| && !Ended(p.c.members[i])
    requires p.c.members[i].t.state != Trx.CreateChannel && p.c.members[i].t.state != Trx.RecreateChannel
    requires Legal(Link.JointExec(p, OVERTAKES_A_STOP).c, es) && forall e | e in es :: Silent(e)
    ensures Link.JointLegal(p, OVERTAKES_A_STOP)
    ensures var q := Link.JointExec(p, OVERTAKES_A_STOP);
      Due(q.c) == [AmqpError] && Exec(q.c, es).ready && Exec(q.c, es).exits == p.c.exits
  {
    hide H.Step, H.Enabled, H.Up, Step, Enabled, Legal, Exec, Inv, Held, Silent, Link.JointLegal, Link.JointExec,
         Link.Told, Link.Fits, HTheorems.Working, HTheorems.ReadingWith, HTheorems.A_FRAME, Trx.Rank;
    var h1 := H.Step(p.h, H.ReadDone(HTheorems.A_FRAME));
    var h2 := H.Step(h1, H.Test(0));
    var h3 := H.Step(h2, H.Dispatch);
    var h4 := H.Step(h3, HTheorems.BAD_FRAME);
    var c1 := Step(p.c, Stop);
    var c2 := Step(c1, Fault(true));
    HTheorems.BadFrameComes(p.h);
    AStopIsOvertaken(p.c, i);
    Link.ToldNothing(p.h, c1, H.ReadDone(HTheorems.A_FRAME));
    Link.ToldNothing(h1, c1, H.Test(0));
    Link.ToldNothing(h2, c1, H.Dispatch);
    Link.ToldOfAFrame(h3, c1);
    var j6: seq<Link.Joint> := [Link.Own(BeginTask)] + [];
    var j5 := [Link.Handler(HTheorems.BAD_FRAME)] + j6;
    var j4 := [Link.Handler(H.Dispatch)] + j5;
    var j3 := [Link.Handler(H.Test(0))] + j4;
    Link.Before(p, Link.Own(Stop), [Link.Handler(H.ReadDone(HTheorems.A_FRAME))] + j3);
    Link.Handles(Link.Pair(p.h, c1), H.ReadDone(HTheorems.A_FRAME), h1, [], j3);
    Link.Handles(Link.Pair(h1, c1), H.Test(0), h2, [], j4);
    Link.Handles(Link.Pair(h2, c1), H.Dispatch, h3, [], j5);
    Link.Handles(Link.Pair(h3, c1), HTheorems.BAD_FRAME, h4, [Fault(true)], j6);
    Link.Before(Link.Pair(h4, c2), Link.Own(BeginTask), []);
    Link.Before(Link.Pair(h4, Step(c2, BeginTask)), Link.Stops, []);
    HeldAfter(p.c, i, es);
  }

  // ---------------------------------------------------------------- opened behind a stop

  function Granted(op: Trx.Op): Trx.Event {
    Trx.Answer(Trx.Request(1, op), Trx.Ok(""))
  }

  /** A send-only transceiver is ready after two grants. */
  lemma TwoGrants(cfg: Trx.Config, t: Trx.T, k: nat)
    requires t.state == Trx.End && !cfg.listener
    ensures var t1 := Trx.Step(cfg, t, Trx.Start(Some(k)));
      var t2 := Trx.Step(cfg, t1, Granted(Trx.OpenFor(Trx.ForSetup)));
      var t3 := Trx.Step(cfg, t2, Granted(Trx.Exchange(cfg.exchange)));
      && Trx.Enabled(t1, Granted(Trx.OpenFor(Trx.ForSetup)))
      && Trx.Enabled(t2, Granted(Trx.Exchange(cfg.exchange)))
      && t3.state == Trx.Ready && t3.connection == Some(k)
  {
    var t1 := Trx.Step(cfg, t, Trx.Start(Some(k)));
    assert t1.pending == {Trx.Request(1, Trx.OpenFor(Trx.ForSetup))};
    var t2 := Trx.Step(cfg, t1, Granted(Trx.OpenFor(Trx.ForSetup)));
    assert Trx.Request(1, Trx.Exchange(cfg.exchange)) in t2.pending;
  }

  /** A connector that waits for the i-th transceiver to be ready, on top of what it waited for before. */
  predicate OpeningIn(c: C, d: C, i: nat, t: Trx.T) {
    && i < |c.members| && d == c.(members := c.members[i := c.members[i].(t := t)], stack := On(ForReady(i), c.stack))
  }

  lemma Opened(c: C, i: nat)
    requires c.ready && i < |c.members| && Ended(c.members[i])
    ensures OpeningIn(c, Step(c, Open(i)), i, Trx.Step(c.members[i].cfg, c.members[i].t, Trx.Start(c.connection)))
  {
    hide Trx.Step;
  }

  lemma Answered(c: C, d: C, i: nat, t: Trx.T, e: Trx.Event)
    requires OpeningIn(c, d, i, t) && Trx.Enabled(t, e) && !e.Start?
    ensures Enabled(d, Happens(i, e))
    ensures OpeningIn(c, Step(d, Happens(i, e)), i, Trx.Step(c.members[i].cfg, t, e))
  {
    hide Trx.Step, Trx.Enabled;
  }

  lemma OpeningEnds(c: C, d: C, i: nat, t: Trx.T)
    requires OpeningIn(c, d, i, t) && t.state == Trx.Ready
    ensures Enabled(d, Turn) && Step(d, Turn) == c.(members := c.members[i := c.members[i].(t := t)])
  {
  }

  /** The transceivers a task still waits for are dropped one by one, and the task stops the handler. */
  function Clears(k: nat): seq<Event> {
    if k == 0 then [Turn] + ([Drained] + []) else [Happens(k - 1, Trx.Drop)] + ([Turn] + Clears(k - 1))
  }

  lemma OneIsDropped(c: C, k: nat)
    requires c.link == Up && c.stack.On? && c.stack.top == Task(k + 1) && k < |c.members|
    ensures var c1 := Step(c, Happens(k, Trx.Drop)); var d := Step(c1, Turn);
      && Enabled(c, Happens(k, Trx.Drop)) && Enabled(c1, Turn)
      && d.link == Up && d.stack.On? && d.stack.top == Task(k) && |d.members| == |c.members|
      && forall j | k < j < |c.members| :: d.members[j] == c.members[j]
  {
    hide Tell, TellAll;
    DropEnds(c.members[k]);
  }

  lemma TaskComesToItsEnd(c: C)
    requires c.link == Up && c.stack.On? && c.stack.top == Task(0)
    ensures var c1 := Step(c, Turn); var d := Step(c1, Drained);
      Enabled(c, Turn) && Enabled(c1, Drained) && d.connection == None && d.members == c.members
  {
    hide Tell, TellAll;
  }

  lemma {:induction false} TheWayIsCleared(c: C, k: nat)
    requires c.link == Up && c.stack.On? && c.stack.top == Task(k) && k <= |c.members|
    ensures Legal(c, Clears(k))
    ensures var d := Exec(c, Clears(k));
      && d.connection == None && |d.members| == |c.members|
      && forall j | k <= j < |c.members| :: d.members[j] == c.members[j]
    decreases k
  {
    hide Step, Enabled, Exec, Legal, Tell;
    if k == 0 {
      TaskComesToItsEnd(c);
      Before(c, Turn, [Drained] + []);
      Before(Step(c, Turn), Drained, []);
      AtTheEnd(Step(Step(c, Turn), Drained));
    } else {
      OneIsDropped(c, k - 1);
      var c1 := Step(c, Happens(k - 1, Trx.Drop));
      TheWayIsCleared(Step(c1, Turn), k - 1);
      Before(c, Happens(k - 1, Trx.Drop), [Turn] + Clears(k - 1));
      Before(c1, Turn, Clears(k - 1));
    }
  }

  /** The i-th transceiver is opened and has its answers, and the rest takes its course. */
  function OpensBehind(c: C, i: nat, k: nat): seq<Event>
    requires i < |c.members|
  {
    [Happens(i, Granted(Trx.OpenFor(Trx.ForSetup)))] + (
    [Happens(i, Granted(Trx.Exchange(c.members[i].cfg.exchange)))] + (
    [Turn] + Clears(k)))
  }

  /**
    What is asked of the callers, that nothing is opened that a stop on its way
    has gone past, cannot be done without. The task of a stop has gone past a
    transceiver, and perhaps waits for more; the one it has gone past is opened
    and made ready; the others are dropped, and the task takes the connection
    away from the one that is ready.
   */
  lemma OpenedBehindATask(c: C, i: nat, k: nat)
    requires Inv(c) && c.link == Up && c.stack.On? && c.stack.top == Task(k)
    requires k <= i < |c.members| && !c.members[i].cfg.listener
    ensures !Enabled(c, Open(i)) && Legal(Step(c, Open(i)), OpensBehind(c, i, k))
    ensures var d := Exec(Step(c, Open(i)), OpensBehind(c, i, k));
      && d.connection == None && i < |d.members|
      && d.members[i].t.state == Trx.Ready && d.members[i].t.connection == c.connection
  {
    var cfg, t := c.members[i].cfg, c.members[i].t;
    PassedIsEnded(c, i, k);
    var t1 := Trx.Step(cfg, t, Trx.Start(c.connection));
    var t2 := Trx.Step(cfg, t1, Granted(Trx.OpenFor(Trx.ForSetup)));
    var t3 := Trx.Step(cfg, t2, Granted(Trx.Exchange(cfg.exchange)));
    hide Step, Enabled, Inv, OpeningIn, Tell, Trx.Step, Trx.Enabled, Exec, Legal, Clears, Granted;
    var e1, e2 := Happens(i, Granted(Trx.OpenFor(Trx.ForSetup))), Happens(i, Granted(Trx.Exchange(cfg.exchange)));
    var c1 := Step(c, Open(i));
    var c2 := Step(c1, e1);
    var c3 := Step(c2, e2);
    TwoGrants(cfg, t, c.connection.value);
    Opened(c, i);
    Answered(c, c1, i, t1, Granted(Trx.OpenFor(Trx.ForSetup)));
    Answered(c, c2, i, t2, Granted(Trx.Exchange(cfg.exchange)));
    OpeningEnds(c, c3, i, t3);
    TheWayIsCleared(Step(c3, Turn), k);
    Before(c1, e1, [e2] + ([Turn] + Clears(k)));
    Before(c2, e2, [Turn] + Clears(k));
    Before(c3, Turn, Clears(k));
  }

  /**
    Nor can anything be opened while the handler, stopped by such a task, shuts
    down: if its answers still come over the connection it is ready when the
    shutdown takes that away.
   */
  lemma OpenedInTheLastDrain(c: C, i: nat)
    requires Inv(c) && c.ready && c.exiting && c.stack.On? && c.stack.top.Drain?
    requires i < |c.members| && !c.members[i].cfg.listener
    ensures !Enabled(c, Open(i))
    ensures var c1 := Step(c, Open(i));
      var c2 := Step(c1, Happens(i, Granted(Trx.OpenFor(Trx.ForSetup))));
      var c3 := Step(c2, Happens(i, Granted(Trx.Exchange(c.members[i].cfg.exchange))));
      var c4 := Step(c3, Turn);
      var d := Step(c4, Drained);
      && Enabled(c1, Happens(i, Granted(Trx.OpenFor(Trx.ForSetup))))
      && Enabled(c2, Happens(i, Granted(Trx.Exchange(c.members[i].cfg.exchange))))
      && Enabled(c3, Turn) && Enabled(c4, Drained)
      && d.connection == None && i < |d.members|
      && d.members[i].t.state == Trx.Ready && d.members[i].t.connection == c.connection
  {
    var cfg, t := c.members[i].cfg, c.members[i].t;
    ExitingIsEnded(c, i);
    var t1 := Trx.Step(cfg, t, Trx.Start(c.connection));
    var t2 := Trx.Step(cfg, t1, Granted(Trx.OpenFor(Trx.ForSetup)));
    var t3 := Trx.Step(cfg, t2, Granted(Trx.Exchange(cfg.exchange)));
    hide Step, Enabled, Inv, OpeningIn, Trx.Step, Trx.Enabled, Granted;
    var c1 := Step(c, Open(i));
    var c2 := Step(c1, Happens(i, Granted(Trx.OpenFor(Trx.ForSetup))));
    TwoGrants(cfg, t, c.connection.value);
    Opened(c, i);
    Answered(c, c1, i, t1, Granted(Trx.OpenFor(Trx.ForSetup)));
    Answered(c, c2, i, t2, Granted(Trx.Exchange(cfg.exchange)));
    OpeningEnds(c, Step(c2, Happens(i, Granted(Trx.Exchange(cfg.exchange)))), i, t3);
    LastDrainEnds(c.(members := c.members[i := c.members[i].(t := t3)]));
  }

  lemma ExitingIsEnded(c: C, i: nat)
    requires Inv(c) && c.ready && c.exiting && i < |c.members|
    ensures Ended(c.members[i]) && c.connection.Some? && !Enabled(c, Open(i))
  {
    hide AllSound, Ended;
  }

  lemma LastDrainEnds(c: C)
    requires c.exiting && c.stack.On? && c.stack.top.Drain?
    ensures Enabled(c, Drained) && Step(c, Drained).connection == None && Step(c, Drained).members == c.members
  {
    hide TellAll;
  }

  lemma PassedIsEnded(c: C, i: nat, k: nat)
    requires Inv(c) && c.link == Up && c.stack.On? && c.stack.top == Task(k) && k <= i < |c.members|
    ensures Ended(c.members[i]) && c.ready && c.connection.Some? && !Enabled(c, Open(i))
  {
    hide AllSound;
  }

  // Such a task can be waited for: two transceivers that only send, one opened, and a stop.

  function TheClose(t: Trx.T): Trx.Event {
    Trx.Answer(Trx.Request(t.channel, Trx.Close), Trx.Ok(""))
  }

  lemma StopThenClose(cfg: Trx.Config, t: Trx.T)
    requires t.state == Trx.Ready && !cfg.listener
    ensures var u := Trx.Step(cfg, t, Trx.Stop);
      && u.state == Trx.CloseChannel && u.channel == t.channel
      && Trx.Enabled(u, TheClose(t)) && Trx.Step(cfg, u, TheClose(t)).state == Trx.End
  {
  }

  /** A stop with one transceiver ready and one idle: its task goes past the idle one and waits for the other. */
  lemma TaskWaitsForOne(c: C)
    requires Flags(c) && c.link == Up && c.stack.Empty? && |c.members| == 2
    requires c.members[0].t.state == Trx.Ready && !c.members[0].cfg.listener && Ended(c.members[1])
    requires c.tasks == 0
    ensures var c1 := Step(c, Stop);
      var c2 := Step(c1, BeginTask);
      var d := Step(c2, Turn);
      && Enabled(c, Stop) && Enabled(c1, BeginTask) && Enabled(c2, Turn)
      && d.link == Up && d.stack == On(Task(1), Empty) && |d.members| == 2
      && d.members[0] == Tell(c.members[0], Trx.Stop) && d.members[1] == c.members[1]
  {
    hide Trx.Step;
    RestsOnStop(c.members[1]);
  }

  lemma RestsOnStop(m: Member)
    requires Ended(m)
    ensures Tell(m, Trx.Stop) == m
  {
  }

  lemma OpeningIsAllowed(c: C)
    requires c.stack.Empty? && c.members != [] && !c.exiting
    ensures Enabled(c, Open(0))
  {
  }

  /** Two idle transceivers that only send, with a connection, and one of them opened. */
  lemma OneIsOpened(c: C)
    requires c.ready && c.connection.Some? && c.stack.Empty? && |c.members| == 2 && !c.exiting
    requires Ended(c.members[0]) && !c.members[0].cfg.listener
    ensures var c1 := Step(c, Open(0));
      var c2 := Step(c1, Happens(0, Granted(Trx.OpenFor(Trx.ForSetup))));
      var c3 := Step(c2, Happens(0, Granted(Trx.Exchange(c.members[0].cfg.exchange))));
      var d := Step(c3, Turn);
      && Enabled(c, Open(0))
      && Enabled(c1, Happens(0, Granted(Trx.OpenFor(Trx.ForSetup))))
      && Enabled(c2, Happens(0, Granted(Trx.Exchange(c.members[0].cfg.exchange)))) && Enabled(c3, Turn)
      && d == c.(members := d.members) && |d.members| == 2 && d.members[1] == c.members[1]
      && d.members[0].cfg == c.members[0].cfg && d.members[0].t.state == Trx.Ready
  {
    var cfg, t := c.members[0].cfg, c.members[0].t;
    var t1 := Trx.Step(cfg, t, Trx.Start(c.connection));
    var t2 := Trx.Step(cfg, t1, Granted(Trx.OpenFor(Trx.ForSetup)));
    var t3 := Trx.Step(cfg, t2, Granted(Trx.Exchange(cfg.exchange)));
    hide Step, Enabled, OpeningIn, Trx.Step, Trx.Enabled;
    OpeningIsAllowed(c);
    TwoGrants(cfg, t, c.connection.value);
    Opened(c, 0);
    var c1 := Step(c, Open(0));
    Answered(c, c1, 0, t1, Granted(Trx.OpenFor(Trx.ForSetup)));
    var c2 := Step(c1, Happens(0, Granted(Trx.OpenFor(Trx.ForSetup))));
    Answered(c, c2, 0, t2, Granted(Trx.Exchange(cfg.exchange)));
    OpeningEnds(c, Step(c2, Happens(0, Granted(Trx.Exchange(cfg.exchange)))), 0, t3);
  }

  lemma TwoAreAdded(cfg: Trx.Config)
    ensures var c1 := Step(FRESH, Add(cfg));
      var c2 := Step(c1, Add(cfg));
      var c3 := Step(c2, AsyncStart);
      var c := Step(c3, ConnectOk);
      && Enabled(FRESH, Add(cfg)) && Enabled(c1, Add(cfg)) && Enabled(c2, AsyncStart) && Enabled(c3, ConnectOk)
      && c.link == Up && c.ready && c.connection.Some? && !c.exiting && !c.amqpError && c.stack.Empty?
      && c.tasks == 0 && c.members == [Member(cfg, Trx.FRESH), Member(cfg, Trx.FRESH)]
  {
  }

  const SENDER: Trx.Config := Trx.Config("exchange", "", "", false)

  /** What leads to a task that has gone past one transceiver and waits for another, and is legal all the way. */
  const UNTIL_THE_TASK_WAITS: seq<Event> :=
    [Add(SENDER)] + ([Add(SENDER)] + ([AsyncStart] + ([ConnectOk] + (
    [Open(0)] + (
    [Happens(0, Granted(Trx.OpenFor(Trx.ForSetup)))] + (
    [Happens(0, Granted(Trx.Exchange("exchange")))] + ([Turn] + (
    [Stop] + ([BeginTask] + ([Turn] + []))))))))))

  /** So the state `OpenedBehindATask` starts from does come about. */
  lemma ATaskWaits()
    ensures Legal(FRESH, UNTIL_THE_TASK_WAITS)
    ensures var c := Exec(FRESH, UNTIL_THE_TASK_WAITS);
      && Inv(c) && c.link == Up && c.stack == On(Task(1), Empty) && |c.members| == 2
      && !c.members[1].cfg.listener
      && exists last :: Trx.Enabled(c.members[0].t, last) && !last.Start? && Ended(Tell(c.members[0], last))
  {
    var a1 := Step(FRESH, Add(SENDER));
    var a2 := Step(a1, Add(SENDER));
    var a3 := Step(a2, AsyncStart);
    var a := Step(a3, ConnectOk);
    var g1, g2 := Happens(0, Granted(Trx.OpenFor(Trx.ForSetup))), Happens(0, Granted(Trx.Exchange("exchange")));
    var b1 := Step(a, Open(0));
    var b2 := Step(b1, g1);
    var b3 := Step(b2, g2);
    var b := Step(b3, Turn);
    var d1 := Step(b, Stop);
    var d2 := Step(d1, BeginTask);
    var d := Step(d2, Turn);
    hide Step, Enabled, Exec, Legal, Inv, Tell, Trx.Step, Trx.Enabled, Granted, TheClose;
    TwoAreAdded(SENDER);
    OneIsOpened(a);
    UpIsFine(b);
    TaskWaitsForOne(b);
    StopThenClose(SENDER, b.members[0].t);
    ClosesAtLast(b.members[0], TheClose(b.members[0].t));
    var e11 := [Turn] + [];
    var e10 := [BeginTask] + e11;
    var e9 := [Stop] + e10;
    var e8 := [Turn] + e9;
    var e7 := [g2] + e8;
    var e6 := [g1] + e7;
    var e5 := [Open(0)] + e6;
    var e4 := [ConnectOk] + e5;
    var e3 := [AsyncStart] + e4;
    var e2 := [Add(SENDER)] + e3;
    Before(FRESH, Add(SENDER), e2);
    Before(a1, Add(SENDER), e3);
    Before(a2, AsyncStart, e4);
    Before(a3, ConnectOk, e5);
    Before(a, Open(0), e6);
    Before(b1, g1, e7);
    Before(b2, g2, e8);
    Before(b3, Turn, e9);
    Before(b, Stop, e10);
    Before(d1, BeginTask, e11);
    Before(d2, Turn, []);
    AtTheEnd(d);
    FreshKeepsInv();
    RunKeepsInv(FRESH, UNTIL_THE_TASK_WAITS);
  }

  lemma AtTheEnd(c: C)
    ensures Exec(c, []) == c && Legal(c, [])
  {
  }

  lemma FreshKeepsInv()
    ensures Inv(FRESH)
  {
  }

  lemma UpIsFine(c: C)
    requires c.link == Up && c.ready && c.connection.Some? && !c.exiting && !c.amqpError && c.stack.Empty?
    ensures Flags(c)
  {
  }

  lemma ClosesAtLast(m: Member, last: Trx.Event)
    requires Trx.Step(m.cfg, Trx.Step(m.cfg, m.t, Trx.Stop), last).state == Trx.End
    ensures Ended(Tell(Tell(m, Trx.Stop), last)) && Tell(m, Trx.Stop).t == Trx.Step(m.cfg, m.t, Trx.Stop)
  {
    hide Trx.Step;
  }

  // ---------------------------------------------------------------- run behind a stop

  lemma RunsIdle(c: C, i: nat)
    requires Inv(c) && c.link == Up && i < |c.members| && Ended(c.members[i])
    requires MayStart(c, |c.members| - 1)
    ensures var d := Step(Step(c, Stop), Run);
      && Enabled(c, Stop) && Enabled(Step(c, Stop), Run)
      && d.link == Up && d.ready && d.tasks > 0 && |d.members| == |c.members|
      && d.members[i] == Tell(c.members[i], Trx.Start(c.connection))
  {
    hide Tell, TasksSeen, AllSound, Passed;
    RestsOnStop(c.members[i]);
  }

  /**
    A `run` after a `stop` starts what was idle, and nobody stops it any more. A
    transceiver that only sends is ready after two grants, with the task of the
    stop still to come; and `KeptForEver` says that the stop is not answered then
    until something else happens to the transceiver or the connection.
   */
  lemma RunBehindAStop(c: C, i: nat, es: seq<Event>)
    requires Inv(c) && c.link == Up && i < |c.members| && Ended(c.members[i]) && !c.members[i].cfg.listener
    requires MayStart(c, |c.members| - 1)
    ensures var c2 := Step(Step(c, Stop), Run);
      var c3 := Step(c2, Happens(i, Granted(Trx.OpenFor(Trx.ForSetup))));
      var d := Step(c3, Happens(i, Granted(Trx.Exchange(c.members[i].cfg.exchange))));
      && Enabled(c, Stop) && Enabled(Step(c, Stop), Run)
      && Enabled(c2, Happens(i, Granted(Trx.OpenFor(Trx.ForSetup))))
      && Enabled(c3, Happens(i, Granted(Trx.Exchange(c.members[i].cfg.exchange))))
      && d.tasks > 0 && Kept(d, i)
      && (Legal(d, es) && (forall e | e in es :: Undisturbed(e, i)) ==>
            Kept(Exec(d, es), i) && Exec(d, es).exits == d.exits)
  {
    var cfg, t := c.members[i].cfg, c.members[i].t;
    var g1, g2 := Granted(Trx.OpenFor(Trx.ForSetup)), Granted(Trx.Exchange(cfg.exchange));
    assert c.connection.Some?;
    var t1 := Trx.Step(cfg, t, Trx.Start(c.connection));
    var t2 := Trx.Step(cfg, t1, g1);
    hide Step, Enabled, Legal, Exec, Inv, MayStart, Undisturbed, Trx.Step, Trx.Enabled;
    RunsIdle(c, i);
    TwoGrants(cfg, t, c.connection.value);
    var c1 := Step(c, Stop);
    var c2 := Step(c1, Run);
    HappensTo(c2, i, g1);
    var c3 := Step(c2, Happens(i, g1));
    HappensTo(c3, i, g2);
    var d := Step(c3, Happens(i, g2));
    StepKeepsInv(c, Stop);
    StepKeepsInv(c1, Run);
    StepKeepsInv(c2, Happens(i, g1));
    StepKeepsInv(c3, Happens(i, g2));
    if Legal(d, es) && forall e | e in es :: Undisturbed(e, i) { KeptForEver(d, i, es); }
  }

  lemma HappensTo(c: C, i: nat, e: Trx.Event)
    requires i < |c.members| && Trx.Enabled(c.members[i].t, e) && !e.Start?
    ensures Enabled(c, Happens(i, e))
    ensures Step(c, Happens(i, e)) ==
            c.(members := c.members[i := c.members[i].(t := Trx.Step(c.members[i].cfg, c.members[i].t, e))])
  {
    hide Trx.Step, Trx.Enabled;
  }
}
