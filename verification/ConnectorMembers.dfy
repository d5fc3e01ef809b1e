/**
  A transceiver in a connector's list goes through a legal run of its own, so
  that what is proved of single transceivers holds of those in the list.
 */
module ConnectorMembers {
  import opened Options
  import opened ConnectorSpec
  import opened ConnectorTheorems
  import opened ConnectorSessions
  import opened ConnectorRest
  import Trx = TransceiverSpec
  import TrxInv = TransceiverInvariant
  import TrxHistory = TransceiverHistory
  import TrxTheorems = TransceiverTheorems

  /** What the shutdown callback tells every transceiver. */
  function ToldOnShutdown(c: C): seq<Trx.Event> {
    if c.exiting || !c.ready then [] else if c.amqpError then [Trx.Drop] else [Trx.Stop]
  }

  /** What an event tells the i-th transceiver: at most one thing. */
  function Told(c: C, e: Event, i: nat): seq<Trx.Event>
    requires i < |c.members|
  {
    match e
    case Drained => ToldOnShutdown(c)
    case Stop => if c.ready then [Trx.Stop] else []
    case Open(j) => if j == i && Ended(c.members[i]) && c.ready then [Trx.Start(c.connection)] else []
    case Close(j) => if j == i && !Ended(c.members[i]) then [Trx.Stop] else []
    case Run => if c.ready && Ended(c.members[i]) then [Trx.Start(c.connection)] else []
    case Happens(j, event) => if j == i then [event] else []
    case _ => []
  }

  predicate Stays(es: seq<Event>) {
    forall e | e in es :: !e.Remove?
  }

  /** What the i-th transceiver is told along a run in which nothing is removed from the list. */
  function History(c: C, es: seq<Event>, i: nat): seq<Trx.Event>
    requires i < |c.members| && Stays(es)
    decreases es
  {
    if es == [] then []
    else
      assert es[0] in es;
      ListGrows(c, es[0]);
      Told(c, es[0], i) + History(Step(c, es[0]), es[1..], i)
  }

  lemma ListGrows(c: C, e: Event)
    requires !e.Remove?
    ensures |Step(c, e).members| >= |c.members|
  {
    hide Tell, Ended, Passes;
  }

  function TellMany(m: Member, es: seq<Trx.Event>): Member {
    m.(t := TrxInv.Exec(m.cfg, m.t, es))
  }

  lemma NoneOrOne(m: Member, e: Trx.Event)
    ensures TellMany(m, []) == m && TrxInv.Legal(m.cfg, m.t, [])
    ensures TellMany(m, [e]) == Tell(m, e)
    ensures TrxInv.Legal(m.cfg, m.t, [e]) <==> Trx.Enabled(m.t, e)
  {
    hide Trx.Step, Trx.Enabled;
    assert [e][1..] == [];
    assert TrxInv.Exec(m.cfg, Trx.Step(m.cfg, m.t, e), []) == Trx.Step(m.cfg, m.t, e);
    assert TrxInv.Legal(m.cfg, Trx.Step(m.cfg, m.t, e), []);
  }

  lemma StepTells(c: C, e: Event, i: nat)
    requires Enabled(c, e) && !e.Remove? && i < |c.members| && |Step(c, e).members| >= |c.members|
    requires Flags(c)
    ensures var told := Told(c, e, i);
      && |told| <= 1
      && Step(c, e).members[i] == (if told == [] then c.members[i] else Tell(c.members[i], told[0]))
      && (told != [] ==> Trx.Enabled(c.members[i].t, told[0]))
  {
    hide Tell, Ended, Passes, MayStart;
  }

  /** One thing told, or none, and then the rest. */
  lemma TellThenMany(m: Member, n: Member, told: seq<Trx.Event>, later: seq<Trx.Event>)
    requires |told| <= 1 && n == (if told == [] then m else Tell(m, told[0]))
    requires told != [] ==> Trx.Enabled(m.t, told[0])
    requires TrxInv.Legal(n.cfg, n.t, later)
    ensures TellMany(m, told + later) == TellMany(n, later)
    ensures TrxInv.Legal(m.cfg, m.t, told + later)
  {
    hide Trx.Step, Trx.Enabled, TrxTheorems.Forward;
    if told == [] {
      assert told + later == later;
    } else {
      assert told == [told[0]];
      NoneOrOne(m, told[0]);
      TrxTheorems.ExecSplit(m.cfg, m.t, told, later);
    }
  }

  /**
    In every run of a connector in which nothing is removed, each transceiver of
    its list has gone through a legal run of its own: what it has been told.
   */
  lemma {:induction false} MembersRun(c: C, es: seq<Event>, i: nat)
    requires Inv(c) && Legal(c, es) && Stays(es) && i < |c.members|
    ensures |Exec(c, es).members| >= |c.members|
    ensures Exec(c, es).members[i] == TellMany(c.members[i], History(c, es, i))
    ensures TrxInv.Legal(c.members[i].cfg, c.members[i].t, History(c, es, i))
    decreases es
  {
    hide Step, Enabled, Tidy, Flags, Told, TellMany, Tell, TrxInv.Legal, Trx.Enabled;
    if es == [] {
      NoneOrOne(c.members[i], Trx.Stop);
    } else {
      assert es[0] in es;
      ListGrows(c, es[0]);
      StepKeepsInv(c, es[0]);
      StepTells(c, es[0], i);
      var d := Step(c, es[0]);
      MembersRun(d, es[1..], i);
      TellThenMany(c.members[i], d.members[i], Told(c, es[0], i), History(d, es[1..], i));
    }
  }

  lemma SoundMember(c: C, i: nat)
    requires Inv(c) && i < |c.members|
    ensures TrxInv.Inv(c.members[i].cfg, c.members[i].t)
  {
    hide TrxInv.Inv, TasksSeen, AllEnded;
    assert c.members[i] in c.members;
  }

  lemma StopTells(c: C, i: nat)
    requires c.ready && i < |c.members|
    ensures var d := Step(c, Stop);
      Enabled(c, Stop) && |d.members| == |c.members| && d.members[i] == Tell(c.members[i], Trx.Stop)
  {
    hide Tell;
  }

  /**
    Stopping the connector brings a transceiver to its end: whatever happens
    after the stop, once the broker has given it five answers it is there, unless
    the stop found it opening its second channel, or it was started again.
   */
  lemma StopEndsEachMember(c: C, es: seq<Event>, i: nat)
    requires Inv(c) && c.ready && i < |c.members| && !Ended(c.members[i])
    requires c.members[i].t.state != Trx.RecreateChannel
    requires Legal(Step(c, Stop), es) && Stays(es)
    requires i < |Step(c, Stop).members|
    requires TrxTheorems.NoStart(History(Step(c, Stop), es, i))
    requires TrxTheorems.Answers(History(Step(c, Stop), es, i)) >= 5
    ensures i < |Exec(Step(c, Stop), es).members| && Ended(Exec(Step(c, Stop), es).members[i])
  {
    hide Step, Enabled, Legal, Exec, Inv, Stays, Trx.Step, TrxInv.Legal, TrxInv.Exec, TrxInv.Inv,
         TrxTheorems.NoStart, TrxTheorems.Answers, History;
    StopTells(c, i);
    SoundMember(c, i);
    StepKeepsInv(c, Stop);
    MembersRun(Step(c, Stop), es, i);
    TrxTheorems.StopEndsTheRun(c.members[i].cfg, c.members[i].t, History(Step(c, Stop), es, i));
  }

  // ---------------------------------------------------------------- a stop that is answered

  lemma {:induction false} EndedUntilStarted(cfg: Trx.Config, t: Trx.T, es: seq<Trx.Event>)
    requires TrxInv.Inv(cfg, t) && t.state == Trx.End && TrxInv.Legal(cfg, t, es) && TrxTheorems.NoStart(es)
    ensures TrxInv.Exec(cfg, t, es) == t
    decreases es
  {
    if es != [] {
      hide TrxInv.Inv, Trx.Step, Trx.Enabled;
      assert es[0] in es;
      TrxHistory.AtRestUntilStarted(cfg, t, es[0]);
      EndedUntilStarted(cfg, t, es[1..]);
    }
  }

  lemma StopKeepsEnded(c: C, i: nat)
    requires c.ready && i < |c.members| && Ended(c.members[i])
    ensures |Step(c, Stop).members| == |c.members| && Step(c, Stop).members[i] == c.members[i]
  {
    StopTells(c, i);
    EndedRests(c.members[i], Trx.Stop);
  }

  lemma EndedStaysEnded(c: C, es: seq<Event>, i: nat)
    requires Inv(c) && i < |c.members| && Ended(c.members[i])
    requires Legal(c, es) && Stays(es) && TrxTheorems.NoStart(History(c, es, i))
    ensures i < |Exec(c, es).members| && Ended(Exec(c, es).members[i])
  {
    hide Step, Enabled, Legal, Exec, Inv, Stays, Trx.Step, TrxInv.Legal, TrxInv.Exec, TrxInv.Inv,
         TrxTheorems.NoStart, History;
    SoundMember(c, i);
    MembersRun(c, es, i);
    EndedUntilStarted(c.members[i].cfg, c.members[i].t, History(c, es, i));
  }

  /** No session is begun, and the list stays. */
  predicate OneSession(es: seq<Event>) {
    forall e | e in es :: !e.AsyncStart? && !e.Remove? && !e.Add?
  }

  lemma ListStays(c: C, e: Event)
    requires !e.Remove? && !e.Add?
    ensures |Step(c, e).members| == |c.members|
  {
    hide Tell, Ended, Passes;
  }

  lemma {:induction false} ListStaysAlong(c: C, es: seq<Event>)
    requires OneSession(es)
    ensures |Exec(c, es).members| == |c.members|
    decreases es
  {
    if es != [] {
      assert es[0] in es;
      hide Step;
      ListStays(c, es[0]);
      ListStaysAlong(Step(c, es[0]), es[1..]);
    }
  }

  /**
    After a stop, the i-th transceiver is not started again; and it was at its end
    then, or the broker has given it five answers since.
   */
  predicate HasAnswered(c: C, es: seq<Event>, i: nat)
    requires i < |c.members| && i < |Step(c, Stop).members| && Stays(es)
  {
    var told := History(Step(c, Stop), es, i);
    && TrxTheorems.NoStart(told)
    && (Ended(c.members[i]) ||
        (c.members[i].t.state != Trx.RecreateChannel && TrxTheorems.Answers(told) >= 5))
  }

  lemma AnsweredIsEnded(c: C, es: seq<Event>, i: nat)
    requires Inv(c) && c.ready && i < |c.members| && i < |Step(c, Stop).members|
    requires Legal(Step(c, Stop), es) && Stays(es) && HasAnswered(c, es, i)
    ensures i < |Exec(Step(c, Stop), es).members| && Ended(Exec(Step(c, Stop), es).members[i])
  {
    hide Step, Enabled, Legal, Exec, Inv, History, TrxTheorems.NoStart, TrxTheorems.Answers;
    if Ended(c.members[i]) {
      StopTells(c, i);
      StopKeepsEnded(c, i);
      StepKeepsInv(c, Stop);
      EndedStaysEnded(Step(c, Stop), es, i);
    } else {
      StopEndsEachMember(c, es, i);
    }
  }

  /** The session is ending, or over, and no other has begun. */
  predicate OnTheWayOut(c: C) {
    if c.ready then Ending(c) else c.link != Connecting
  }

  lemma StepGoesOnOut(c: C, e: Event)
    requires Flags(c) && Owing(c) && OnTheWayOut(c) && Enabled(c, e) && !e.AsyncStart?
    ensures OnTheWayOut(Step(c, e)) && Step(c, e).starts == c.starts
  {
    hide Tell, TellAll, StartIdle, Ended, Passes, MayStart, Trx.Enabled;
  }

  lemma {:induction false} RunGoesOnOut(c: C, es: seq<Event>)
    requires Inv(c) && Owing(c) && OnTheWayOut(c) && Legal(c, es) && OneSession(es)
    ensures OnTheWayOut(Exec(c, es)) && Exec(c, es).starts == c.starts
    decreases es
  {
    if es != [] {
      assert es[0] in es;
      hide Step, Enabled, Flags, Tidy, Owing, OnTheWayOut;
      StepKeepsInv(c, es[0]);
      StepOwes(c, es[0]);
      StepGoesOnOut(c, es[0]);
      RunGoesOnOut(Step(c, es[0]), es[1..]);
    }
  }

  lemma StopBeginsTheEnd(c: C)
    requires Flags(c) && Owing(c) && c.ready
    ensures var d := Step(c, Stop);
      && Enabled(c, Stop) && |d.members| == |c.members| && OnTheWayOut(d)
      && d.exits == c.exits && d.starts == c.starts && Going(d) == Going(c) == 1 && (Orderly(c) ==> Orderly(d))
  {
    hide Tell, HasTask;
  }

  lemma OutIsOver(c: C)
    requires OnTheWayOut(c)
    ensures c.ready ==> Ending(c)
    ensures Going(c) == if c.ready then 1 else 0
    ensures c.ready && !(c.link == Draining && TaskInside(c.stack)) ==> |Expected(c)| == 1
    ensures !c.ready ==> Expected(c) == []
  {
    hide TaskInside, HasTask;
  }

  /**
    A stop of a connector is answered. Whatever happens after it in its session,
    once the broker has given every transceiver that ran five answers, all are at
    their end; and left alone then, the connector comes to rest with the session
    over. If the handler has not been made to shut down twice at once, and no task
    is inside the drain, that is with one exit.
   */
  lemma AnsweredStopEndsTheSession(c: C, es: seq<Event>)
    requires Inv(c) && Owing(c) && c.ready
    requires Legal(Step(c, Stop), es) && OneSession(es)
    requires |Step(c, Stop).members| == |c.members|
    requires forall i | 0 <= i < |c.members| :: HasAnswered(c, es, i)
    ensures var t := Exec(Step(c, Stop), es);
      var u := Exec(t, LeftAlone(t, Work(t)));
      && AllEnded(t.members) && Legal(t, LeftAlone(t, Work(t))) && AtRest(u) && !u.ready
      && (Orderly(c) && Quiet(Step(c, Stop), es) && !(t.link == Draining && TaskInside(t.stack)) ==>
            |u.exits| == |c.exits| + 1)
  {
    hide Step, Enabled, Legal, Exec, Quiet, Flags, Tidy, Owing, Orderly, Ending, HasAnswered, LeftAlone, Work, Ended,
         AtRest, OnTheWayOut, TaskInside, Expected, Going;
    StopBeginsTheEnd(c);
    StepKeepsInv(c, Stop);
    StepOwes(c, Stop);
    var d := Step(c, Stop);
    RunKeepsInv(d, es);
    RunOwes(d, es);
    RunGoesOnOut(d, es);
    ListStaysAlong(d, es);
    var t := Exec(d, es);
    forall i | 0 <= i < |t.members| ensures Ended(t.members[i]) { AnsweredIsEnded(c, es, i); }
    LeftAloneRests(t, Work(t));
    OutIsOver(t);
    if Orderly(c) && Quiet(d, es) {
      RunNamesCauses(d, es);
      RunAddsUp(d, es);
      LeftAloneExits(t, Work(t));
    }
  }
}
