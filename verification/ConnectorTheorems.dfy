/** Whole runs of one connector, and what every event of a run keeps. */
module ConnectorTheorems {
  import opened Options
  import opened ConnectorSpec
  import Trx = TransceiverSpec
  import TrxInv = TransceiverInvariant
  import TrxHistory = TransceiverHistory

  function Exec(c: C, es: seq<Event>): C
    decreases es
  {
    if es == [] then c else Exec(Step(c, es[0]), es[1..])
  }

  predicate Legal(c: C, es: seq<Event>)
    decreases es
  {
    es == [] || (Enabled(c, es[0]) && Legal(Step(c, es[0]), es[1..]))
  }

  // ---------------------------------------------------------------- the invariant

  /** A transceiver in the list keeps its own invariant, and if it runs its pointer is to the connection there is. */
  ghost predicate Sound(m: Member, connection: Option<nat>) {
    && TrxInv.Inv(m.cfg, m.t)
    && (!Ended(m) ==> m.t.connection == connection)
  }

  ghost predicate AllSound(ms: seq<Member>, connection: Option<nat>) {
    forall m | m in ms :: Sound(m, connection)
  }

  /** Every task that waits has seen the transceivers it has gone past come to their end. */
  predicate TasksSeen(stack: Stack, ms: seq<Member>) {
    stack.Empty? ||
    (TasksSeen(stack.below, ms) &&
     (stack.top.Task? ==> stack.top.i <= |ms| && forall j | stack.top.i <= j < |ms| :: Ended(ms[j])))
  }

  /** The flags, the handler and the waits fit together. */
  predicate Flags(c: C) {
    && (c.connection.Some? <==> c.ready)
    && match c.link
       case Down => true
       case Connecting =>
         !c.ready && !c.exiting && !c.amqpError && c.tasks == 0 && !HasTask(c.stack) && Drains(c.stack) == 0
       case Up => c.ready && !c.exiting && Drains(c.stack) == 0 && !c.amqpError
       case Draining => Drains(c.stack) > 0
  }

  /** The transceivers fit the connection, the waits and the flag. */
  ghost predicate Tidy(c: C) {
    && AllSound(c.members, c.connection)
    && TasksSeen(c.stack, c.members)
    && (c.exiting ==> AllEnded(c.members))
  }

  ghost predicate Inv(c: C) {
    Flags(c) && Tidy(c)
  }

  // ---------------------------------------------------------------- one transceiver

  lemma ReactKeepsConnection(cfg: Trx.Config, t: Trx.T, e: Trx.Event)
    requires !e.Start?
    ensures Trx.React(cfg, t, e).s.connection == t.connection
    ensures Trx.React(cfg, t, e).Stay? ==> Trx.React(cfg, t, e).s.state == t.state
  {
    hide Trx.Accepts, Trx.Next, Trx.Granted, Trx.Blame;
  }

  lemma SettleKeepsConnection(cfg: Trx.Config, t: Trx.T)
    ensures Trx.Settle(cfg, t).connection == t.connection
  {
  }

  lemma ActKeepsConnection(cfg: Trx.Config, t: Trx.T)
    ensures Trx.Act(cfg, t).state == t.state
    ensures t.state == Trx.End || Trx.Act(cfg, t).connection == t.connection
  {
  }

  lemma EnterKeepsConnection(cfg: Trx.Config, t: Trx.T)
    ensures Trx.Enter(cfg, t).state == Trx.End || Trx.Enter(cfg, t).connection == t.connection
  {
    hide Trx.Act, Trx.Settle;
    SettleKeepsConnection(cfg, t);
    ActKeepsConnection(cfg, Trx.Settle(cfg, t));
  }

  /** A step other than a start leaves a transceiver that goes on running its connection. */
  lemma KeepsConnection(cfg: Trx.Config, t: Trx.T, e: Trx.Event)
    requires !e.Start?
    ensures Trx.Step(cfg, t, e).state == Trx.End || Trx.Step(cfg, t, e).connection == t.connection
  {
    hide Trx.React, Trx.Enter;
    ReactKeepsConnection(cfg, t, e);
    match Trx.React(cfg, t, e)
    case Stay(_) =>
    case Go(s) => EnterKeepsConnection(cfg, s);
  }

  lemma TellKeepsSound(m: Member, connection: Option<nat>, e: Trx.Event)
    requires Sound(m, connection) && Trx.Enabled(m.t, e) && !e.Start?
    ensures Sound(Tell(m, e), connection)
    ensures Ended(m) ==> Tell(m, e) == m
  {
    hide Trx.Step, TrxInv.Inv;
    TrxInv.StepKeepsInv(m.cfg, m.t, e);
    if Ended(m) {
      TrxHistory.AtRestUntilStarted(m.cfg, m.t, e);
    } else {
      KeepsConnection(m.cfg, m.t, e);
    }
  }

  lemma StartTakesConnection(cfg: Trx.Config, t: Trx.T, connection: Option<nat>)
    requires connection.Some? && t.state == Trx.End
    ensures Trx.Step(cfg, t, Trx.Start(connection)).connection == connection
  {
  }

  lemma StartKeepsSound(m: Member, connection: Option<nat>)
    requires Sound(m, connection) && connection.Some? && Ended(m)
    ensures Sound(Tell(m, Trx.Start(connection)), connection)
  {
    hide Trx.Step, TrxInv.Inv;
    TrxInv.StepKeepsInv(m.cfg, m.t, Trx.Start(connection));
    StartTakesConnection(m.cfg, m.t, connection);
  }

  lemma DropEnds(m: Member)
    ensures Ended(Tell(m, Trx.Drop))
  {
  }

  lemma NoConnectionNoRun(m: Member)
    requires Sound(m, None)
    ensures Ended(m)
  {
    hide TrxInv.Outstanding, TrxInv.Knowledge, TrxInv.Codes, TrxInv.RecordOk;
  }

  // ---------------------------------------------------------------- the list

  lemma TellAllKeepsSound(ms: seq<Member>, connection: Option<nat>, e: Trx.Event)
    requires AllSound(ms, connection) && (e.Stop? || e.Drop?)
    ensures AllSound(TellAll(ms, e), connection) && |TellAll(ms, e)| == |ms|
    ensures forall j | 0 <= j < |ms| && Ended(ms[j]) :: TellAll(ms, e)[j] == ms[j]
    ensures e.Drop? ==> AllEnded(TellAll(ms, e))
  {
    hide Sound, Tell, Ended;
    forall j | 0 <= j < |ms|
      ensures Sound(Tell(ms[j], e), connection)
      ensures Ended(ms[j]) ==> Tell(ms[j], e) == ms[j]
      ensures e.Drop? ==> Ended(Tell(ms[j], e))
    {
      assert ms[j] in ms;
      TellKeepsSound(ms[j], connection, e);
      DropEnds(ms[j]);
    }
  }

  lemma StartIdleKeepsSound(ms: seq<Member>, connection: Option<nat>)
    requires AllSound(ms, connection) && connection.Some?
    ensures AllSound(StartIdle(ms, connection), connection) && |StartIdle(ms, connection)| == |ms|
  {
    hide Sound, Tell;
    forall j | 0 <= j < |ms|
      ensures Sound(ms[j], connection)
      ensures Ended(ms[j]) ==> Sound(Tell(ms[j], Trx.Start(connection)), connection)
    {
      assert ms[j] in ms;
      if Ended(ms[j]) { StartKeepsSound(ms[j], connection); }
    }
  }

  lemma RunningNeedsAConnection(ms: seq<Member>)
    requires AllSound(ms, None)
    ensures AllEnded(ms)
  {
    forall m | m in ms ensures Ended(m) { NoConnectionNoRun(m); }
  }

  /** With every transceiver at its end, the connection may go. */
  lemma EndedAreSound(ms: seq<Member>, connection: Option<nat>, other: Option<nat>)
    requires AllSound(ms, connection) && AllEnded(ms)
    ensures AllSound(ms, other)
  {
    hide TrxInv.Inv;
  }

  // ---------------------------------------------------------------- the waits

  lemma {:induction false} TasksSeenStays(stack: Stack, ms: seq<Member>, ns: seq<Member>)
    requires TasksSeen(stack, ms) && |ms| <= |ns|
    requires forall j | 0 <= j < |ms| && Ended(ms[j]) :: Ended(ns[j])
    requires forall j | |ms| <= j < |ns| :: Ended(ns[j])
    ensures TasksSeen(stack, ns)
    decreases stack
  {
    hide Ended;
    if stack.On? { TasksSeenStays(stack.below, ms, ns); }
  }

  /** A start that no waiting task has gone past disturbs none. */
  lemma {:induction false} TasksSeenBefore(stack: Stack, ms: seq<Member>, ns: seq<Member>, i: nat)
    requires TasksSeen(stack, ms) && |ms| == |ns| && !Passed(stack, i)
    requires forall j | i < j < |ms| && Ended(ms[j]) :: Ended(ns[j])
    ensures TasksSeen(stack, ns)
    decreases stack
  {
    hide Ended;
    if stack.On? { TasksSeenBefore(stack.below, ms, ns, i); }
  }

  lemma {:induction false} AllSeen(stack: Stack, ms: seq<Member>)
    requires TasksSeen(stack, ms) && stack.On? && stack.top == Task(0)
    ensures AllEnded(ms)
  {
  }

  // ---------------------------------------------------------------- every step keeps the flags

  lemma FlagsAfterShutdown(c: C)
    requires Flags(c) && c.link == Down
    ensures Flags(OnShutdown(c)) && OnShutdown(c).link == Down
  {
    hide TellAll;
  }

  lemma FlagsAfterTurn(c: C)
    requires Flags(c) && c.stack.On? && !c.stack.top.Drain?
    ensures Flags(TakeTurn(c))
  {
    hide Ended, Passes;
  }

  lemma StepKeepsFlags(c: C, e: Event)
    requires Flags(c) && Enabled(c, e)
    ensures Flags(Step(c, e))
  {
    hide OnShutdown, TakeTurn, Tell, TellAll, StartIdle, Ended, MayStart, Trx.Enabled;
    match e
    case ConnectFails => FlagsAfterShutdown(c.(link := Down));
    case Drained => FlagsAfterShutdown(Pop(c).(link := Down));
    case Turn => FlagsAfterTurn(c);
    case _ =>
  }

  // ---------------------------------------------------------------- every step keeps the transceivers sound

  lemma ReleaseKeepsSound(c: C, code: ExitCode)
    requires AllSound(c.members, c.connection) && AllEnded(c.members)
    ensures AllSound(Release(c, code).members, None)
  {
    EndedAreSound(c.members, c.connection, None);
  }

  lemma ShutdownKeepsSound(c: C)
    requires Flags(c) && AllSound(c.members, c.connection) && (c.exiting ==> AllEnded(c.members))
    ensures var d := OnShutdown(c);
      && AllSound(d.members, d.connection) && |d.members| == |c.members|
      && (d.exiting ==> AllEnded(d.members))
      && (forall j | 0 <= j < |c.members| && Ended(c.members[j]) :: Ended(d.members[j]))
      && (d.ready != c.ready ==> AllEnded(d.members))
      && d.stack == c.stack
  {
    hide Sound, TellAll, Ended, AllSound, AllEnded;
    if c.exiting {
      ReleaseKeepsSound(c, Normal);
    } else if !c.ready {
      RunningNeedsAConnection(c.members);
      ReleaseKeepsSound(c, BrokerConnectError);
    } else if c.amqpError {
      TellAllKeepsSound(c.members, c.connection, Trx.Drop);
      ReleaseKeepsSound(c.(members := TellAll(c.members, Trx.Drop)), AmqpError);
    } else {
      TellAllKeepsSound(c.members, c.connection, Trx.Stop);
    }
  }

  lemma EndStaysEnded(ms: seq<Member>, ns: seq<Member>)
    requires AllEnded(ms) && |ms| == |ns|
    requires forall j | 0 <= j < |ms| && Ended(ms[j]) :: Ended(ns[j])
    ensures AllEnded(ns)
  {
    hide Ended;
    forall j | 0 <= j < |ns| ensures Ended(ns[j]) { assert ms[j] in ms; }
  }

  /** One transceiver is told something other than to start. */
  lemma TellKeepsTidy(c: C, i: nat, e: Trx.Event)
    requires Tidy(c) && i < |c.members| && Trx.Enabled(c.members[i].t, e) && !e.Start?
    ensures Tidy(c.(members := c.members[i := Tell(c.members[i], e)]))
  {
    hide Sound, Tell, Ended, TasksSeen, Trx.Enabled, AllEnded;
    TellKeepsSound(c.members[i], c.connection, e) by { assert c.members[i] in c.members; }
    var ns := c.members[i := Tell(c.members[i], e)];
    TasksSeenStays(c.stack, c.members, ns);
    if c.exiting { EndStaysEnded(c.members, ns); }
  }

  lemma StopKeepsTidy(c: C)
    requires Tidy(c)
    ensures Tidy(StopNow(c))
  {
    hide AllSound, Ended, TellAll, TasksSeen, AllEnded;
    TellAllKeepsSound(c.members, c.connection, Trx.Stop);
    TasksSeenStays(c.stack, c.members, TellAll(c.members, Trx.Stop));
    if c.exiting { EndStaysEnded(c.members, TellAll(c.members, Trx.Stop)); }
  }

  lemma StartKeepsTidy(c: C, i: nat)
    requires Flags(c) && Tidy(c) && c.ready && i < |c.members| && Ended(c.members[i]) && MayStart(c, i)
    ensures Tidy(c.(members := c.members[i := Tell(c.members[i], Trx.Start(c.connection))]))
  {
    hide Sound, Tell, Ended, TasksSeen, Passed, AllEnded;
    StartKeepsSound(c.members[i], c.connection) by { assert c.members[i] in c.members; }
    TasksSeenBefore(c.stack, c.members, c.members[i := Tell(c.members[i], Trx.Start(c.connection))], i);
  }

  lemma StartIdleKeepsTidy(c: C)
    requires Flags(c) && Tidy(c) && c.ready && (c.members != [] ==> MayStart(c, |c.members| - 1))
    ensures Tidy(c.(members := StartIdle(c.members, c.connection)))
  {
    hide AllSound, Ended, StartIdle, TasksSeen, Passed, AllEnded;
    StartIdleKeepsSound(c.members, c.connection);
    if c.members == [] {
      assert StartIdle(c.members, c.connection) == c.members;
    } else {
      TasksSeenBefore(c.stack, c.members, StartIdle(c.members, c.connection), |c.members| - 1);
    }
  }

  lemma TurnKeepsTidy(c: C)
    requires Flags(c) && Tidy(c) && c.stack.On? && !c.stack.top.Drain?
    ensures Tidy(TakeTurn(c))
    ensures TakeTurn(c).ready != c.ready ==> AllEnded(TakeTurn(c).members)
  {
    hide AllSound, Ended;
    if c.stack.top == Task(0) {
      AllSeen(c.stack, c.members);
      ReleaseKeepsSound(c, Normal);
    }
  }

  lemma DownKeepsTidy(c: C)
    requires Flags(c) && Tidy(c)
    ensures Tidy(OnShutdown(c)) && (OnShutdown(c).ready != c.ready ==> AllEnded(OnShutdown(c).members))
  {
    hide AllSound, Ended, TasksSeen, OnShutdown, Flags, AllEnded;
    ShutdownKeepsSound(c);
    TasksSeenStays(c.stack, c.members, OnShutdown(c).members);
  }

  lemma AddKeepsTidy(c: C, cfg: Trx.Config)
    requires Tidy(c)
    ensures Tidy(c.(members := c.members + [Member(cfg, Trx.FRESH)]))
  {
    hide TasksSeen, TrxInv.Inv;
    assert TrxInv.Inv(cfg, Trx.FRESH) by { TrxInv.ReachableInv(cfg, []); }
    TasksSeenStays(c.stack, c.members, c.members + [Member(cfg, Trx.FRESH)]);
  }

  lemma CloseKeepsTidy(c: C, i: nat)
    requires Tidy(c) && i < |c.members|
    ensures Tidy(c.(members := c.members[i := Tell(c.members[i], Trx.Stop)]))
  {
    hide Tidy, Tell;
    TellKeepsTidy(c, i, Trx.Stop);
  }

  lemma RemoveKeepsTidy(c: C, i: nat)
    requires Tidy(c) && i < |c.members| && c.stack.Empty?
    ensures Tidy(c.(members := c.members[..i] + c.members[i + 1..]))
  {
    hide Sound, Ended;
    forall m | m in c.members[..i] + c.members[i + 1..] ensures m in c.members {}
  }

  lemma StepKeepsTidy(c: C, e: Event)
    requires Inv(c) && Enabled(c, e)
    ensures Tidy(Step(c, e))
    ensures c.ready && !Step(c, e).ready ==> AllEnded(Step(c, e).members)
  {
    hide AllSound, AllEnded, OnShutdown, TakeTurn, Tell, TellAll, StartIdle, Ended, MayStart, Trx.Enabled;
    match e
    case AsyncStart =>
    case ConnectOk => RunningNeedsAConnection(c.members);
      EndedAreSound(c.members, None, Some(c.made));
    case ConnectFails => DownKeepsTidy(c.(link := Down));
    case Drained => DownKeepsTidy(Pop(c).(link := Down));
    case Stop => StopKeepsTidy(c);
    case Turn => TurnKeepsTidy(c);
    case Open(i) => if Ended(c.members[i]) && c.ready { StartKeepsTidy(c, i); }
    case Close(i) => CloseKeepsTidy(c, i);
    case Run => if c.ready { StartIdleKeepsTidy(c); }
    case Add(cfg) => AddKeepsTidy(c, cfg);
    case Remove(i) => RemoveKeepsTidy(c, i);
    case Happens(i, event) => TellKeepsTidy(c, i, event);
    case _ =>
  }

  lemma StepKeepsInv(c: C, e: Event)
    requires Inv(c) && Enabled(c, e)
    ensures Inv(Step(c, e))
  {
    hide Flags, Tidy, Step, Enabled;
    StepKeepsFlags(c, e);
    StepKeepsTidy(c, e);
  }

  lemma {:induction false} RunKeepsInv(c: C, es: seq<Event>)
    requires Inv(c) && Legal(c, es)
    ensures Inv(Exec(c, es))
    decreases es
  {
    if es != [] {
      hide Inv, Step, Enabled;
      StepKeepsInv(c, es[0]);
      RunKeepsInv(Step(c, es[0]), es[1..]);
    }
  }

  // ---------------------------------------------------------------- safety

  /**
    In every run, a transceiver that is not at its end holds the connection
    there is; the connection is there exactly while the connector is ready; and
    the event that takes it away leaves every transceiver at its end.
   */
  lemma NoDeadConnection(es: seq<Event>, e: Event)
    requires Legal(FRESH, es) && Enabled(Exec(FRESH, es), e)
    ensures var c, d := Exec(FRESH, es), Step(Exec(FRESH, es), e);
      && (c.connection.Some? <==> c.ready)
      && (forall m | m in c.members && !Ended(m) :: c.connection.Some? && m.t.connection == c.connection)
      && (c.connection.Some? && d.connection != c.connection ==> d.connection == None && AllEnded(d.members))
  {
    hide Exec, Step, Enabled, AllEnded, Ended;
    RunKeepsInv(FRESH, es);
    var c := Exec(FRESH, es);
    StepKeepsTidy(c, e);
    StepKeepsFlags(c, e);
    forall m | m in c.members && !Ended(m) ensures c.connection.Some? && m.t.connection == c.connection {
      RunningHolds(m, c.connection);
    }
    if c.connection.Some? { ConnectionStays(c, e); }
  }

  lemma RunningHolds(m: Member, connection: Option<nat>)
    requires Sound(m, connection) && !Ended(m)
    ensures connection.Some? && m.t.connection == connection
  {
    if connection.None? { NoConnectionNoRun(m); }
  }

  lemma ConnectionStays(c: C, e: Event)
    requires Flags(c) && Enabled(c, e) && c.connection.Some?
    ensures Step(c, e).connection == c.connection || (Step(c, e).connection == None && !Step(c, e).ready)
  {
    hide Tell, TellAll, StartIdle, Ended, MayStart, Passes, Trx.Enabled;
  }

  // ---------------------------------------------------------------- which connection it is

  function Connections(es: seq<Event>): nat {
    if es == [] then 0 else (if es[0].ConnectOk? then 1 else 0) + Connections(es[1..])
  }

  /** The connection there is, is the last one made. */
  predicate Newest(c: C) {
    c.connection.Some? ==> c.connection.value + 1 == c.made
  }

  lemma StepKeepsNewest(c: C, e: Event)
    requires Newest(c) && Enabled(c, e)
    ensures Newest(Step(c, e)) && Step(c, e).made == c.made + (if e.ConnectOk? then 1 else 0)
  {
    hide Tell, TellAll, StartIdle, Ended, MayStart, Passes;
  }

  lemma {:induction false} RunKeepsNewest(c: C, es: seq<Event>)
    requires Newest(c) && Legal(c, es)
    ensures Newest(Exec(c, es)) && Exec(c, es).made == c.made + Connections(es)
    decreases es
  {
    if es != [] {
      hide Step, Enabled, Newest;
      StepKeepsNewest(c, es[0]);
      RunKeepsNewest(Step(c, es[0]), es[1..]);
    }
  }

  lemma NoneMadeYet()
    ensures Newest(FRESH) && FRESH.made == 0
  {
  }

  /** Every connection is a new one: with the n-th time the handler connects comes the n-th connection, and no other. */
  lemma EveryConnectionIsNew(es: seq<Event>)
    requires Legal(FRESH, es)
    ensures var c := Exec(FRESH, es);
      c.made == Connections(es) && (c.connection.Some? ==> c.connection.value + 1 == Connections(es))
  {
    hide Exec, Legal, Connections;
    NoneMadeYet();
    RunKeepsNewest(FRESH, es);
  }
}
