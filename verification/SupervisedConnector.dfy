/**
  A supervisor and the connector it wraps, running together: what the supervisor
  asks of the connector, what the connector's session does to the supervisor, and
  that each finds the other to be as its own model has it.
 */
module SupervisedConnector {
  import opened Options
  import opened ConnectorSpec
  import opened ConnectorTheorems
  import opened ConnectorSessions
  import opened ConnectorRest
  import opened ConnectorRefinesSession
  import Sup = ReconnectSpec
  import SupRuns = ReconnectTheorems
  import Trx = TransceiverSpec
  import S = Sessions

  datatype Pair = Pair(r: Sup.R, c: C)

  /** An event of the supervisor, or one of the connector that the supervisor did not ask for. */
  datatype Joint = Supervisor(call: Sup.Event) | Own(event: Event)

  /** What the supervisor asks of the connector: at most one thing. */
  function Asks(r: Sup.R, e: Sup.Event): seq<Event> {
    match e
    case Start(_) => if r.started then [] else [AsyncStart]
    case Stop => if r.started && Sup.Ready(r) then [Stop] else []
    case TimerFires => if r.expired > 0 then [AsyncStart] else []
    case CallbackReturns => if r.greeting > 0 && r.rerun then [Run] else []
    case _ => []
  }

  /** What it asks inside the start callback of the connector. */
  function AsksOnConnect(r: Sup.R): seq<Event> {
    if r.needStop then [Stop] else if !r.callback && r.rerun then [Run] else []
  }

  function After(c: C, es: seq<Event>): C {
    if es == [] then c else Step(c, es[0])
  }

  predicate Allowed(c: C, es: seq<Event>) {
    es != [] ==> Enabled(c, es[0])
  }

  function Follows(r: Sup.R, e: Event): seq<Event> {
    if e.ConnectOk? then AsksOnConnect(r) else []
  }

  function JointStep(p: Pair, j: Joint): Pair {
    match j
    case Supervisor(e) => Pair(Sup.Step(p.r, e), After(p.c, Asks(p.r, e)))
    case Own(e) =>
      var ms := MoveOf(p.c, e);
      Pair(if ms == [] then p.r else Sup.Step(p.r, Sup.Moved(ms[0])), After(Step(p.c, e), Follows(p.r, e)))
  }

  /**
    The connector does what it can do at that point, and what it is asked for it
    can do; only the supervisor starts it; and its handler is not made to shut
    down while it is shutting down.
   */
  predicate JointEnabled(p: Pair, j: Joint) {
    match j
    case Supervisor(e) => !e.Moved? && Sup.Enabled(p.r, e) && Allowed(p.c, Asks(p.r, e))
    case Own(e) =>
      && Enabled(p.c, e) && !Clashes(p.c, e) && (e.AsyncStart? ==> p.c.ready)
      && Allowed(Step(p.c, e), Follows(p.r, e))
  }

  function JointExec(p: Pair, js: seq<Joint>): Pair
    decreases js
  {
    if js == [] then p else JointExec(JointStep(p, js[0]), js[1..])
  }

  predicate JointLegal(p: Pair, js: seq<Joint>)
    decreases js
  {
    js == [] || (JointEnabled(p, js[0]) && JointLegal(JointStep(p, js[0]), js[1..]))
  }

  /** What of a joint step is an event of the supervisor, and of the connector. */
  function OfSupervisor(p: Pair, j: Joint): seq<Sup.Event> {
    match j
    case Supervisor(e) => [e]
    case Own(e) => if MoveOf(p.c, e) == [] then [] else [Sup.Moved(MoveOf(p.c, e)[0])]
  }

  function OfConnector(p: Pair, j: Joint): seq<Event> {
    match j
    case Supervisor(e) => Asks(p.r, e)
    case Own(e) => [e] + Follows(p.r, e)
  }

  function AllOfSupervisor(p: Pair, js: seq<Joint>): seq<Sup.Event>
    decreases js
  {
    if js == [] then [] else OfSupervisor(p, js[0]) + AllOfSupervisor(JointStep(p, js[0]), js[1..])
  }

  function AllOfConnector(p: Pair, js: seq<Joint>): seq<Event>
    decreases js
  {
    if js == [] then [] else OfConnector(p, js[0]) + AllOfConnector(JointStep(p, js[0]), js[1..])
  }

  // ---------------------------------------------------------------- they agree

  /** The session the supervisor counts on is the one the connector is in. */
  ghost predicate Together(p: Pair) {
    Seen(p.c) == p.r.session && Inv(p.c) && Orderly(p.c) && SupRuns.Inv(p.r)
  }

  lemma AskedKeepsSession(c: C, e: Event)
    requires Flags(c) && Enabled(c, e) && (e.AsyncStart? || e.Stop? || e.Run?)
    ensures Seen(Step(c, e)) ==
      if e.AsyncStart? && !c.ready then S.Connecting
      else if e.Stop? && c.ready then S.Closing
      else Seen(c)
    ensures !Clashes(c, e)
  {
    hide TellAll, StartIdle, MayStart;
  }

  lemma SeenReady(c: C)
    requires Flags(c)
    ensures Seen(c) == S.Up || Seen(c) == S.Closing <==> c.ready
    ensures Seen(c) == S.Idle ==> !c.ready
  {
  }

  lemma CallMatches(p: Pair, e: Sup.Event)
    requires Flags(p.c) && Seen(p.c) == p.r.session && SupRuns.Inv(p.r)
    requires JointEnabled(p, Supervisor(e))
    ensures Seen(After(p.c, Asks(p.r, e))) == Sup.Step(p.r, e).session
  {
    hide Step, Enabled, Flags, Seen, Clashes, SupRuns.HooksOf;
    SeenReady(p.c);
    if Asks(p.r, e) != [] { AskedKeepsSession(p.c, Asks(p.r, e)[0]); }
  }

  lemma AskedKeepsRest(c: C, es: seq<Event>)
    requires Inv(c) && Orderly(c) && Allowed(c, es) && |es| <= 1
    requires es != [] ==> es[0].AsyncStart? || es[0].Stop? || es[0].Run?
    ensures Inv(After(c, es)) && Orderly(After(c, es)) && Legal(c, es) && Quiet(c, es) && Exec(c, es) == After(c, es)
  {
    if es != [] {
      StepKeepsInv(c, es[0]);
      AskedKeepsSession(c, es[0]);
      StepStaysOrderly(c, es[0]);
      assert es[1..] == [];
      hide Step, Enabled, Inv, Orderly, Clashes;
    }
  }

  lemma MoveMatches(c: C, e: Event)
    requires Inv(c) && Orderly(c) && Enabled(c, e) && !Clashes(c, e) && (e.AsyncStart? ==> c.ready)
    ensures var ms := MoveOf(c, e);
      if ms == [] then Seen(Step(c, e)) == Seen(c)
      else S.MayHappen(Seen(c), ms[0]) && !ms[0].Begins? && Seen(Step(c, e)) == S.After(ms[0])
    ensures MoveOf(c, e) != [] && MoveOf(c, e)[0] == S.Connects <==> e.ConnectOk?
  {
    StepFits(c, e);
    hide Step, Seen, Stopping, Orderly, Clashes, Enabled, Inv;
  }

  lemma SupervisorMoves(r: Sup.R, m: S.Move)
    ensures Sup.Step(r, Sup.Moved(m)).session ==
            if m == S.Connects && r.needStop then S.Closing else S.After(m)
  {
    hide Sup.RestartWithin;
  }

  lemma OwnMatches(p: Pair, e: Event)
    requires Together(p) && JointEnabled(p, Own(e))
    ensures Seen(JointStep(p, Own(e)).c) == JointStep(p, Own(e)).r.session
    ensures MoveOf(p.c, e) != [] ==> Sup.Enabled(p.r, Sup.Moved(MoveOf(p.c, e)[0]))
    ensures Inv(Step(p.c, e)) && Orderly(Step(p.c, e))
  {
    hide Step, Enabled, Flags, Tidy, Orderly, Seen, Clashes, MoveOf, SupRuns.Inv, Sup.Started, Sup.Exit;
    var ms := MoveOf(p.c, e);
    MoveMatches(p.c, e);
    StepKeepsInv(p.c, e);
    StepStaysOrderly(p.c, e);
    if ms != [] { SupervisorMoves(p.r, ms[0]); }
    var d := Step(p.c, e);
    SeenReady(d);
    if Follows(p.r, e) != [] { AskedKeepsSession(d, Follows(p.r, e)[0]); }
  }

  lemma JointStepKeeps(p: Pair, j: Joint)
    requires Together(p) && JointEnabled(p, j)
    ensures var q := JointStep(p, j); var xs, es := OfSupervisor(p, j), OfConnector(p, j);
      && Together(q)
      && SupRuns.Legal(p.r, xs) && SupRuns.Exec(p.r, xs) == q.r
      && Legal(p.c, es) && Quiet(p.c, es) && Exec(p.c, es) == q.c
  {
    hide Step, Enabled, Inv, Orderly, Seen, Clashes, MoveOf, Legal, Quiet, Exec,
         Sup.Step, Sup.Enabled, SupRuns.Inv, SupRuns.Legal, SupRuns.Exec;
    match j
    case Supervisor(e) =>
      SplitInv(p.c);
      CallMatches(p, e);
      SupRuns.StepKeepsInv(p.r, e);
      AskedKeepsRest(p.c, Asks(p.r, e));
      OneSupStep(p.r, e);
    case Own(e) =>
      OwnMatches(p, e);
      var ms := MoveOf(p.c, e);
      if ms == [] {
        NoSupStep(p.r);
      } else {
        SupRuns.StepKeepsInv(p.r, Sup.Moved(ms[0]));
        OneSupStep(p.r, Sup.Moved(ms[0]));
      }
      AskedKeepsRest(Step(p.c, e), Follows(p.r, e));
      StepThen(p.c, e, Follows(p.r, e));
  }

  lemma SplitInv(c: C)
    requires Inv(c)
    ensures Flags(c)
  {
    hide Tidy, Flags;
  }

  lemma NoSupStep(r: Sup.R)
    ensures SupRuns.Legal(r, []) && SupRuns.Exec(r, []) == r
  {
  }

  lemma OneSupStep(r: Sup.R, e: Sup.Event)
    requires Sup.Enabled(r, e)
    ensures SupRuns.Legal(r, [e]) && SupRuns.Exec(r, [e]) == Sup.Step(r, e)
  {
    hide Sup.Step, Sup.Enabled;
    assert [e][1..] == [];
    NoSupStep(Sup.Step(r, e));
  }

  lemma StepThen(c: C, e: Event, es: seq<Event>)
    requires Enabled(c, e) && !Clashes(c, e) && Legal(Step(c, e), es) && Quiet(Step(c, e), es)
    ensures Legal(c, [e] + es) && Quiet(c, [e] + es) && Exec(c, [e] + es) == Exec(Step(c, e), es)
  {
    hide Step, Enabled, Clashes;
    assert ([e] + es)[1..] == es;
  }

  lemma {:induction false} Joined(c: C, xs: seq<Event>, ys: seq<Event>)
    requires Legal(c, xs) && Quiet(c, xs) && Legal(Exec(c, xs), ys) && Quiet(Exec(c, xs), ys)
    ensures Legal(c, xs + ys) && Quiet(c, xs + ys) && Exec(c, xs + ys) == Exec(Exec(c, xs), ys)
    decreases xs
  {
    hide Step, Enabled, Clashes;
    if xs == [] {
      assert xs + ys == ys;
    } else {
      Joined(Step(c, xs[0]), xs[1..], ys);
      assert (xs + ys)[0] == xs[0] && (xs + ys)[1..] == xs[1..] + ys;
    }
  }

  lemma {:induction false} SupJoined(r: Sup.R, xs: seq<Sup.Event>, ys: seq<Sup.Event>)
    requires SupRuns.Legal(r, xs) && SupRuns.Legal(SupRuns.Exec(r, xs), ys)
    ensures SupRuns.Legal(r, xs + ys) && SupRuns.Exec(r, xs + ys) == SupRuns.Exec(SupRuns.Exec(r, xs), ys)
    decreases xs
  {
    hide Sup.Step, Sup.Enabled;
    if xs == [] {
      assert xs + ys == ys;
    } else {
      SupJoined(Sup.Step(r, xs[0]), xs[1..], ys);
      assert (xs + ys)[0] == xs[0] && (xs + ys)[1..] == xs[1..] + ys;
    }
  }

  lemma {:induction false} JointRunsAreRuns(p: Pair, js: seq<Joint>)
    requires Together(p) && JointLegal(p, js)
    ensures var q := JointExec(p, js); var xs, es := AllOfSupervisor(p, js), AllOfConnector(p, js);
      && Together(q)
      && SupRuns.Legal(p.r, xs) && SupRuns.Exec(p.r, xs) == q.r
      && Legal(p.c, es) && Quiet(p.c, es) && Exec(p.c, es) == q.c
    decreases js
  {
    hide JointStep, JointEnabled, OfSupervisor, OfConnector, Together, Legal, Quiet, Exec,
         SupRuns.Legal, SupRuns.Exec;
    if js == [] {
      NoSupStep(p.r);
      NoStep(p.c);
    } else {
      var q := JointStep(p, js[0]);
      JointStepKeeps(p, js[0]);
      JointRunsAreRuns(q, js[1..]);
      SupJoined(p.r, OfSupervisor(p, js[0]), AllOfSupervisor(q, js[1..]));
      Joined(p.c, OfConnector(p, js[0]), AllOfConnector(q, js[1..]));
    }
  }

  lemma NoStep(c: C)
    ensures Legal(c, []) && Quiet(c, []) && Exec(c, []) == c
  {
  }

  lemma FreshTogether()
    ensures Together(Pair(Sup.FRESH, FRESH))
  {
  }

  /**
    A supervisor and its connector, running together in whatever order, agree on
    the session all the time, and each goes through a legal run of its own model:
    all that is proved of supervisors over abstract sessions, and of connectors,
    holds of the two.
   */
  lemma EverySupervisedRun(js: seq<Joint>)
    requires JointLegal(Pair(Sup.FRESH, FRESH), js)
    ensures var p := Pair(Sup.FRESH, FRESH);
      var q := JointExec(p, js); var xs, es := AllOfSupervisor(p, js), AllOfConnector(p, js);
      && Seen(q.c) == q.r.session
      && SupRuns.Legal(Sup.FRESH, xs) && SupRuns.Exec(Sup.FRESH, xs) == q.r
      && Legal(FRESH, es) && Quiet(FRESH, es) && Exec(FRESH, es) == q.c
  {
    hide JointLegal, JointExec, AllOfSupervisor, AllOfConnector, Legal, Quiet, Exec, Inv, Orderly, Seen,
         SupRuns.Legal, SupRuns.Exec, SupRuns.Inv;
    FreshTogether();
    JointRunsAreRuns(Pair(Sup.FRESH, FRESH), js);
  }

  // ---------------------------------------------------------------- the next attempt

  lemma RestAllowsAStart(c: C)
    requires Flags(c) && AtRest(c) && !c.ready && c.link != Connecting
    ensures Enabled(c, AsyncStart)
  {
  }

  lemma {:induction false} StaysIdle(c: C, fuel: nat)
    requires Flags(c) && Owing(c) && AllEnded(c.members) && !c.ready && c.link != Connecting
    ensures var t := Exec(c, LeftAlone(c, fuel)); Flags(t) && !t.ready && t.link != Connecting
    decreases fuel
  {
    hide Step, Enabled, Flags, Owing, AllEnded, AtRest, NextAlone, StepAlone, Ending;
    if fuel > 0 && !AtRest(c) {
      AloneIs(c);
      AloneKeeps(c);
      AloneGoesOnEnding(c);
      IdleGoesOn(c);
      StaysIdle(StepAlone(c), fuel - 1);
    }
  }

  lemma IdleGoesOn(c: C)
    requires c.link != Connecting && !AtRest(c)
    ensures StepAlone(c).link != Connecting
  {
  }

  /**
    When a session has ended, tasks and drains of it can be left, and a start would
    come too early; but left alone the connector gets to where the supervisor's
    next attempt is possible.
   */
  lemma NextAttemptIsPossible(c: C)
    requires Inv(c) && Owing(c) && Seen(c) == S.Idle
    ensures var es := LeftAlone(c, Work(c));
      Legal(c, es) && Enabled(Exec(c, es), AsyncStart) && !Exec(c, es).ready
  {
    IdleIsEnded(c);
    hide Step, Enabled, Legal, Exec, Flags, Tidy, Owing, Seen, LeftAlone, Work, AtRest, AllEnded;
    LeftAloneRests(c, Work(c));
    StaysIdle(c, Work(c));
    RestAllowsAStart(Exec(c, LeftAlone(c, Work(c))));
  }

  lemma IdleIsEnded(c: C)
    requires Inv(c) && Seen(c) == S.Idle
    ensures !c.ready && c.link != Connecting && AllEnded(c.members)
  {
    hide AllSound, AllEnded, TasksSeen;
    RunningNeedsAConnection(c.members);
  }
}
