/** What holds of every run of a supervisor. */
module ReconnectTheorems {
  import opened ReconnectSpec
  import Conn = ConnectorSpec
  import S = Sessions

  function Exec(r: R, es: seq<Event>): R
    decreases es
  {
    if es == [] then r else Exec(Step(r, es[0]), es[1..])
  }

  predicate Legal(r: R, es: seq<Event>)
    decreases es
  {
    es == [] || (Enabled(r, es[0]) && Legal(Step(r, es[0]), es[1..]))
  }

  // ---------------------------------------------------------------- the invariant

  function Bit(b: bool): nat {
    if b then 1 else 0
  }

  /** The ways in which an attempt, or what comes of it, can be under way. */
  function Attempts(r: R): nat {
    Bit(r.session == S.Connecting) + Bit(r.armed) + r.expired + Bit(Ready(r))
  }

  function HooksOf(returned: seq<Return>): seq<Hook> {
    if returned == [] then [] else HooksOf(returned[..|returned| - 1]) + [returned[|returned| - 1].hook]
  }

  /** One attempt at a time, and the flags that go with it. */
  predicate Single(r: R) {
    && (r.started ==> Attempts(r) == 1 && r.exitHook == Restart && !r.needStop)
    && (!r.started ==> Attempts(r) <= 1 && !r.armed && r.session != S.Up)
    && (!r.started && Attempts(r) == 1 ==> r.exitHook == Restart && (r.needStop <==> !Ready(r)))
  }

  /** Each start's exit callback is put back, or still out. */
  predicate Saved(r: R) {
    && (r.exitHook == Restart ==> r.backup != Restart)
    && r.record.saved == HooksOf(r.record.returned) + (if r.exitHook == Restart then [r.backup] else [])
    && !r.record.diverged
  }

  /** The start callback has been made, or is still to come. */
  predicate Called(r: R) {
    && (r.callback || r.greeting > 0 ==> r.record.asked)
    && (r.record.greetings > 0 <==> r.record.asked && !(r.callback && r.greeting == 0))
  }

  /** The start callback, and the runs the supervisor owes. */
  predicate Greetings(r: R) {
    && Called(r)
    && (r.started && Ready(r) && r.greeting == 0 ==> !r.callback && !r.rerun)
    && (r.started && r.record.failures > 0 && r.record.lost == 0 ==> r.rerun || (Ready(r) && r.record.ran))
  }

  predicate Inv(r: R) {
    Single(r) && Saved(r) && Greetings(r)
  }

  lemma OneMoreReturn(returned: seq<Return>, x: Return)
    ensures HooksOf(returned + [x]) == HooksOf(returned) + [x.hook]
  {
    assert (returned + [x])[..|returned|] == returned;
  }

  lemma ExitKeepsSaved(r: R, code: Conn.ExitCode)
    requires Saved(r)
    ensures Saved(Exit(r, code))
  {
    hide HooksOf;
    if r.exitHook == Restart {
      OneMoreReturn(r.record.returned, Return(r.backup, code));
    }
  }

  lemma RunKeepsSaved(r: R)
    requires Saved(r)
    ensures Saved(RunIfDue(r))
  {
    hide HooksOf;
  }

  lemma StartedKeepsSaved(r: R)
    requires Saved(r)
    ensures Saved(Started(r)) && Saved(Greeted(r))
  {
    hide HooksOf, RunIfDue;
    RunKeepsSaved(r);
    if r.greeting > 0 { RunKeepsSaved(r.(greeting := r.greeting - 1, callback := false)); }
  }

  lemma StepKeepsSaved(r: R, e: Event)
    requires Saved(r) && Enabled(r, e)
    ensures Saved(Step(r, e))
  {
    hide HooksOf, Exit, Started, Greeted;
    match e
    case Moved(move) =>
      var after := r.(session := S.After(move));
      StartedKeepsSaved(after.(record := after.record.(ran := false)));
      ExitKeepsSaved(after, Conn.BrokerConnectError);
      if move.Exits? { ExitKeepsSaved(after, move.code); }
    case CallbackReturns => StartedKeepsSaved(r);
    case _ =>
  }

  lemma ExitKeepsRest(r: R, code: Conn.ExitCode)
    requires r.session == S.Idle && r.expired == 0 && !r.armed && Called(r)
    requires r.exitHook == Restart && r.backup != Restart && (r.started ==> !r.needStop)
    ensures Single(Exit(r, code)) && Greetings(Exit(r, code))
  {
  }

  lemma StepKeepsRest(r: R, e: Event)
    requires Inv(r) && Enabled(r, e)
    ensures Single(Step(r, e)) && Greetings(Step(r, e))
  {
    hide HooksOf, Exit;
    match e
    case Moved(move) =>
      if move.Fails? || move.Exits? {
        ExitKeepsRest(r.(session := S.Idle), if move.Exits? then move.code else Conn.BrokerConnectError);
      }
    case _ =>
  }

  lemma StepKeepsInv(r: R, e: Event)
    requires Inv(r) && Enabled(r, e)
    ensures Inv(Step(r, e))
  {
    hide Step, Enabled, Single, Saved, Greetings;
    StepKeepsSaved(r, e);
    StepKeepsRest(r, e);
  }

  lemma {:induction false} RunKeepsInv(r: R, es: seq<Event>)
    requires Inv(r) && Legal(r, es)
    ensures Inv(Exec(r, es))
    decreases es
  {
    if es != [] {
      hide Step, Enabled, Inv;
      StepKeepsInv(r, es[0]);
      RunKeepsInv(Step(r, es[0]), es[1..]);
    }
  }

  lemma FreshIsFine()
    ensures Inv(FRESH) && FRESH.record.saved == []
  {
  }

  lemma ReachableInv(es: seq<Event>)
    requires Legal(FRESH, es)
    ensures Inv(Exec(FRESH, es))
  {
    hide *;
    FreshIsFine();
    RunKeepsInv(FRESH, es);
  }

  // ---------------------------------------------------------------- one attempt at a time

  lemma AttemptsOf(r: R)
    requires Inv(r)
    ensures r.started ==> Attempts(r) == 1
    ensures !r.started ==> Attempts(r) <= 1 && !r.armed && r.session != S.Up
    ensures Enabled(r, TimerFires) || (Enabled(r, Start(true)) && !r.started) ==> r.session == S.Idle
  {
    hide HooksOf, Greetings;
  }

  /**
    While started, exactly one of these holds: connecting, a retry armed, a
    retry about to be made, a connection up or closing. Otherwise at most one
    does, and no retry is armed. So no attempt is begun on top of another.
   */
  lemma OneAttemptAtATime(es: seq<Event>)
    requires Legal(FRESH, es)
    ensures var r := Exec(FRESH, es);
      && (r.started ==> Attempts(r) == 1)
      && (!r.started ==> Attempts(r) <= 1 && !r.armed && r.session != S.Up)
      && (Enabled(r, TimerFires) || (Enabled(r, Start(true)) && !r.started) ==> r.session == S.Idle)
  {
    hide *;
    ReachableInv(es);
    AttemptsOf(Exec(FRESH, es));
  }

  predicate NoStart(es: seq<Event>) {
    forall e | e in es :: !e.Start?
  }

  /** Somebody stops the supervisor, or the connector exits normally. */
  predicate GivesUp(es: seq<Event>) {
    es != [] && (es[0] == Stop || es[0] == Moved(S.Exits(Conn.Normal)) || GivesUp(es[1..]))
  }

  lemma StartedStep(r: R, e: Event)
    requires Inv(r) && Enabled(r, e) && !e.Start?
    ensures Step(r, e).started <==> r.started && e != Stop && e != Moved(S.Exits(Conn.Normal))
  {
    hide HooksOf, Greetings;
  }

  /**
    However many sessions fail, and whatever else happens, the attempts go on
    until somebody stops the supervisor or the connector exits normally; and then
    they are over.
   */
  lemma {:induction false} KeepsTrying(r: R, es: seq<Event>)
    requires Inv(r) && Legal(r, es) && NoStart(es)
    ensures Exec(r, es).started <==> r.started && !GivesUp(es)
    decreases es
  {
    if es != [] {
      assert es[0] in es;
      hide Step, Enabled, Inv;
      StepKeepsInv(r, es[0]);
      StartedStep(r, es[0]);
      KeepsTrying(Step(r, es[0]), es[1..]);
    }
  }

  // ---------------------------------------------------------------- callbacks

  predicate Begins(r: R, e: Event) {
    e.Start? && !r.started
  }

  function Starts(r: R, es: seq<Event>): nat
    decreases es
  {
    if es == [] then 0 else Bit(Begins(r, es[0])) + Starts(Step(r, es[0]), es[1..])
  }

  /** What the end of a session leaves alone. */
  lemma EndLeaves(r: R, move: S.Move)
    requires move.Fails? || move.Exits?
    ensures var t := Step(r, Moved(move));
      && t.callback == r.callback && t.greeting == r.greeting
      && t.record.saved == r.record.saved && t.record.asked == r.record.asked
      && t.record.greetings == r.record.greetings && t.record.lost == r.record.lost
  {
    hide Exit;
    var after := r.(session := S.Idle);
    assert SameOtherwise(after, Exit(after, if move.Fails? then Conn.BrokerConnectError else move.code));
  }

  lemma StepCountsStarts(r: R, e: Event)
    requires Enabled(r, e)
    ensures |Step(r, e).record.saved| == |r.record.saved| + Bit(Begins(r, e))
  {
    hide Exit;
    if e.Moved? && (e.move.Fails? || e.move.Exits?) { EndLeaves(r, e.move); }
  }

  lemma {:induction false} RunCountsStarts(r: R, es: seq<Event>)
    requires Legal(r, es)
    ensures |Exec(r, es).record.saved| == |r.record.saved| + Starts(r, es)
    decreases es
  {
    if es != [] {
      hide Step, Enabled, Bit, Begins;
      StepCountsStarts(r, es[0]);
      RunCountsStarts(Step(r, es[0]), es[1..]);
    }
  }

  lemma {:induction false} HooksCount(returned: seq<Return>)
    ensures |HooksOf(returned)| == |returned|
    decreases |returned|
  {
    if returned != [] { HooksCount(returned[..|returned| - 1]); }
  }

  lemma ReturnsOf(r: R)
    requires Inv(r)
    ensures |r.record.saved| == |r.record.returned| + Bit(r.exitHook == Restart)
    ensures r.record.saved == HooksOf(r.record.returned) + (if r.exitHook == Restart then [r.backup] else [])
    ensures !r.record.diverged
  {
    hide HooksOf, Single, Greetings;
    HooksCount(r.record.returned);
  }

  /**
    In every run, each start has had its exit handed back exactly once, with the
    very callback that was in the connector when it began, but for the one still
    out.
   */
  lemma ExitsConserved(es: seq<Event>)
    requires Legal(FRESH, es)
    ensures var r := Exec(FRESH, es);
      && |r.record.returned| + Bit(r.exitHook == Restart) == Starts(FRESH, es)
      && r.record.saved == HooksOf(r.record.returned) + (if r.exitHook == Restart then [r.backup] else [])
      && !r.record.diverged
  {
    hide *;
    ReachableInv(es);
    FreshIsFine();
    RunCountsStarts(FRESH, es);
    ReturnsOf(Exec(FRESH, es));
  }

  /** The code with which a session ends. */
  function CodeOf(move: S.Move): Conn.ExitCode {
    match move
    case Exits(code) => code
    case _ => Conn.BrokerConnectError
  }

  predicate EndsSession(e: Event) {
    e.Moved? && (e.move.Fails? || e.move.Exits?)
  }

  /** An end of a session that hands the exit back, to the callback saved and with the code it ended with. */
  function GivenBack(r: R, e: Event): seq<Return> {
    if EndsSession(e) && r.exitHook == Restart && (!r.started || CodeOf(e.move) == Conn.Normal)
    then [Return(r.backup, CodeOf(e.move))]
    else []
  }

  function AllGivenBack(r: R, es: seq<Event>): seq<Return>
    decreases es
  {
    if es == [] then [] else GivenBack(r, es[0]) + AllGivenBack(Step(r, es[0]), es[1..])
  }

  lemma StartedLeaves(r: R, e: Event)
    requires e == Moved(S.Connects) || e == CallbackReturns
    ensures Step(r, e).record.returned == r.record.returned
  {
  }

  lemma ExitGivesBack(r: R, code: Conn.ExitCode)
    requires r.exitHook == Restart ==> r.backup != Restart
    ensures Exit(r, code).record.returned == r.record.returned +
            (if r.exitHook == Restart && (!r.started || code == Conn.Normal) then [Return(r.backup, code)] else [])
  {
  }

  lemma StepGivesBack(r: R, e: Event)
    requires Inv(r) && Enabled(r, e)
    ensures Step(r, e).record.returned == r.record.returned + GivenBack(r, e)
  {
    hide HooksOf, Single, Greetings, Exit, RunIfDue;
    assert r.record.returned + [] == r.record.returned;
    if EndsSession(e) {
      ExitGivesBack(r.(session := S.Idle), CodeOf(e.move));
    } else if e == Moved(S.Connects) || e == CallbackReturns {
      hide Step;
      StartedLeaves(r, e);
    }
  }

  lemma {:induction false} RunGivesBack(r: R, es: seq<Event>)
    requires Inv(r) && Legal(r, es)
    ensures Exec(r, es).record.returned == r.record.returned + AllGivenBack(r, es)
    decreases es
  {
    if es == [] {
      assert r.record.returned + [] == r.record.returned;
    } else {
      hide Step, Enabled, Inv, GivenBack;
      StepKeepsInv(r, es[0]);
      StepGivesBack(r, es[0]);
      RunGivesBack(Step(r, es[0]), es[1..]);
    }
  }

  /**
    Every exit that has been handed back was told how its session ended: the codes
    are, in order, those of the ends of sessions that found the supervisor stopped
    or were normal.
   */
  lemma ExitsKeepTheirCodes(es: seq<Event>)
    requires Legal(FRESH, es)
    ensures Exec(FRESH, es).record.returned == AllGivenBack(FRESH, es)
  {
    hide *;
    FreshIsFine();
    NothingGivenBackYet();
    RunGivesBack(FRESH, es);
  }

  lemma NothingGivenBackYet()
    ensures FRESH.record.returned == []
  {
  }

  /** When the user's exit callback is called nothing is under way, so that it does not matter how long it takes. */
  lemma NothingUnderWayAtTheExit(r: R, e: Event, f: Event)
    requires Inv(r) && Enabled(r, e) && |Step(r, e).record.returned| > |r.record.returned|
    requires Enabled(Step(r, e), f)
    ensures Attempts(Step(r, e)) == 0 && !Step(r, e).started
    ensures f.Start? || f.Stop? || f.SetExit? || f.CallbackReturns?
  {
    hide HooksOf, Greetings, Started, Greeted;
    if e == Moved(S.Connects) || e == CallbackReturns { StartedLeaves(r, e); }
  }

  // ---------------------------------------------------------------- the start callback

  /** A connection comes while a start callback is in progress, whose slot is not cleared yet. */
  predicate Repeats(r: R, e: Event) {
    e == Moved(S.Connects) && !r.needStop && r.callback && r.greeting > 0
  }

  /** A start callback returns without a connection, and a run was due. */
  predicate Misses(r: R, e: Event) {
    e == CallbackReturns && r.greeting > 0 && r.rerun && !Ready(r)
  }

  /** How often that has happened since the last start. */
  function RepeatsSince(r: R, es: seq<Event>, before: nat): nat
    decreases es
  {
    if es == [] then before
    else RepeatsSince(Step(r, es[0]), es[1..],
                      if Begins(r, es[0]) then 0 else before + Bit(Repeats(r, es[0])))
  }

  function MissesSince(r: R, es: seq<Event>, before: nat): nat
    decreases es
  {
    if es == [] then before
    else MissesSince(Step(r, es[0]), es[1..],
                     if Begins(r, es[0]) then 0 else before + Bit(Misses(r, es[0])))
  }

  /** The start callback has been called, but for repeated calls, once, or not yet. */
  function Once(r: R): nat {
    Bit(r.record.asked && !(r.callback && r.greeting == 0))
  }

  lemma RunLeaves(r: R)
    ensures var t := RunIfDue(r);
      && t.callback == r.callback && t.greeting == r.greeting && t.record.asked == r.record.asked
      && t.record.greetings == r.record.greetings
  {
  }

  lemma ConnectCounts(r: R, n: nat)
    requires Called(r) && r.record.greetings == Once(r) + n
    ensures var t := Step(r, Moved(S.Connects));
      t.record.greetings == Once(t) + n + Bit(Repeats(r, Moved(S.Connects)))
  {
    hide RunIfDue, Exit;
    RunLeaves(r.(session := S.Up, record := r.record.(ran := false)));
  }

  lemma ReturnCounts(r: R, n: nat)
    requires Called(r) && r.greeting > 0 && r.record.greetings == Once(r) + n
    ensures var t := Step(r, CallbackReturns); t.record.greetings == Once(t) + n
  {
    hide RunIfDue, Exit;
    RunLeaves(r.(greeting := r.greeting - 1, callback := false));
  }

  lemma OtherwiseCounts(r: R, e: Event, n: nat)
    requires Enabled(r, e) && r.record.greetings == Once(r) + n && e != Moved(S.Connects) && e != CallbackReturns
    ensures Step(r, e).record.greetings == Once(Step(r, e)) + (if Begins(r, e) then 0 else n)
  {
    hide Exit, Started, Greeted;
    if e.Moved? && (e.move.Fails? || e.move.Exits?) { EndLeaves(r, e.move); }
  }

  lemma StepCountsGreetings(r: R, e: Event, n: nat)
    requires Inv(r) && Enabled(r, e) && r.record.greetings == Once(r) + n
    ensures Step(r, e).record.greetings
         == Once(Step(r, e)) + (if Begins(r, e) then 0 else n + Bit(Repeats(r, e)))
  {
    hide Step, Single, Saved, Called, Once;
    if e == Moved(S.Connects) {
      ConnectCounts(r, n);
    } else if e == CallbackReturns {
      ReturnCounts(r, n);
    } else {
      OtherwiseCounts(r, e, n);
    }
  }

  lemma StepCountsMisses(r: R, e: Event, n: nat)
    requires Inv(r) && Enabled(r, e) && r.record.lost == n
    ensures Step(r, e).record.lost == if Begins(r, e) then 0 else n + Bit(Misses(r, e))
  {
    hide HooksOf, Single, Saved, Exit;
    if e.Moved? && (e.move.Fails? || e.move.Exits?) { EndLeaves(r, e.move); }
  }

  lemma {:induction false} RunCountsGreetings(r: R, es: seq<Event>, n: nat)
    requires Inv(r) && Legal(r, es) && r.record.greetings == Once(r) + n
    ensures Exec(r, es).record.greetings == Once(Exec(r, es)) + RepeatsSince(r, es, n)
    decreases es
  {
    if es != [] {
      hide Step, Enabled, Inv, Once, Begins, Repeats, Bit;
      StepKeepsInv(r, es[0]);
      StepCountsGreetings(r, es[0], n);
      RunCountsGreetings(Step(r, es[0]), es[1..], if Begins(r, es[0]) then 0 else n + Bit(Repeats(r, es[0])));
    }
  }

  lemma {:induction false} RunCountsMisses(r: R, es: seq<Event>, n: nat)
    requires Inv(r) && Legal(r, es) && r.record.lost == n
    ensures Exec(r, es).record.lost == MissesSince(r, es, n)
    decreases es
  {
    if es != [] {
      hide Step, Enabled, Inv, Begins, Misses, Bit;
      StepKeepsInv(r, es[0]);
      StepCountsMisses(r, es[0], n);
      RunCountsMisses(Step(r, es[0]), es[1..], if Begins(r, es[0]) then 0 else n + Bit(Misses(r, es[0])));
    }
  }

  lemma FreshCounts()
    ensures FRESH.record.greetings == Once(FRESH) + 0 && FRESH.record.lost == 0
  {
  }

  lemma GreetedOnce(r: R)
    requires Inv(r)
    ensures r.started && Ready(r) ==> Once(r) == Bit(r.record.asked)
    ensures Once(r) <= Bit(r.record.asked) <= 1
  {
    hide HooksOf, Single;
  }

  /**
    Since the last start the start callback has been made once at the first
    connection, if one was given, and once more for each connection that came
    while it was in progress: at most once if and only if there was none.
   */
  lemma GreetedOncePerStart(es: seq<Event>)
    requires Legal(FRESH, es)
    ensures var r := Exec(FRESH, es);
      && r.record.greetings == Once(r) + RepeatsSince(FRESH, es, 0)
      && Once(r) <= Bit(r.record.asked) <= 1
      && (r.started && Ready(r) ==> Once(r) == Bit(r.record.asked))
      && (r.record.greetings <= 1 || RepeatsSince(FRESH, es, 0) > 0)
      && (RepeatsSince(FRESH, es, 0) == 0 <==> r.record.greetings == Once(r))
  {
    hide *;
    ReachableInv(es);
    FreshIsFine();
    FreshCounts();
    RunCountsGreetings(FRESH, es, 0);
    GreetedOnce(Exec(FRESH, es));
  }

  lemma ReconnectionRuns(r: R)
    requires Inv(r) && r.started && Ready(r) && r.greeting == 0 && r.record.failures > 0 && r.record.lost == 0
    ensures r.record.ran
  {
    hide HooksOf, Single;
  }

  /**
    After a failure, whenever there is a connection again and no start callback is
    in progress, the supervisor has run it, unless a start callback has returned,
    with a run due, in between connections.
   */
  lemma EveryReconnectionIsRun(es: seq<Event>)
    requires Legal(FRESH, es)
    ensures var r := Exec(FRESH, es);
      r.started && Ready(r) && r.greeting == 0 && r.record.failures > 0 && MissesSince(FRESH, es, 0) == 0 ==>
        r.record.ran
  {
    hide *;
    ReachableInv(es);
    FreshIsFine();
    FreshCounts();
    RunCountsMisses(FRESH, es, 0);
    var r := Exec(FRESH, es);
    if r.started && Ready(r) && r.greeting == 0 && r.record.failures > 0 && MissesSince(FRESH, es, 0) == 0 {
      ReconnectionRuns(r);
    }
  }

  // ---------------------------------------------------------------- the runs made

  /** A due run is made: with the connection, or when the start callback returns and there is one. */
  predicate MakesARun(r: R, e: Event) {
    && r.rerun
    && ((e == Moved(S.Connects) && !r.needStop && !r.callback) || (e.CallbackReturns? && r.greeting > 0 && Ready(r)))
  }

  function RunsMade(r: R, es: seq<Event>): nat
    decreases es
  {
    if es == [] then 0 else Bit(MakesARun(r, es[0])) + RunsMade(Step(r, es[0]), es[1..])
  }

  function RunsSince(r: R, es: seq<Event>, n: nat): nat
    decreases es
  {
    if es == [] then n
    else RunsSince(Step(r, es[0]), es[1..], if Begins(r, es[0]) then 0 else n + Bit(MakesARun(r, es[0])))
  }

  lemma EndMakesNoRun(r: R, code: Conn.ExitCode)
    requires r.exitHook == Restart ==> r.backup != Restart
    ensures var t := Exit(r, code);
      && t.record.runs == r.record.runs
      && t.record.failures - Bit(t.rerun) >= r.record.failures - Bit(r.rerun)
  {
  }

  /** What an event does to the runs made and due. */
  predicate CountsRuns(r: R, e: Event, n: nat) {
    var t := Step(r, e);
    && t.record.runs == r.record.runs + Bit(MakesARun(r, e))
    && (if Begins(r, e) then 0 else n + Bit(MakesARun(r, e))) + Bit(t.rerun) <= t.record.failures
  }

  lemma EndCountsRuns(r: R, e: Event, n: nat)
    requires Saved(r) && EndsSession(e) && n + Bit(r.rerun) <= r.record.failures
    ensures CountsRuns(r, e, n)
  {
    hide HooksOf, Exit;
    EndMakesNoRun(r.(session := S.Idle), CodeOf(e.move));
  }

  lemma OtherwiseCountsRuns(r: R, e: Event, n: nat)
    requires Enabled(r, e) && !EndsSession(e) && n + Bit(r.rerun) <= r.record.failures
    ensures CountsRuns(r, e, n)
  {
    hide Exit;
  }

  lemma StepCountsRuns(r: R, e: Event, n: nat)
    requires Inv(r) && Enabled(r, e) && n + Bit(r.rerun) <= r.record.failures
    ensures CountsRuns(r, e, n)
  {
    hide Saved, Single, Greetings, Enabled, CountsRuns, EndsSession;
    if EndsSession(e) { EndCountsRuns(r, e, n); } else { OtherwiseCountsRuns(r, e, n); }
  }

  lemma {:induction false} RunCountsRuns(r: R, es: seq<Event>, n: nat)
    requires Inv(r) && Legal(r, es) && n + Bit(r.rerun) <= r.record.failures
    ensures Exec(r, es).record.runs == r.record.runs + RunsMade(r, es)
    ensures RunsSince(r, es, n) + Bit(Exec(r, es).rerun) <= Exec(r, es).record.failures
    decreases es
  {
    if es != [] {
      hide Step, Enabled, Inv, Begins, MakesARun, Bit;
      StepKeepsInv(r, es[0]);
      StepCountsRuns(r, es[0], n);
      RunCountsRuns(Step(r, es[0]), es[1..], if Begins(r, es[0]) then 0 else n + Bit(MakesARun(r, es[0])));
    }
  }

  lemma NothingRunYet()
    ensures 0 + Bit(FRESH.rerun) <= FRESH.record.failures && FRESH.record.runs == 0
  {
  }

  /**
    The supervisor runs the connector only to make up for a session that failed:
    since the last start it has made no more runs than sessions have failed, even
    with the one that is due.
   */
  lemma RunsMakeUpForFailures(es: seq<Event>)
    requires Legal(FRESH, es)
    ensures var r := Exec(FRESH, es);
      && r.record.runs == RunsMade(FRESH, es)
      && RunsSince(FRESH, es, 0) + Bit(r.rerun) <= r.record.failures
  {
    hide *;
    FreshIsFine();
    NothingRunYet();
    RunCountsRuns(FRESH, es, 0);
  }
}
