/**
  The supervisor as the C++ class has it, with the connector it wraps reduced to
  its session and its exit callback, and its timer to whether it is armed and
  how many of its handlers are queued.

  `log` is the run so far, and `Valid` says that the fields are as
  `ReconnectSpec` has them after it; `Sound` adds that it is a legal run, so that
  every theorem about runs is one about the class. While the user's start
  callback is in progress, other events run inside it.
 */
module AutoReconnects {
  import opened ReconnectSpec
  import opened ReconnectTheorems
  import Departures = ReconnectDepartures
  import Conn = ConnectorSpec
  import S = Sessions

  lemma {:induction false} OneMore(r: R, es: seq<Event>, e: Event)
    ensures Exec(r, es + [e]) == Step(Exec(r, es), e)
    ensures Legal(r, es + [e]) <==> Legal(r, es) && Enabled(Exec(r, es), e)
    decreases es
  {
    if es == [] {
      assert [] + [e] == [e] && [e][1..] == [];
    } else {
      assert (es + [e])[0] == es[0] && (es + [e])[1..] == es[1..] + [e];
      hide Step, Enabled;
      OneMore(Step(r, es[0]), es[1..], e);
    }
  }

  /** The events of a run that come from outside: all but the returns of start callbacks. */
  function Came(es: seq<Event>): nat {
    if es == [] then 0
    else Came(es[..|es| - 1]) + (if es[|es| - 1].CallbackReturns? then 0 else 1)
  }

  lemma CameOneMore(es: seq<Event>, e: Event)
    ensures Came(es + [e]) == Came(es) + (if e.CallbackReturns? then 0 else 1)
  {
    assert (es + [e])[..|es|] == es;
  }

  /** The run leads to this state. */
  ghost predicate LeadsTo(log: seq<Event>, r: R) {
    r == Exec(FRESH, log)
  }

  /** It is a legal one. */
  ghost predicate Orderly(log: seq<Event>, r: R) {
    LeadsTo(log, r) && Legal(FRESH, log) && Inv(r)
  }

  lemma FreshIsOrderly()
    ensures Orderly([], FRESH)
  {
  }

  lemma StepLeadsOn(r: R, log: seq<Event>, e: Event)
    requires LeadsTo(log, r)
    ensures LeadsTo(log + [e], Step(r, e))
    ensures Orderly(log, r) && Enabled(r, e) ==> Orderly(log + [e], Step(r, e))
  {
    hide Step, Enabled, Legal, Exec, Inv;
    OneMore(FRESH, log, e);
    if Inv(r) && Enabled(r, e) { StepKeepsInv(r, e); }
  }

  /** How deep the exit callback is allowed to call itself makes no difference. */
  lemma DepthMakesNoDifference(r: R, code: Conn.ExitCode, depth: nat)
    requires depth > 0
    ensures RestartWithin(r, code, depth) == RestartWithin(r, code, 1)
  {
    if r.backup == Restart && (!r.started || code == Conn.Normal) {
      Departures.NeverReturns(r, code, depth);
      Departures.NeverReturns(r, code, 1);
    }
  }

  /** In an orderly run the exit callback returns. */
  lemma OrderlyExitsReturn(r: R, log: seq<Event>, code: Conn.ExitCode)
    requires Orderly(log, r) && r.exitHook == Restart
    ensures RestartWithin(r, code, 1).Done?
    ensures RestartWithin(r.(session := S.Idle), code, 1).Done?
  {
    hide Legal, Exec, HooksOf, Single, Greetings;
  }

  lemma StepOfEnd(r: R, move: S.Move)
    requires move.Fails? || move.Exits?
    ensures Step(r, Moved(move)) ==
            Exit(r.(session := S.Idle), if move.Fails? then Conn.BrokerConnectError else move.code)
    ensures Step(r, Moved(move)).greeting == r.greeting
  {
    hide Exit;
  }

  lemma FailureIsEnabled(r: R)
    requires r.session == S.Connecting
    ensures Enabled(r, Moved(S.Fails))
  {
  }

  lemma ExitIsEnabled(r: R, code: Conn.ExitCode)
    requires S.MayHappen(r.session, S.Exits(code))
    ensures Enabled(r, Moved(S.Exits(code)))
  {
  }

  /** The end of a session, as the connector's exit callback has it. */
  lemma WhatAnEndDoes(r: R, log: seq<Event>, move: S.Move, code: Conn.ExitCode)
    requires (move.Fails? && code == Conn.BrokerConnectError) || (move.Exits? && code == move.code)
    ensures var after := r.(session := S.Idle);
      && Step(r, Moved(move)) == Exit(after, code) && Exit(after, code).greeting == r.greeting
      && (after.exitHook == Restart && RestartWithin(after, code, 1) == TooDeep ==>
            Exit(after, code).record.diverged && !Orderly(log, r))
  {
    hide RestartWithin, Orderly, SameOtherwise;
    StepOfEnd(r, move);
    if r.exitHook == Restart && Orderly(log, r) { OrderlyExitsReturn(r, log, code); }
  }

  class AutoReconnect {
    var started: bool
    var needStop: bool
    var rerun: bool
    var backupExitCallback: Hook
    var startedCallback: bool

    // The connector, and the timer.
    var session: S.Session
    var exitHook: Hook
    var armed: bool
    var expired: nat

    ghost var greeting: nat
    ghost var record: Record
    ghost var log: seq<Event>

    /** How many more events there are to observe inside the start callback. */
    var happenings: nat

    ghost function View(): R
      reads this
    {
      R(started, needStop, rerun, backupExitCallback, startedCallback, session, exitHook, armed, expired,
        greeting, record)
    }

    ghost predicate Valid()
      reads this
    {
      LeadsTo(log, View())
    }

    ghost predicate Sound()
      reads this
    {
      Orderly(log, View())
    }

    constructor (happenings: nat)
      ensures Valid() && Sound() && View() == FRESH && log == []
    {
      hide Orderly;
      started, needStop, rerun, backupExitCallback, startedCallback := false, false, false, NoHook, false;
      session, exitHook, armed, expired := S.Idle, NoHook, false, 0;
      greeting, record, log := 0, Record([], [], false, 0, 0, 0, false, 0, false), [];
      this.happenings := happenings;
      new;
      FreshIsOrderly();
      OrderlyIsValid();
    }

    lemma OrderlyIsValid()
      requires Sound()
      ensures Valid()
    {
      hide LeadsTo;
    }

    /** The event `e` has been carried out, from `was`. */
    ghost method Book(was: R, e: Event)
      requires LeadsTo(log, was) && View() == Step(was, e)
      modifies this`log
      ensures Valid() && log == old(log) + [e] && View() == old(View())
      ensures old(Orderly(log, was)) && Enabled(was, e) ==> Sound()
    {
      hide LeadsTo, Orderly, Step, Enabled;
      StepLeadsOn(was, log, e);
      log := log + [e];
    }

    // -------------------------------------------------------------- calls

    method Start(callback: bool)
      requires Valid()
      modifies this
      ensures Valid() && log == old(log) + [Event.Start(callback)]
      ensures View() == Step(old(View()), Event.Start(callback))
      ensures old(Sound()) && Enabled(old(View()), Event.Start(callback)) ==> Sound()
    {
      hide LeadsTo, Orderly, Enabled, Exit, Started, Greeted;
      ghost var was := View();
      if !started {
        BeginAnew(callback);
        ConnectorAsyncStart();
        started := true;
      }
      Book(was, Event.Start(callback));
    }

    method BeginAnew(callback: bool)
      modifies this
      ensures View() == Begin(old(View()), callback) && log == old(log)
    {
      record := record.(saved := record.saved + [exitHook], asked := callback,
                        greetings := 0, failures := 0, lost := 0);
      needStop := false;
      rerun := false;
      backupExitCallback := exitHook;
      startedCallback := callback;
      exitHook := Restart;
    }

    method Stop()
      requires Valid()
      modifies this
      ensures Valid() && log == old(log) + [Event.Stop] && View() == Step(old(View()), Event.Stop)
      ensures happenings == old(happenings) && greeting == old(greeting) && (old(Sound()) ==> Sound())
    {
      hide LeadsTo, Orderly, Exit, Started, Greeted;
      ghost var was := View();
      if started {
        armed := false;
        if ConnectorReady() {
          ConnectorStop();
        } else {
          needStop := true;
        }
        started := false;
      }
      Book(was, Event.Stop);
    }

    // -------------------------------------------------------------- the start callback

    /** The start callback the supervisor gives the connector, made when it has connected. */
    method OnStarted(ghost was: R) returns (done: bool)
      requires LeadsTo(log, was) && View() == was.(session := S.Up, record := was.record.(ran := false))
      modifies this
      ensures old(log) + [Moved(S.Connects)] <= log && happenings <= old(happenings)
      ensures done ==> Valid() && greeting == old(greeting)
      ensures old(Orderly(log, was)) && was.session == S.Connecting ==> done && Sound()
      ensures done && (was.needStop || !was.callback) ==>
                log == old(log) + [Moved(S.Connects)] && View() == Step(was, Moved(S.Connects))
      ensures done && !was.needStop && was.callback ==>
                && old(log) + [Moved(S.Connects)] < log && log[|log| - 1] == CallbackReturns
                && (happenings == old(happenings) ==> log == old(log) + [Moved(S.Connects)] + [CallbackReturns])
      ensures Came(log) + happenings <= old(Came(log)) + 1 + old(happenings)
      decreases happenings, 1
    {
      hide LeadsTo, Orderly, Exit, RunIfDue, Greeted, Came;
      CameOneMore(log, Moved(S.Connects));
      done := true;
      if needStop {
        needStop := false;
        ConnectorStop();
        Book(was, Moved(S.Connects));
        return;
      }
      if !startedCallback {
        RunOnce();
        Book(was, Moved(S.Connects));
        return;
      }
      greeting, record := greeting + 1, record.(greetings := record.greetings + 1);
      Book(was, Moved(S.Connects));
      done := UserCallback();
      if !done { return; }
      CameOneMore(log, CallbackReturns);
      AfterCallback();
    }

    /** What is left to do once the user's callback has returned. */
    method AfterCallback()
      requires Valid() && greeting > 0
      modifies this
      ensures Valid() && log == old(log) + [CallbackReturns] && View() == Step(old(View()), CallbackReturns)
      ensures greeting == old(greeting) - 1 && happenings == old(happenings) && (old(Sound()) ==> Sound())
    {
      hide LeadsTo, Orderly, Exit, Started, RunIfDue;
      ghost var was := View();
      greeting := greeting - 1;
      startedCallback := false;
      ghost var now := View();
      RunOnce();
      RunKeepsCallers(now);
      Book(was, CallbackReturns);
    }

    lemma RunKeepsCallers(r: R)
      ensures RunIfDue(r).greeting == r.greeting
    {
    }

    method RunOnce()
      modifies this`rerun, this`record
      ensures View() == RunIfDue(old(View()))
    {
      if rerun {
        rerun := false;
        ConnectorRun();
      }
    }

    /** The user's start callback: whatever it does and waits for, other events come meanwhile. */
    method UserCallback() returns (done: bool)
      requires Valid()
      modifies this
      ensures old(log) <= log && happenings <= old(happenings)
      ensures Came(log) + happenings <= old(Came(log)) + old(happenings)
      ensures happenings == old(happenings) ==> log == old(log) && View() == old(View())
      ensures done ==> Valid() && greeting == old(greeting)
      ensures old(Sound()) ==> done && Sound()
      decreases happenings, 0
    {
      hide LeadsTo, Orderly, Came;
      done := true;
      while happenings > 0
        invariant Valid() && greeting == old(greeting) && done
        invariant old(log) <= log && happenings <= old(happenings) && (old(Sound()) ==> Sound())
        invariant Came(log) + happenings <= old(Came(log)) + old(happenings)
        invariant happenings == old(happenings) ==> log == old(log) && View() == old(View())
        decreases happenings
      {
        var goesOn := *;
        if !goesOn { break; }
        happenings := happenings - 1;
        done := AnyEvent();
        if !done { return; }
      }
    }

    /** Anything that can happen to the supervisor, but for a start, which is not made from inside its callback. */
    method AnyEvent() returns (done: bool)
      requires Valid()
      modifies this
      ensures old(log) <= log && happenings <= old(happenings)
      ensures Came(log) + happenings <= old(Came(log)) + 1 + old(happenings)
      ensures done ==> Valid() && greeting == old(greeting)
      ensures old(Sound()) ==> done && Sound()
      decreases happenings, 3
    {
      hide LeadsTo, Orderly, Step, S.MayHappen, Came;
      var choice: nat, user: bool, id: nat, code: Conn.ExitCode := *, *, *, *;
      done := true;
      if choice == 0 {
        Stop();
      } else if choice == 1 && exitHook != Restart {
        OnExit(if user then User(id) else NoHook);
      } else if choice == 2 && armed {
        Expire();
      } else if choice == 3 && expired > 0 {
        OnTimer(false);
      } else if choice == 4 && session == S.Connecting {
        done := ConnectorConnects();
      } else if choice == 5 && session == S.Connecting {
        done := ConnectorFails();
      } else if choice == 6 && session == S.Up {
        ConnectorCloses();
      } else if S.MayHappen(session, S.Exits(code)) {
        done := ConnectorExits(code);
      }
      if |log| == |old(log)| + 1 { CameOneMore(old(log), log[|log| - 1]); }
    }

    // -------------------------------------------------------------- the exit callback

    /** The exit callback the supervisor puts in the connector; it may be what it hands back to. */
    method OnRestart(code: Conn.ExitCode, depth: nat) returns (done: bool)
      modifies this
      ensures done ==> RestartWithin(old(View()), code, depth) == Done(View())
      ensures !done ==> RestartWithin(old(View()), code, depth) == TooDeep
      ensures done && old(started) && code != Conn.Normal ==>
                started && rerun && armed && record.returned == old(record).returned
      ensures done && !(old(started) && code != Conn.Normal) ==>
                && !started && exitHook == old(backupExitCallback)
                && record.returned == old(record).returned + [Return(old(backupExitCallback), code)]
      ensures log == old(log) && happenings == old(happenings)
      decreases depth, 1
    {
      ghost var was := View();
      if depth == 0 { return false; }
      if !started {
        done := GiveBack(code, depth);
      } else {
        match code
        case Normal =>
          started := false;
          done := GiveBack(code, depth);
        case BrokerConnectError =>
          Rearm();
          done := true;
        case AmqpError =>
          Rearm();
          done := true;
      }
      if done { Departures.WhatRestartDoes(was, code, depth); }
    }

    method Rearm()
      modifies this
      ensures View() == old(View()).(rerun := true, armed := true,
                record := old(record).(failures := old(record).failures + 1))
      ensures log == old(log) && happenings == old(happenings)
    {
      rerun := true;
      armed := true;
      record := record.(failures := record.failures + 1);
    }

    method GiveBack(code: Conn.ExitCode, depth: nat) returns (done: bool)
      requires depth > 0
      modifies this
      ensures done ==> HandBack(old(View()), code, depth) == Done(View())
      ensures !done ==> HandBack(old(View()), code, depth) == TooDeep
      ensures log == old(log) && happenings == old(happenings)
      decreases depth, 0
    {
      hide RestartWithin, SameOtherwise;
      if backupExitCallback == Restart {
        exitHook := backupExitCallback;
        done := OnRestart(code, depth - 1);
        if done { ForgetBackup(); }
      } else {
        CallUser(code);
        done := true;
      }
    }

    method CallUser(code: Conn.ExitCode)
      modifies this`exitHook, this`record, this`backupExitCallback
      ensures View() == old(View()).(exitHook := old(backupExitCallback), backup := NoHook,
                record := old(record).(returned := old(record).returned + [Return(old(backupExitCallback), code)]))
    {
      exitHook := backupExitCallback;
      record := record.(returned := record.returned + [Return(backupExitCallback, code)]);
      backupExitCallback := NoHook;
    }

    method ForgetBackup()
      modifies this`backupExitCallback
      ensures View() == old(View()).(backup := NoHook)
    {
      backupExitCallback := NoHook;
    }

    // -------------------------------------------------------------- the timer

    /** The wait is over: without an error once the time is up, with one after a cancel. */
    method OnTimer(aborted: bool)
      requires Valid() && (!aborted ==> expired > 0)
      modifies this
      ensures Valid() && happenings == old(happenings) && greeting == old(greeting) && (old(Sound()) ==> Sound())
      ensures if aborted then log == old(log) && View() == old(View())
              else log == old(log) + [TimerFires] && View() == Step(old(View()), TimerFires)
    {
      hide LeadsTo, Orderly, Exit, Started, Greeted;
      if aborted { return; }
      ghost var was := View();
      expired := expired - 1;
      ConnectorAsyncStart();
      Book(was, TimerFires);
    }

    method Expire()
      requires Valid() && armed
      modifies this
      ensures Valid() && log == old(log) + [TimerExpires] && View() == Step(old(View()), TimerExpires)
      ensures happenings == old(happenings) && greeting == old(greeting) && (old(Sound()) ==> Sound())
    {
      hide LeadsTo, Orderly, Exit, Started, Greeted;
      ghost var was := View();
      armed := false;
      expired := expired + 1;
      Book(was, TimerExpires);
    }

    // -------------------------------------------------------------- the connector

    predicate ConnectorReady()
      reads this
    {
      session == S.Up || session == S.Closing
    }

    method ConnectorAsyncStart()
      modifies this`session
      ensures View() == AsyncStart(old(View()))
    {
      if !ConnectorReady() { session := S.Connecting; }
    }

    method ConnectorStop()
      modifies this`session
      ensures View() == StopConnector(old(View()))
    {
      if ConnectorReady() { session := S.Closing; }
    }

    /** `run`, which does nothing without a connection. What comes while it waits comes after it in the log. */
    method ConnectorRun()
      modifies this`record
      ensures record == if ConnectorReady() then old(record).(runs := old(record).runs + 1, ran := true)
                        else old(record).(lost := old(record).lost + 1)
    {
      record := if ConnectorReady() then record.(runs := record.runs + 1, ran := true)
                else record.(lost := record.lost + 1);
    }

    method OnExit(hook: Hook)
      requires Valid()
      modifies this
      ensures Valid() && log == old(log) + [SetExit(hook)] && View() == Step(old(View()), SetExit(hook))
      ensures happenings == old(happenings) && greeting == old(greeting)
      ensures old(Sound()) && Enabled(old(View()), SetExit(hook)) ==> Sound()
    {
      hide LeadsTo, Orderly, Exit, Started, Greeted;
      ghost var was := View();
      exitHook := hook;
      Book(was, SetExit(hook));
    }

    // The connector goes on by itself, and calls back.

    method ConnectorConnects() returns (done: bool)
      requires Valid() && session == S.Connecting
      modifies this
      ensures old(log) + [Moved(S.Connects)] <= log && happenings <= old(happenings)
      ensures Came(log) + happenings <= old(Came(log)) + 1 + old(happenings)
      ensures done ==> Valid() && greeting == old(greeting)
      ensures old(Sound()) ==> done && Sound()
      ensures done && old(needStop || !startedCallback) ==>
                log == old(log) + [Moved(S.Connects)] && View() == Step(old(View()), Moved(S.Connects))
      decreases happenings, 2
    {
      hide LeadsTo, Orderly, Step, Came;
      ghost var was := View();
      session := S.Up;
      record := record.(ran := false);
      done := OnStarted(was);
    }

    method ConnectorFails() returns (done: bool)
      requires Valid() && session == S.Connecting
      modifies this
      ensures !done ==> Step(old(View()), Moved(S.Fails)).record.diverged
      ensures done ==> Valid() && log == old(log) + [Moved(S.Fails)] && View() == Step(old(View()), Moved(S.Fails))
      ensures (done || log == old(log)) && happenings == old(happenings) && (done ==> greeting == old(greeting))
      ensures old(Sound()) ==> done && Sound()
    {
      hide LeadsTo, Orderly, Step, Enabled, Exit;
      FailureIsEnabled(View());
      done := EndSession(S.Fails, Conn.BrokerConnectError);
    }

    method ConnectorCloses()
      requires Valid() && session == S.Up
      modifies this
      ensures Valid() && log == old(log) + [Moved(S.Closes)] && View() == Step(old(View()), Moved(S.Closes))
      ensures happenings == old(happenings) && greeting == old(greeting) && (old(Sound()) ==> Sound())
    {
      hide LeadsTo, Orderly, Exit, Started, Greeted;
      ghost var was := View();
      session := S.Closing;
      Book(was, Moved(S.Closes));
    }

    method ConnectorExits(code: Conn.ExitCode) returns (done: bool)
      requires Valid() && S.MayHappen(session, S.Exits(code))
      modifies this
      ensures !done ==> Step(old(View()), Moved(S.Exits(code))).record.diverged
      ensures done ==> Valid() && log == old(log) + [Moved(S.Exits(code))]
                       && View() == Step(old(View()), Moved(S.Exits(code)))
      ensures (done || log == old(log)) && happenings == old(happenings) && (done ==> greeting == old(greeting))
      ensures old(Sound()) ==> done && Sound()
    {
      hide LeadsTo, Orderly, Step, Enabled, Exit, S.MayHappen;
      ExitIsEnabled(View(), code);
      done := EndSession(S.Exits(code), code);
    }

    /** The session is over, and the connector says so. */
    method EndSession(move: S.Move, code: Conn.ExitCode) returns (done: bool)
      requires Valid() && Enabled(View(), Moved(move))
      requires (move.Fails? && code == Conn.BrokerConnectError) || (move.Exits? && code == move.code)
      modifies this
      ensures !done ==> Step(old(View()), Moved(move)).record.diverged
      ensures done ==> Valid() && log == old(log) + [Moved(move)] && View() == Step(old(View()), Moved(move))
      ensures (done || log == old(log)) && happenings == old(happenings) && (done ==> greeting == old(greeting))
      ensures old(Sound()) ==> done && Sound()
    {
      hide LeadsTo, Orderly, Exit, Step, Enabled, RestartWithin, SameOtherwise;
      ghost var was := View();
      WhatAnEndDoes(was, log, move, code);
      session := S.Idle;
      done := ConnectorExit(code);
      if done { Book(was, Moved(move)); }
    }

    /** Whatever is in the connector's exit slot is called; a call that goes on for ever is not `done`. */
    method ConnectorExit(code: Conn.ExitCode) returns (done: bool)
      modifies this
      ensures done ==> View() == Exit(old(View()), code)
      ensures !done ==> old(exitHook) == Restart && RestartWithin(old(View()), code, 1) == TooDeep
      ensures log == old(log) && happenings == old(happenings)
    {
      done := true;
      if exitHook == Restart {
        DepthMakesNoDifference(View(), code, happenings + 1);
        done := OnRestart(code, happenings + 1);
      }
    }
  }
}
