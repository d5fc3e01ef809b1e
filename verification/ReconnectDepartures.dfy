/** Where the supervisor does not do what its documentation says, and exactly when. */
module ReconnectDepartures {
  import opened ReconnectSpec
  import opened ReconnectTheorems
  import opened ReconnectStops
  import Conn = ConnectorSpec
  import ConnInv = ConnectorTheorems
  import ConnSessions = ConnectorSessions
  import Refines = ConnectorRefinesSession
  import S = Sessions

  // ---------------------------------------------------------------- a callback that calls itself

  lemma {:induction false} NeverReturns(r: R, code: Conn.ExitCode, depth: nat)
    requires r.backup == Restart && (!r.started || code == Conn.Normal)
    ensures RestartWithin(r, code, depth).TooDeep?
    decreases depth
  {
    if depth > 0 {
      NeverReturns(r.(started := false, exitHook := Restart), code, depth - 1);
      NeverReturns(r.(exitHook := Restart), code, depth - 1);
    }
  }

  lemma Returns(r: R, code: Conn.ExitCode, depth: nat)
    requires depth > 0 && !(r.backup == Restart && (!r.started || code == Conn.Normal))
    ensures RestartWithin(r, code, depth).Done?
  {
  }

  /**
    The exit callback returns, whatever its depth, unless it is about to hand
    back to itself; and then no depth is enough.
   */
  lemma ReturnsUnlessSavedItself(r: R, code: Conn.ExitCode)
    ensures (forall depth :: RestartWithin(r, code, depth).TooDeep?)
            <==> r.backup == Restart && (!r.started || code == Conn.Normal)
  {
    if r.backup == Restart && (!r.started || code == Conn.Normal) {
      forall depth ensures RestartWithin(r, code, depth).TooDeep? { NeverReturns(r, code, depth); }
    } else {
      var depth: nat :| depth > 0;
      Returns(r, code, depth);
    }
  }

  /** A call of the exit callback that returns has armed a retry, or handed the exit back with its code. */
  lemma WhatRestartDoes(r: R, code: Conn.ExitCode, depth: nat)
    requires RestartWithin(r, code, depth).Done?
    ensures var t := RestartWithin(r, code, depth).r;
      if r.started && code != Conn.Normal then
        t.started && t.rerun && t.armed && t.exitHook == r.exitHook && t.record.returned == r.record.returned
      else
        && !t.started && t.exitHook == r.backup && t.backup == NoHook
        && t.record.returned == r.record.returned + [Return(r.backup, code)]
  {
    if r.backup == Restart && (!r.started || code == Conn.Normal) { NeverReturns(r, code, depth); }
  }

  /**
    A stop while a retry is armed loses the exit. A later start then saves the
    supervisor's own hook, and when that connection is closed the hook calls
    itself without end.
   */
  lemma StartAfterALostExit(r: R, callback: bool)
    requires Inv(r) && r.started && r.armed
    ensures var stopped := Step(r, Stop);
      var again := Step(stopped, Start(callback));
      var es := [Moved(S.Connects), Moved(S.Closes), Moved(S.Exits(Conn.Normal))];
      && !Enabled(stopped, Start(callback))
      && again.backup == Restart && again.record.saved == r.record.saved + [Restart]
      && Legal(again, es) && Exec(again, es).record.diverged
  {
    hide HooksOf;
  }

  /** So does a start before the exit of the session that was stopped, and its start callback is never made. */
  lemma StartBeforeTheExit(r: R, callback: bool)
    requires Inv(r) && r.started && r.session == S.Up
    ensures var stopped := Step(r, Stop);
      var again := Step(stopped, Start(callback));
      var es := [Moved(S.Exits(Conn.Normal))];
      && !Enabled(stopped, Start(callback))
      && again.backup == Restart && again.session == S.Closing
      && Legal(again, es) && Exec(again, es).record.diverged && Exec(again, es).record.greetings == 0
  {
    hide HooksOf;
  }

  // ---------------------------------------------------------------- giving up unasked

  /** What a plain error is to a connector in use: its session closes, and its exit will be a normal one. */
  lemma PlainErrorLooksNormal(c: Conn.C)
    requires ConnInv.Flags(c) && c.link == Conn.Up && !Conn.Stopping(c)
    ensures var d := Conn.Step(c, Conn.Fault(false));
      && Conn.Enabled(c, Conn.Fault(false)) && Refines.MoveOf(c, Conn.Fault(false)) == []
      && Conn.Enabled(d, Conn.Drained) && Refines.MoveOf(d, Conn.Drained) == [S.Closes]
      && ConnSessions.Due(Conn.Step(d, Conn.Drained)) == [Conn.Normal]
  {
    hide Conn.TellAll;
  }

  /**
    The documentation has the attempts go on until `stop` is called. A
    connection lost to a plain error closes and exits normally, and the
    supervisor takes that for a stop from outside: it gives up, with nothing
    under way, and hands the exit back.
   */
  lemma PlainErrorEndsTheAttempts(r: R)
    requires Inv(r) && r.started && r.session == S.Up
    ensures var es := [Moved(S.Closes), Moved(S.Exits(Conn.Normal))];
      var d := Exec(r, es);
      && Legal(r, es)
      && !d.started && Attempts(d) == 0
      && d.record.returned == r.record.returned + [Return(r.backup, Conn.Normal)] && d.exitHook == r.backup
  {
    hide HooksOf;
  }

  // ---------------------------------------------------------------- inside the start callback

  lemma FirstAttemptFails()
    ensures var r := Step(FRESH, Start(true));
      var t := Step(r, Moved(S.Fails));
      && Enabled(FRESH, Start(true)) && Enabled(r, Moved(S.Fails))
      && t.started && t.armed && t.rerun && t.callback && !t.needStop && t.session == S.Idle
      && t.expired == t.greeting == t.record.runs == 0
  {
  }

  lemma RetryConnects(r: R)
    requires r.started && r.armed && r.rerun && r.callback && !r.needStop && r.session == S.Idle
    requires r.expired == r.greeting == r.record.runs == 0
    ensures var r1 := Step(r, TimerExpires);
      var r2 := Step(r1, TimerFires);
      var t := Step(r2, Moved(S.Connects));
      && Enabled(r, TimerExpires) && Enabled(r1, TimerFires) && Enabled(r2, Moved(S.Connects))
      && t.started && t.session == S.Up && t.rerun && !t.armed && t.greeting == 1 && t.record.runs == 0
  {
    hide Exit, HandBack, RestartWithin;
  }

  lemma StopThenReturn(r: R)
    requires r.started && r.session == S.Up && r.rerun && r.greeting == 1
    ensures var d := Step(Step(r, Stop), CallbackReturns);
      && Enabled(r, Stop) && Enabled(Step(r, Stop), CallbackReturns)
      && !d.started && d.session == S.Closing && d.record.runs == r.record.runs + 1
  {
    hide Exit, HandBack, RestartWithin;
  }

  /**
    The first attempt fails, the retry connects, and the start callback stops the
    supervisor: as soon as it returns, the connector is run after the stop.
    `ConnectorDepartures.RunBehindAStop` says what that does to the stop.
   */
  lemma StopInsideTheCallback()
    ensures var before := [Start(true), Moved(S.Fails), TimerExpires, TimerFires, Moved(S.Connects)];
      var r := Exec(FRESH, before);
      var d := Exec(r, [Stop, CallbackReturns]);
      && Legal(FRESH, before) && Legal(r, [Stop, CallbackReturns])
      && r.started && r.greeting == 1 && r.rerun && !r.armed && r.record.runs == 0
      && !d.started && d.session == S.Closing && d.record.runs == 1
  {
    hide Exec, Legal, Step, Enabled;
    var s2 := Step(Step(FRESH, Start(true)), Moved(S.Fails));
    var s5 := Step(Step(Step(s2, TimerExpires), TimerFires), Moved(S.Connects));
    FirstAttemptFails();
    RetryConnects(s2);
    StopThenReturn(s5);
    Five(FRESH, Start(true), Moved(S.Fails), TimerExpires, TimerFires, Moved(S.Connects));
    Two(s5, Stop, CallbackReturns);
  }

  lemma Two(r: R, x: Event, y: Event)
    ensures Exec(r, [x, y]) == Step(Step(r, x), y)
    ensures Legal(r, [x, y]) <==> Enabled(r, x) && Enabled(Step(r, x), y)
  {
    hide Step, Enabled;
    assert [x] + ([y] + []) == [x, y];
    Before(r, x, [y] + []);
    Before(Step(r, x), y, []);
    Before(Step(Step(r, x), y), y, []);
  }

  lemma Five(r: R, a: Event, b: Event, c: Event, d: Event, e: Event)
    ensures var r1 := Step(r, a); var r2 := Step(r1, b); var r3 := Step(r2, c); var r4 := Step(r3, d);
      && Exec(r, [a, b, c, d, e]) == Step(r4, e)
      && (Legal(r, [a, b, c, d, e]) <==>
            Enabled(r, a) && Enabled(r1, b) && Enabled(r2, c) && Enabled(r3, d) && Enabled(r4, e))
  {
    hide Step, Enabled, Exec, Legal;
    assert [a] + ([b] + ([c] + [d, e])) == [a, b, c, d, e];
    var r1 := Step(r, a);
    var r2 := Step(r1, b);
    Before(r, a, [b] + ([c] + [d, e]));
    Before(r1, b, [c] + [d, e]);
    Before(r2, c, [d, e]);
    Two(Step(r2, c), d, e);
  }

  /** The way back to a connection, if nothing fails on it. */
  function Retry(r: R): seq<Event> {
    if r.session == S.Connecting then [Moved(S.Connects)]
    else if r.armed then [TimerExpires] + ([TimerFires] + [Moved(S.Connects)])
    else [TimerFires] + [Moved(S.Connects)]
  }

  lemma OneConnects(r: R)
    requires r.session == S.Connecting && !r.needStop && r.greeting == 0 && !r.callback && !r.rerun
    ensures var es := [Moved(S.Connects)];
      Legal(r, es) && Exec(r, es).session == S.Up && Exec(r, es).started == r.started && !Exec(r, es).record.ran
      && Exec(r, es).greeting == 0
  {
    assert [Moved(S.Connects)] + [] == [Moved(S.Connects)];
    Before(r, Moved(S.Connects), []);
    Before(Step(r, Moved(S.Connects)), Stop, []);
    hide Exec, Legal;
  }

  lemma ToOne(r: R)
    requires r.started && Single(r) && !Ready(r) && r.greeting == 0 && !r.callback && !r.rerun
    ensures Legal(r, Retry(r)) && Exec(r, Retry(r)).session == S.Up && Exec(r, Retry(r)).started
    ensures !Exec(r, Retry(r)).record.ran && Exec(r, Retry(r)).greeting == 0
  {
    hide Exec, Legal;
    if r.session == S.Connecting {
      OneConnects(r);
    } else if r.armed {
      var d := Step(r, TimerExpires);
      OneConnects(Step(d, TimerFires));
      Before(r, TimerExpires, [TimerFires] + [Moved(S.Connects)]);
      Before(d, TimerFires, [Moved(S.Connects)]);
    } else {
      OneConnects(Step(r, TimerFires));
      Before(r, TimerFires, [Moved(S.Connects)]);
    }
  }

  lemma MissedReturn(r: R)
    requires Inv(r) && r.started && r.greeting == 1 && r.rerun && !Ready(r)
    ensures var d := Step(r, CallbackReturns);
      && Enabled(r, CallbackReturns)
      && d.started && Single(d) && !Ready(d) && d.greeting == 0 && !d.callback && !d.rerun
  {
    hide HooksOf;
  }

  /**
    The connection fails while the start callback is in progress, and the callback
    returns before there is a new one: the run that is due is used up, and the next
    connection is up without being run.
   */
  lemma RunIsLost(r: R)
    requires Inv(r) && r.started && r.greeting == 1 && r.rerun && !Ready(r)
    ensures var d := Step(r, CallbackReturns);
      var t := Exec(d, Retry(d));
      && Enabled(r, CallbackReturns) && Legal(d, Retry(d))
      && t.started && t.session == S.Up && t.greeting == 0 && !t.record.ran
  {
    hide Exec, Legal, Inv, Step, Enabled, Single, Retry;
    MissedReturn(r);
    ToOne(Step(r, CallbackReturns));
  }

  /** Such a state comes about when the first connection is lost inside the callback. */
  lemma ConnectionIsLostInsideTheCallback()
    ensures var es := [Start(true), Moved(S.Connects)];
      var r := Exec(FRESH, es);
      && Legal(FRESH, es) && r.greeting == 1 && Enabled(r, Moved(S.Exits(Conn.AmqpError)))
      && var t := Step(r, Moved(S.Exits(Conn.AmqpError)));
         Inv(t) && t.started && t.greeting == 1 && t.rerun && !Ready(t)
  {
    var s1 := Step(FRESH, Start(true));
    var s2 := Step(s1, Moved(S.Connects));
    Two(FRESH, Start(true), Moved(S.Connects));
    hide Exec, Legal;
    FreshIsFine();
    StepKeepsInv(FRESH, Start(true));
    StepKeepsInv(s1, Moved(S.Connects));
    StepKeepsInv(s2, Moved(S.Exits(Conn.AmqpError)));
    hide Inv;
  }

  /** Started once, with the start callback in progress, and the connection it was made for lost. */
  predicate LostInside(r: R) {
    && r.started && r.armed && r.callback && !r.needStop && r.session == S.Idle && r.expired == 0
    && r.greeting == r.record.greetings == |r.record.saved| == 1
  }

  lemma FirstIsLost()
    ensures var s1 := Step(FRESH, Start(true));
      var s2 := Step(s1, Moved(S.Connects));
      && Enabled(FRESH, Start(true)) && Enabled(s1, Moved(S.Connects)) && Enabled(s2, Moved(S.Exits(Conn.AmqpError)))
      && LostInside(Step(s2, Moved(S.Exits(Conn.AmqpError))))
  {
  }

  lemma SecondComes(r: R)
    requires LostInside(r)
    ensures var r1 := Step(r, TimerExpires);
      var r2 := Step(r1, TimerFires);
      var t := Step(r2, Moved(S.Connects));
      && Enabled(r, TimerExpires) && Enabled(r1, TimerFires) && Enabled(r2, Moved(S.Connects))
      && t.greeting == t.record.greetings == 2 && |t.record.saved| == 1
  {
    hide Exit, HandBack, RestartWithin;
  }

  /**
    The connection is lost inside the start callback and comes back before it
    returns: the callback is called a second time, although the documentation has
    it called once, at the first connection.
   */
  lemma CallbackIsCalledTwice()
    ensures var es := [Start(true)] + [Moved(S.Connects), Moved(S.Exits(Conn.AmqpError)), TimerExpires, TimerFires,
                                       Moved(S.Connects)];
      var r := Exec(FRESH, es);
      && Legal(FRESH, es) && |r.record.saved| == 1 && r.record.greetings == 2 && r.greeting == 2
  {
    hide Exec, Legal, Step, Enabled, LostInside;
    var s1 := Step(FRESH, Start(true));
    FirstIsLost();
    SecondComes(Step(Step(s1, Moved(S.Connects)), Moved(S.Exits(Conn.AmqpError))));
    Five(s1, Moved(S.Connects), Moved(S.Exits(Conn.AmqpError)), TimerExpires, TimerFires, Moved(S.Connects));
    Before(FRESH, Start(true), [Moved(S.Connects), Moved(S.Exits(Conn.AmqpError)), TimerExpires, TimerFires,
                                Moved(S.Connects)]);
  }
}
