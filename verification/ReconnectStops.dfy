/** What comes after a supervisor has been stopped. */
module ReconnectStops {
  import opened ReconnectSpec
  import opened ReconnectTheorems
  import Conn = ConnectorSpec
  import S = Sessions

  function Fired(es: seq<Event>): nat {
    if es == [] then 0 else Bit(es[0].TimerFires?) + Fired(es[1..])
  }

  lemma StoppedStep(r: R, e: Event)
    requires Inv(r) && !r.started && Enabled(r, e) && !e.Start?
    ensures var t := Step(r, e);
      && !t.started && t.record.greetings == r.record.greetings
      && t.expired + Bit(e.TimerFires?) == r.expired
  {
    hide HooksOf, RunIfDue;
    RunStays(r.(greeting := if r.greeting > 0 then r.greeting - 1 else 0, callback := false));
  }

  lemma RunStays(r: R)
    ensures var t := RunIfDue(r);
      t.started == r.started && t.expired == r.expired && t.record.greetings == r.record.greetings
  {
  }

  /**
    After a stop, one attempt more can begin at most, and only if its timer had
    gone off before; whatever it comes to, no start callback is made.
   */
  lemma {:induction false} StoppedIsUnused(r: R, es: seq<Event>)
    requires Inv(r) && !r.started && Legal(r, es) && NoStart(es)
    ensures var t := Exec(r, es);
      && !t.started && t.record.greetings == r.record.greetings
      && Fired(es) <= r.expired <= 1
    decreases es
  {
    hide Step, Enabled, Inv, Attempts;
    if es != [] {
      assert es[0] in es;
      StepKeepsInv(r, es[0]);
      StoppedStep(r, es[0]);
      StoppedIsUnused(Step(r, es[0]), es[1..]);
    }
    AtMostOneFired(r);
  }

  lemma AtMostOneFired(r: R)
    requires Inv(r)
    ensures r.expired <= 1
  {
    hide HooksOf, Greetings;
  }

  // ---------------------------------------------------------------- whether the connector is run after it

  /** A run can still come: a start callback is in progress, a run is due, and there is or will be a connection. */
  predicate RunLooms(r: R) {
    r.greeting > 0 && r.rerun && Attempts(r) > 0
  }

  lemma LoomsStep(r: R, e: Event)
    requires Inv(r) && !r.started && Enabled(r, e) && !e.Start?
    ensures var t := Step(r, e);
      && t.record.runs + Bit(RunLooms(t)) <= r.record.runs + Bit(RunLooms(r))
      && t.record.runs >= r.record.runs
  {
    hide HooksOf, Greetings, Exit;
    if e.Moved? && (e.move.Fails? || e.move.Exits?) { EndedForGood(r, e); }
  }

  lemma EndedForGood(r: R, e: Event)
    requires Inv(r) && !r.started && Enabled(r, e) && e.Moved? && (e.move.Fails? || e.move.Exits?)
    ensures Attempts(Step(r, e)) == 0 && Step(r, e).record.runs == r.record.runs
  {
    hide HooksOf, Greetings;
  }

  lemma {:induction false} LoomsRun(r: R, es: seq<Event>)
    requires Inv(r) && !r.started && Legal(r, es) && NoStart(es)
    ensures r.record.runs <= Exec(r, es).record.runs <= r.record.runs + Bit(RunLooms(r))
    decreases es
  {
    if es != [] {
      assert es[0] in es;
      hide Step, Enabled, Inv, RunLooms;
      StepKeepsInv(r, es[0]);
      StoppedStep(r, es[0]);
      LoomsStep(r, es[0]);
      LoomsRun(Step(r, es[0]), es[1..]);
    }
  }

  /** What leads to the run, if the session goes that way and the callback returns then. */
  function ToTheRun(r: R): seq<Event> {
    if Ready(r) then [CallbackReturns]
    else if r.session == S.Connecting then [Moved(S.Connects)] + [CallbackReturns]
    else [TimerFires] + ([Moved(S.Connects)] + [CallbackReturns])
  }

  lemma Before(r: R, e: Event, es: seq<Event>)
    ensures Exec(r, [e] + es) == Exec(Step(r, e), es)
    ensures Legal(r, [e] + es) <==> Enabled(r, e) && Legal(Step(r, e), es)
    ensures NoStart([e] + es) <==> !e.Start? && NoStart(es)
    ensures Exec(r, []) == r && Legal(r, []) && NoStart([])
  {
    hide Step, Enabled;
    assert ([e] + es)[1..] == es;
    forall x ensures x in [e] + es <==> x == e || x in es {}
  }

  lemma ReturnRuns(r: R)
    requires Ready(r) && r.greeting > 0 && r.rerun
    ensures Legal(r, [CallbackReturns]) && NoStart([CallbackReturns])
    ensures Exec(r, [CallbackReturns]).record.runs == r.record.runs + 1
  {
    assert [CallbackReturns] + [] == [CallbackReturns];
    Before(r, CallbackReturns, []);
    Before(Step(r, CallbackReturns), CallbackReturns, []);
    hide Exec, Legal;
  }

  lemma ConnectRuns(r: R)
    requires !r.started && r.session == S.Connecting && r.needStop && r.greeting > 0 && r.rerun
    ensures var es := [Moved(S.Connects)] + [CallbackReturns];
      Legal(r, es) && NoStart(es) && Exec(r, es).record.runs == r.record.runs + 1
  {
    ReturnRuns(Step(r, Moved(S.Connects)));
    Before(r, Moved(S.Connects), [CallbackReturns]);
    hide Exec, Legal;
  }

  lemma ItCanRun(r: R)
    requires Inv(r) && !r.started && RunLooms(r)
    ensures Legal(r, ToTheRun(r)) && NoStart(ToTheRun(r)) && Exec(r, ToTheRun(r)).record.runs == r.record.runs + 1
  {
    hide HooksOf, Exec, Legal, NoStart, Greetings;
    if Ready(r) {
      ReturnRuns(r);
    } else if r.session == S.Connecting {
      ConnectRuns(r);
    } else {
      var d := Step(r, TimerFires);
      ConnectRuns(d);
      Before(r, TimerFires, [Moved(S.Connects)] + [CallbackReturns]);
    }
  }

  lemma StopLooms(r: R)
    requires Inv(r) && r.started
    ensures Enabled(r, Stop) && !Step(r, Stop).started && Step(r, Stop).record == r.record
    ensures RunLooms(Step(r, Stop)) <==> r.greeting > 0 && r.rerun && !r.armed
  {
    hide HooksOf, Greetings;
  }

  /** Some way of going on after the stop has the connector run. */
  ghost predicate CanStillRun(r: R) {
    exists es :: Legal(r, es) && NoStart(es) && Exec(r, es).record.runs > r.record.runs
  }

  /**
    A stopped supervisor can still run the connector, and does so once at most, if
    and only if the stop came inside its start callback, while a run was due, and
    no retry was armed.
   */
  lemma StoppedStillRuns(r: R)
    requires Inv(r) && r.started
    ensures CanStillRun(Step(r, Stop)) <==> r.greeting > 0 && r.rerun && !r.armed
  {
    hide Step, Enabled, Inv, RunLooms, Exec, Legal, ToTheRun, NoStart;
    var d := Step(r, Stop);
    StopLooms(r);
    StepKeepsInv(r, Stop);
    if RunLooms(d) {
      ItCanRun(d);
    } else {
      forall es | Legal(d, es) && NoStart(es) ensures Exec(d, es).record.runs <= d.record.runs {
        LoomsRun(d, es);
      }
    }
  }

  lemma StoppedRunsOnce(r: R, es: seq<Event>)
    requires Inv(r) && r.started && Legal(Step(r, Stop), es) && NoStart(es)
    ensures r.record.runs <= Exec(Step(r, Stop), es).record.runs
            <= r.record.runs + Bit(r.greeting > 0 && r.rerun && !r.armed)
  {
    hide Step, Enabled, Inv, RunLooms, Exec, Legal, NoStart;
    StopLooms(r);
    StepKeepsInv(r, Stop);
    LoomsRun(Step(r, Stop), es);
  }

  // ---------------------------------------------------------------- whether it is answered

  predicate Ends(es: seq<Event>) {
    es != [] && (EndsSession(es[0]) || Ends(es[1..]))
  }

  predicate Waiting(r: R) {
    !r.started && r.exitHook == Restart
  }

  /** The code of the first end of a session. */
  function EndCode(es: seq<Event>): Conn.ExitCode
    requires Ends(es)
  {
    if EndsSession(es[0]) then CodeOf(es[0].move) else EndCode(es[1..])
  }

  /** One exit has been handed back, to the callback that was saved, with this code. */
  predicate HandedBack(r: R, t: R, code: Conn.ExitCode) {
    t.record.returned == r.record.returned + [Return(r.backup, code)]
  }

  lemma WaitingStep(r: R, e: Event)
    requires Inv(r) && Waiting(r) && Enabled(r, e)
    ensures var t := Step(r, e);
      if EndsSession(e) then !t.started && t.exitHook != Restart && HandedBack(r, t, CodeOf(e.move))
      else Waiting(t) && t.record.returned == r.record.returned && t.backup == r.backup
    ensures Attempts(r) == 0 ==> !EndsSession(e) && Attempts(Step(r, e)) == 0
  {
    hide HooksOf, Greetings, RunIfDue;
    RunAnswersNothing(r.(greeting := if r.greeting > 0 then r.greeting - 1 else 0, callback := false));
  }

  lemma RunAnswersNothing(r: R)
    ensures var t := RunIfDue(r);
      && t.started == r.started && t.exitHook == r.exitHook && t.backup == r.backup
      && t.record.returned == r.record.returned && Attempts(t) == Attempts(r)
  {
  }

  lemma BackStep(r: R, e: Event)
    requires Inv(r) && !r.started && r.exitHook != Restart && Enabled(r, e) && !e.Start?
    ensures var t := Step(r, e);
      !t.started && t.exitHook != Restart && t.record.returned == r.record.returned && !EndsSession(e)
  {
    hide HooksOf, Greetings, RunIfDue;
    RunAnswersNothing(r.(greeting := if r.greeting > 0 then r.greeting - 1 else 0, callback := false));
  }

  lemma {:induction false} BackStays(r: R, es: seq<Event>)
    requires Inv(r) && !r.started && r.exitHook != Restart && Legal(r, es) && NoStart(es)
    ensures Exec(r, es).record.returned == r.record.returned && Exec(r, es).exitHook != Restart && !Ends(es)
    decreases es
  {
    if es != [] {
      assert es[0] in es;
      StepKeepsInv(r, es[0]);
      BackStep(r, es[0]);
      hide Step, Enabled, Inv, EndsSession;
      BackStays(Step(r, es[0]), es[1..]);
    }
  }

  lemma {:induction false} WaitingRun(r: R, es: seq<Event>)
    requires Inv(r) && Waiting(r) && Legal(r, es) && NoStart(es)
    ensures var t := Exec(r, es);
      if Ends(es) then HandedBack(r, t, EndCode(es)) && t.exitHook != Restart
      else t.record.returned == r.record.returned && t.exitHook == Restart
    ensures Attempts(r) == 0 ==> !Ends(es)
    decreases es
  {
    if es != [] {
      assert es[0] in es;
      hide Step, Enabled, Inv, EndsSession, Attempts;
      var d := Step(r, es[0]);
      StepKeepsInv(r, es[0]);
      WaitingStep(r, es[0]);
      if Waiting(d) { WaitingRun(d, es[1..]); } else { BackStays(d, es[1..]); }
    }
  }

  lemma StopWaits(r: R)
    requires Inv(r) && r.started
    ensures var d := Step(r, Stop);
      && Enabled(r, Stop) && Waiting(d) && d.record.returned == r.record.returned && d.backup == r.backup
      && (Attempts(d) == 0 <==> r.armed)
  {
    hide HooksOf, Greetings;
  }

  /**
    A stop is answered, by the exit callback saved at the start and once, exactly
    when the session then under way comes to its end, and with the code of that
    end; and when a retry was armed
    there is none, whatever comes.
   */
  lemma StopIsAnswered(r: R, es: seq<Event>)
    requires Inv(r) && r.started && Legal(Step(r, Stop), es) && NoStart(es)
    ensures var t := Exec(Step(r, Stop), es);
      if Ends(es) then HandedBack(r, t, EndCode(es)) && t.exitHook != Restart
      else t.record.returned == r.record.returned && t.exitHook == Restart
    ensures r.armed ==> !Ends(es)
  {
    hide Step, Enabled, Legal, Exec, Inv, Ends, Attempts, NoStart;
    StopWaits(r);
    StepKeepsInv(r, Stop);
    WaitingRun(Step(r, Stop), es);
  }
}
