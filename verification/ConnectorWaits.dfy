/** Runs in which the waits of a connector do not end. */
module ConnectorWaits {
  import opened Options
  import opened ConnectorSpec
  import opened ConnectorTheorems
  import opened ConnectorRest
  import Trx = TransceiverSpec
  import TrxInv = TransceiverInvariant

  // ---------------------------------------------------------------- behind a connection that is gone

  /**
    The i-th transceiver is on its way out, waiting for an answer; and the handler
    has gone down of itself, or is going down and the task of a stop, inside its
    drain, waits for the transceiver.
   */
  predicate Held(c: C, i: nat) {
    && c.ready
    && ((c.link == Down && Drains(c.stack) == 0) || (c.link == Draining && TaskInside(c.stack)))
    && i < |c.members| && Trx.Rank(c.members[i].t.state) > Trx.Rank(Trx.Ready) && !Ended(c.members[i])
  }

  /** The broker answers no more, nothing else goes wrong, no transceiver is dropped by hand, and the list stays. */
  predicate Silent(e: Event) {
    match e
    case Happens(_, event) => !event.Answer? && !event.Drop?
    case Fault(_) => false
    case Remove(_) => false
    case _ => true
  }

  lemma TellHeld(m: Member, e: Trx.Event)
    requires Trx.Rank(m.t.state) > Trx.Rank(Trx.Ready) && !Ended(m) && !e.Answer? && !e.Drop?
    ensures Tell(m, e) == m
  {
  }

  lemma TellAllHeld(ms: seq<Member>, i: nat)
    requires i < |ms| && Trx.Rank(ms[i].t.state) > Trx.Rank(Trx.Ready) && !Ended(ms[i])
    ensures |TellAll(ms, Trx.Stop)| == |ms| && TellAll(ms, Trx.Stop)[i] == ms[i]
  {
    hide Tell, Ended;
    TellHeld(ms[i], Trx.Stop);
  }

  lemma StartIdleHeld(ms: seq<Member>, connection: Option<nat>, i: nat)
    requires i < |ms| && !Ended(ms[i])
    ensures |StartIdle(ms, connection)| == |ms| && StartIdle(ms, connection)[i] == ms[i]
  {
  }

  lemma TaskNotOver(stack: Stack, ms: seq<Member>, i: nat)
    requires stack.On? && TasksSeen(stack, ms) && i < |ms| && !Ended(ms[i])
    ensures stack.top != Task(0)
  {
    hide Ended;
  }

  lemma TurnHolds(c: C, i: nat)
    requires Inv(c) && Held(c, i) && Enabled(c, Turn)
    ensures Held(TakeTurn(c), i) && TakeTurn(c).exits == c.exits
  {
    hide AllSound, Trx.Rank, Passes;
    TaskNotOver(c.stack, c.members, i);
  }

  lemma SilenceHolds(c: C, e: Event, i: nat)
    requires Inv(c) && Held(c, i) && Enabled(c, e) && Silent(e)
    ensures Held(Step(c, e), i) && Step(c, e).exits == c.exits
  {
    hide Tell, TellAll, StartIdle, TakeTurn, OnShutdown, Tidy, MayStart, Ended, Trx.Enabled, Trx.Rank;
    TellAllHeld(c.members, i);
    TellHeld(c.members[i], Trx.Stop);
    StartIdleHeld(c.members, c.connection, i);
    match e
    case Happens(j, event) => if j == i { TellHeld(c.members[i], event); }
    case Turn => TurnHolds(c, i);
    case _ =>
  }

  /**
    If a transceiver is still waiting for the broker when the handler has gone
    down, or when the task of a stop waits for it inside the drain, and the
    broker, behind a connection that is gone, answers nothing, then no run,
    however long, ends the session.
   */
  lemma {:induction false} SilenceHoldsForEver(c: C, i: nat, es: seq<Event>)
    requires Inv(c) && Held(c, i) && Legal(c, es) && forall e | e in es :: Silent(e)
    ensures Held(Exec(c, es), i) && Exec(c, es).exits == c.exits
    decreases es
  {
    if es != [] {
      hide Step, Enabled, Inv, Held, Silent;
      assert es[0] in es;
      StepKeepsInv(c, es[0]);
      SilenceHolds(c, es[0], i);
      SilenceHoldsForEver(Step(c, es[0]), i, es[1..]);
    }
  }

  // ---------------------------------------------------------------- behind a stop

  /** The connection is up, and the i-th transceiver is ready. */
  predicate Kept(c: C, i: nat) {
    c.ready && c.link == Up && i < |c.members| && c.members[i].t.state == Trx.Ready
  }

  /** Nobody stops or drops the transceiver, nothing goes wrong with it, and the connection stays. */
  predicate Undisturbed(e: Event, i: nat) {
    match e
    case Stop => false
    case Fault(_) => false
    case Close(j) => j != i
    case Remove(_) => false
    case Happens(j, event) => j == i ==> event.Send? || event.Incoming?
    case _ => true
  }

  lemma TellKept(m: Member, e: Trx.Event)
    requires m.t.state == Trx.Ready && (e.Send? || e.Incoming?)
    ensures Tell(m, e).t.state == Trx.Ready
  {
  }

  lemma TurnKeeps(c: C, i: nat)
    requires Inv(c) && Kept(c, i) && Enabled(c, Turn)
    ensures Kept(TakeTurn(c), i) && TakeTurn(c).exits == c.exits
  {
    hide AllSound, Passes;
    TaskNotOver(c.stack, c.members, i);
  }

  lemma UndisturbedKeeps(c: C, e: Event, i: nat)
    requires Inv(c) && Kept(c, i) && Enabled(c, e) && Undisturbed(e, i)
    ensures Kept(Step(c, e), i) && Step(c, e).exits == c.exits
  {
    hide Tell, TellAll, StartIdle, TakeTurn, OnShutdown, Tidy, MayStart, Trx.Enabled;
    StartIdleHeld(c.members, c.connection, i);
    match e
    case Happens(j, event) => if j == i { TellKept(c.members[i], event); }
    case Turn => TurnKeeps(c, i);
    case _ =>
  }

  /** As long as a transceiver is ready and left alone, no run ends the session, whatever stop is waiting for it. */
  lemma {:induction false} KeptForEver(c: C, i: nat, es: seq<Event>)
    requires Inv(c) && Kept(c, i) && Legal(c, es) && forall e | e in es :: Undisturbed(e, i)
    ensures Kept(Exec(c, es), i) && Exec(c, es).exits == c.exits
    decreases es
  {
    if es != [] {
      hide Step, Enabled, Inv, Kept, Undisturbed;
      assert es[0] in es;
      StepKeepsInv(c, es[0]);
      UndisturbedKeeps(c, es[0], i);
      KeptForEver(Step(c, es[0]), i, es[1..]);
    }
  }
}
