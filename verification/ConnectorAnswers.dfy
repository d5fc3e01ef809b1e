/**
  Whether a session that closes comes to its end: what is known of the
  connector's waits, said of the sessions a supervisor sees.
 */
module ConnectorAnswers {
  import opened Options
  import opened ConnectorSpec
  import opened ConnectorTheorems
  import opened ConnectorSessions
  import opened ConnectorRest
  import opened ConnectorWaits
  import opened ConnectorRefinesSession
  import Trx = TransceiverSpec
  import S = Sessions

  predicate EndsSession(m: S.Move) {
    m.Fails? || m.Exits?
  }

  /** No move along the run ends the session. */
  predicate NoneEnds(ms: seq<S.Move>) {
    forall m | m in ms :: !EndsSession(m)
  }

  /** A task inside the drain would stop the handler once more. */
  predicate Clean(c: C) {
    c.ready && c.link == Draining ==> !TaskInside(c.stack)
  }

  lemma AloneIsQuiet(c: C)
    requires Flags(c) && Owing(c) && Orderly(c) && Clean(c) && AllEnded(c.members) && !AtRest(c)
    ensures !Clashes(c, NextAlone(c)) && Clean(StepAlone(c)) && Orderly(StepAlone(c))
  {
    hide AllEnded, Work;
  }

  lemma {:induction false} LeftAloneIsQuiet(c: C, fuel: nat)
    requires Flags(c) && Owing(c) && Orderly(c) && Clean(c) && AllEnded(c.members)
    ensures Quiet(c, LeftAlone(c, fuel))
    decreases fuel
  {
    hide Step, Enabled, Flags, Owing, Orderly, Clean, AllEnded, AtRest, NextAlone, StepAlone, Clashes;
    if fuel > 0 && !AtRest(c) {
      AloneIs(c);
      AloneIsQuiet(c);
      AloneKeeps(c);
      LeftAloneIsQuiet(StepAlone(c), fuel - 1);
    }
  }

  lemma RestIsIdle(c: C)
    requires Flags(c) && !c.ready && c.link != Connecting
    ensures Seen(c) == S.Idle
  {
  }

  lemma NothingConnects(c: C)
    requires c.link != Connecting && !AtRest(c)
    ensures StepAlone(c).link != Connecting
  {
  }

  lemma {:induction false} NeverConnects(c: C, fuel: nat)
    requires Flags(c) && Owing(c) && AllEnded(c.members) && c.link != Connecting
    ensures Exec(c, LeftAlone(c, fuel)).link != Connecting && Flags(Exec(c, LeftAlone(c, fuel)))
    decreases fuel
  {
    hide Step, Enabled, Flags, Owing, AllEnded, AtRest, NextAlone, StepAlone;
    if fuel > 0 && !AtRest(c) {
      AloneIs(c);
      AloneKeeps(c);
      NothingConnects(c);
      NeverConnects(StepAlone(c), fuel - 1);
    }
  }

  lemma SameTail(a: seq<ExitCode>, b: seq<ExitCode>, c: seq<ExitCode>)
    requires a + b == a + c
    ensures b == c
  {
    assert b == (a + b)[|a|..];
    assert c == (a + c)[|a|..];
  }

  lemma OneIsExpected(c: C)
    requires c.ready && Ending(c) && Clean(c)
    ensures |Expected(c)| == 1
  {
    hide TaskInside, HasTask;
  }

  /**
    A session that closes, whether a stop waits to take a working connection down
    or the handler is going or gone, comes to its end by itself once every
    transceiver is at its end: left alone it makes moves that lead to no session,
    and report the one exit expected. Only a stop whose task is inside the drain is
    not among them.
   */
  lemma EndedSessionExits(c: C, fuel: nat)
    requires Inv(c) && Owing(c) && Orderly(c) && Clean(c) && AllEnded(c.members) && fuel >= Work(c)
    requires c.ready && Ending(c)
    ensures var es := LeftAlone(c, fuel); var ms := Moves(c, es);
      && Legal(c, es) && Quiet(c, es)
      && S.Possible(Seen(c), ms) && S.Last(Seen(c), ms) == S.Idle
      && S.AllReported(ms) == Expected(c) && |Expected(c)| == 1
  {
    hide Step, Enabled, Legal, Exec, Quiet, Moves, AllEnded, Work, LeftAlone, Tidy, S.Possible, S.Last,
         S.AllReported, Seen;
    LeftAloneExits(c, fuel);
    LeftAloneIsQuiet(c, fuel);
    NeverConnects(c, fuel);
    RunMatches(c, LeftAlone(c, fuel));
    RestIsIdle(Exec(c, LeftAlone(c, fuel)));
    OneIsExpected(c);
    SameTail(c.exits, Expected(c), S.AllReported(Moves(c, LeftAlone(c, fuel))));
  }

  lemma HeldMoves(c: C, e: Event, i: nat)
    requires Inv(c) && (Held(c, i) || Kept(c, i)) && Enabled(c, e)
    requires Held(c, i) ==> Silent(e)
    requires Kept(c, i) ==> Undisturbed(e, i)
    ensures NoneEnds(MoveOf(c, e))
  {
    hide AllSound, MayStart, Trx.Enabled, Trx.Rank, Passes;
    if c.stack.On? { TaskNotOver(c.stack, c.members, i) by { HeldRuns(c, i); } }
  }

  lemma HeldRuns(c: C, i: nat)
    requires Inv(c) && (Held(c, i) || Kept(c, i))
    ensures TasksSeen(c.stack, c.members) && i < |c.members| && !Ended(c.members[i])
  {
    hide AllSound;
  }

  lemma NoneEndsAfter(xs: seq<S.Move>, ys: seq<S.Move>)
    requires NoneEnds(xs) && NoneEnds(ys)
    ensures NoneEnds(xs + ys)
  {
  }

  /** A session held up by a transceiver the broker no longer answers never ends. */
  lemma {:induction false} HeldSessionStays(c: C, i: nat, es: seq<Event>)
    requires Inv(c) && Held(c, i) && Legal(c, es) && forall e | e in es :: Silent(e)
    ensures NoneEnds(Moves(c, es))
    decreases es
  {
    if es != [] {
      assert es[0] in es;
      HeldIsNotKept(c, i);
      hide Step, Enabled, Inv, Held, Kept, Silent, MoveOf, NoneEnds;
      HeldMoves(c, es[0], i);
      StepKeepsInv(c, es[0]);
      SilenceHolds(c, es[0], i);
      HeldSessionStays(Step(c, es[0]), i, es[1..]);
      NoneEndsAfter(MoveOf(c, es[0]), Moves(Step(c, es[0]), es[1..]));
    }
  }

  lemma HeldIsNotKept(c: C, i: nat)
    ensures !(Held(c, i) && Kept(c, i))
  {
  }

  /** Nor does one with a transceiver that is ready and left alone, whether or not a stop waits for it. */
  lemma {:induction false} KeptSessionStays(c: C, i: nat, es: seq<Event>)
    requires Inv(c) && Kept(c, i) && Legal(c, es) && forall e | e in es :: Undisturbed(e, i)
    ensures NoneEnds(Moves(c, es))
    decreases es
  {
    if es != [] {
      assert es[0] in es;
      HeldIsNotKept(c, i);
      hide Step, Enabled, Inv, Held, Kept, Undisturbed, MoveOf, NoneEnds;
      HeldMoves(c, es[0], i);
      StepKeepsInv(c, es[0]);
      UndisturbedKeeps(c, es[0], i);
      KeptSessionStays(Step(c, es[0]), i, es[1..]);
      NoneEndsAfter(MoveOf(c, es[0]), Moves(Step(c, es[0]), es[1..]));
    }
  }
}
