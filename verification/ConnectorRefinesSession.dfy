/** A connector whose handler is not made to shut down twice at once goes through sessions as `Sessions` has them. */
module ConnectorRefinesSession {
  import opened Options
  import opened ConnectorSpec
  import opened ConnectorTheorems
  import opened ConnectorSessions
  import Trx = TransceiverSpec
  import S = Sessions

  /** The session a connector is in. */
  function Seen(c: C): S.Session {
    if c.link == Connecting then S.Connecting
    else if !c.ready then S.Idle
    else if Stopping(c) then S.Closing
    else S.Up
  }

  /** What an event means for the session: at most one move. */
  function MoveOf(c: C, e: Event): seq<S.Move> {
    match e
    case AsyncStart => if c.ready then [] else [S.Begins]
    case ConnectOk => [S.Connects]
    case ConnectFails => [S.Fails]
    case Stop => if Seen(c) == S.Up then [S.Closes] else []
    case Drained =>
      if c.exiting then [S.Exits(Normal)]
      else if c.amqpError then [S.Exits(AmqpError)]
      else if Seen(c) == S.Up then [S.Closes] else []
    case Turn =>
      if c.stack.On? && c.stack.top == Task(0) && c.link == Down && c.ready then [S.Exits(Normal)] else []
    case _ => []
  }

  function Moves(c: C, es: seq<Event>): seq<S.Move>
    decreases es
  {
    if es == [] then [] else MoveOf(c, es[0]) + Moves(Step(c, es[0]), es[1..])
  }

  /** The moves are possible, they lead where the connector goes, and they report what it reports. */
  predicate Matches(c: C, d: C, ms: seq<S.Move>) {
    && S.Possible(Seen(c), ms)
    && Seen(d) == S.Last(Seen(c), ms)
    && d.exits == c.exits + S.AllReported(ms)
  }

  /** The same for at most one move, spelled out. */
  predicate Fits(c: C, d: C, ms: seq<S.Move>) {
    if ms == [] then Seen(d) == Seen(c) && d.exits == c.exits
    else
      && |ms| == 1 && S.MayHappen(Seen(c), ms[0])
      && Seen(d) == S.After(ms[0]) && d.exits == c.exits + S.Reported(ms[0])
  }

  lemma FitsMatches(c: C, d: C, ms: seq<S.Move>)
    requires Fits(c, d, ms)
    ensures Matches(c, d, ms)
  {
    hide Seen;
    if ms == [] {
      assert c.exits + [] == c.exits;
    } else {
      assert ms[1..] == [];
      assert S.Possible(Seen(c), ms);
      assert Seen(d) == S.Last(Seen(c), ms);
      assert S.AllReported(ms) == S.Reported(ms[0]) + S.AllReported(ms[1..]);
      assert S.AllReported(ms) == S.Reported(ms[0]);
    }
  }

  lemma DrainFits(c: C)
    requires Flags(c) && Orderly(c) && Enabled(c, Drained)
    ensures Fits(c, Step(c, Drained), MoveOf(c, Drained))
  {
    hide TellAll;
  }

  lemma TurnFits(c: C)
    requires Flags(c) && Orderly(c) && Enabled(c, Turn) && !Clashes(c, Turn)
    ensures Fits(c, TakeTurn(c), MoveOf(c, Turn))
  {
    hide Ended, Passes;
  }

  lemma StepFits(c: C, e: Event)
    requires Flags(c) && Orderly(c) && Enabled(c, e) && !Clashes(c, e)
    ensures Fits(c, Step(c, e), MoveOf(c, e))
  {
    hide TakeTurn, Tell, TellAll, StartIdle, Ended, MayStart, Trx.Enabled;
    match e
    case Drained => DrainFits(c);
    case Turn => TurnFits(c);
    case _ =>
  }

  lemma StepMatches(c: C, e: Event)
    requires Flags(c) && Orderly(c) && Enabled(c, e) && !Clashes(c, e)
    ensures Matches(c, Step(c, e), MoveOf(c, e))
  {
    hide Step, Matches, Fits, Flags, Orderly, Enabled, Clashes;
    StepFits(c, e);
    FitsMatches(c, Step(c, e), MoveOf(c, e));
  }

  /** At most one move, then the rest. */
  lemma MatchesThen(c: C, d: C, e: C, m: seq<S.Move>, ms: seq<S.Move>)
    requires |m| <= 1 && Matches(c, d, m) && Matches(d, e, ms)
    ensures Matches(c, e, m + ms)
  {
    if m == [] {
      assert m + ms == ms;
    } else {
      assert (m + ms)[0] == m[0] && (m + ms)[1..] == ms && m[1..] == [];
      assert S.AllReported(m) == S.Reported(m[0]) + [];
    }
  }

  /** Along a whole run, too. */
  lemma {:induction false} RunMatches(c: C, es: seq<Event>)
    requires Inv(c) && Orderly(c) && Legal(c, es) && Quiet(c, es)
    ensures Matches(c, Exec(c, es), Moves(c, es))
    decreases es
  {
    if es != [] {
      hide Step, Enabled, Flags, Tidy, Orderly, Clashes, Matches, Late;
      var d := Step(c, es[0]);
      StepKeepsInv(c, es[0]);
      StepStaysOrderly(c, es[0]);
      StepMatches(c, es[0]);
      RunMatches(d, es[1..]);
      MatchesThen(c, d, Exec(d, es[1..]), MoveOf(c, es[0]), Moves(d, es[1..]));
    }
  }

  /** In every run without a clash, a connector is a session machine: same state, same exits. */
  lemma EveryRunIsSessions(es: seq<Event>)
    requires Legal(FRESH, es) && Quiet(FRESH, es)
    ensures var c, ms := Exec(FRESH, es), Moves(FRESH, es);
      S.Possible(S.Idle, ms) && Seen(c) == S.Last(S.Idle, ms) && c.exits == S.AllReported(ms)
  {
    hide Exec, Moves, Legal, Quiet, S.Possible, S.Last, S.AllReported;
    RunMatches(FRESH, es);
  }
}
