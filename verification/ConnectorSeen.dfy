/** What has happened by the time a wait of a connector is over, whatever ran inside it. */
module ConnectorSeen {
  import opened Options
  import opened ConnectorSpec
  import opened ConnectorTheorems
  import Trx = TransceiverSpec

  function Depth(stack: Stack): nat {
    if stack.Empty? then 0 else Depth(stack.below) + 1
  }

  /** The wait so far up the stack. */
  function At(stack: Stack, d: nat): Option<Wait> {
    if stack.Empty? then None else if Depth(stack.below) == d then Some(stack.top) else At(stack.below, d)
  }

  /** A wait has still to see the j-th transceiver. */
  predicate Awaits(w: Wait, j: nat) {
    match w
    case Drain => false
    case Task(i) => j < i
    case Running(i) => j < i
    case ForReady(i) => j == i
    case ForEnd(i) => j == i
  }

  /** `open` and `run` are content with a transceiver that is ready. */
  predicate OrReady(w: Wait) {
    w.ForReady? || w.Running?
  }

  /** There is no such transceiver, or it is at its end, or ready if that is enough. */
  predicate Served(c: C, j: nat, orReady: bool) {
    j >= |c.members| || Ended(c.members[j]) || (orReady && c.members[j].t.state == Trx.Ready)
  }

  ghost predicate SeenIn(c: C, es: seq<Event>, j: nat, orReady: bool) {
    exists k | 0 <= k <= |es| :: Served(Exec(c, es[..k]), j, orReady)
  }

  lemma {:induction false} NoneAbove(stack: Stack, d: nat)
    requires d >= Depth(stack)
    ensures At(stack, d) == None
  {
    if stack.On? { NoneAbove(stack.below, d); }
  }

  /** A step leaves every wait but the innermost as it is. */
  lemma OnlyTheTopMoves(c: C, e: Event)
    requires Enabled(c, e)
    ensures var s, t := c.stack, Step(c, e).stack;
      || t == s
      || (t.On? && t.below == s)
      || (s.On? && t == s.below)
      || (s.On? && t.On? && t.below == s.below)
  {
    hide Tell, TellAll, StartIdle, Ended, MayStart, Passes;
  }

  /** What the innermost wait does at an event: it goes past those it has seen, and no others. */
  lemma TopMoves(c: C, e: Event, j: nat)
    requires Enabled(c, e) && c.stack.On? && Awaits(c.stack.top, j) && !Served(c, j, OrReady(c.stack.top))
    ensures var t := Step(c, e).stack;
      || t == c.stack
      || (t.On? && t.below == c.stack)
      || (t.On? && t.below == c.stack.below && Awaits(t.top, j) && OrReady(t.top) == OrReady(c.stack.top))
  {
    hide Tell, TellAll, StartIdle, Ended, MayStart;
  }

  lemma WaitStays(s: Stack, t: Stack, d: nat)
    requires At(s, d).Some? && Depth(s) > d + 1
    requires t == s || (t.On? && t.below == s) || (s.On? && t == s.below) || (s.On? && t.On? && t.below == s.below)
    ensures At(t, d) == At(s, d)
  {
    if s.On? { NoneAbove(s.below, Depth(s.below)); }
  }

  lemma TopIsAt(s: Stack, d: nat)
    requires At(s, d).Some?
    ensures Depth(s) > d && (Depth(s) == d + 1 ==> s.top == At(s, d).value)
  {
    if d >= Depth(s) { NoneAbove(s, d); }
  }

  lemma SeenAtOnce(c: C, es: seq<Event>, j: nat, orReady: bool)
    requires Served(c, j, orReady)
    ensures SeenIn(c, es, j, orReady)
  {
    assert es[..0] == [];
    assert Served(Exec(c, es[..0]), j, orReady);
  }

  lemma SeenLater(c: C, es: seq<Event>, j: nat, orReady: bool)
    requires es != [] && SeenIn(Step(c, es[0]), es[1..], j, orReady)
    ensures SeenIn(c, es, j, orReady)
  {
    hide Step, Served;
    var k :| 0 <= k <= |es[1..]| && Served(Exec(Step(c, es[0]), es[1..][..k]), j, orReady);
    assert es[..k + 1][0] == es[0] && es[..k + 1][1..] == es[1..][..k];
    assert Served(Exec(c, es[..k + 1]), j, orReady);
  }

  /** A wait that has still to see a transceiver goes on over the next step. */
  lemma WaitGoesOn(c: C, e: Event, d: nat, j: nat)
    requires Enabled(c, e) && At(c.stack, d).Some?
    requires Awaits(At(c.stack, d).value, j) && !Served(c, j, OrReady(At(c.stack, d).value))
    ensures var w, v := At(c.stack, d), At(Step(c, e).stack, d);
      v.Some? && Awaits(v.value, j) && OrReady(v.value) == OrReady(w.value)
  {
    TopIsAt(c.stack, d);
    OnlyTheTopMoves(c, e);
    if Depth(c.stack) > d + 1 {
      WaitStays(c.stack, Step(c, e).stack, d);
    } else {
      TopMoves(c, e, j);
    }
    hide Step, Enabled, Served, Awaits, OrReady;
  }

  lemma {:induction false} WaitSees(c: C, es: seq<Event>, d: nat, j: nat)
    requires Legal(c, es) && At(c.stack, d).Some? && Awaits(At(c.stack, d).value, j)
    requires Depth(Exec(c, es).stack) <= d
    ensures SeenIn(c, es, j, OrReady(At(c.stack, d).value))
    decreases es
  {
    hide Step, Enabled, Served, Awaits, OrReady, SeenIn;
    var orReady := OrReady(At(c.stack, d).value);
    if Served(c, j, orReady) {
      SeenAtOnce(c, es, j, orReady);
    } else {
      TopIsAt(c.stack, d);
      WaitGoesOn(c, es[0], d, j);
      WaitSees(Step(c, es[0]), es[1..], d, j);
      SeenLater(c, es, j, orReady);
    }
  }

  /** The wait an event begins. */
  function Begun(c: C, e: Event): Option<Wait> {
    match e
    case Open(i) => if c.ready && i < |c.members| && Ended(c.members[i]) then Some(ForReady(i)) else None
    case Close(i) => if i < |c.members| && !Ended(c.members[i]) then Some(ForEnd(i)) else None
    case Run => if c.ready then Some(Running(|c.members|)) else None
    case BeginTask => Some(Task(|c.members|))
    case _ => None
  }

  lemma BegunIsOnTop(c: C, e: Event)
    requires Enabled(c, e) && Begun(c, e).Some?
    ensures Step(c, e).stack == On(Begun(c, e).value, c.stack)
  {
    hide Tell, TellAll, StartIdle, Ended, MayStart;
  }

  /**
    No wait is over early. When `open`, `close`, `run` or the task of a stop has
    come to its end, whatever ran inside it, each transceiver it waits for was at
    some point since it began at its end, or, for `open` and `run`, ready.
   */
  lemma NoWaitEndsEarly(c: C, e: Event, es: seq<Event>, j: nat)
    requires Enabled(c, e) && Begun(c, e).Some? && Awaits(Begun(c, e).value, j)
    requires Legal(Step(c, e), es) && Depth(Exec(Step(c, e), es).stack) <= Depth(c.stack)
    ensures SeenIn(Step(c, e), es, j, OrReady(Begun(c, e).value))
  {
    hide Step, Enabled, Begun, Legal, Exec, SeenIn, Awaits, OrReady;
    BegunIsOnTop(c, e);
    WaitSees(Step(c, e), es, Depth(c.stack), j);
  }

  /** The transceiver a wait looks at next. */
  function Next(w: Wait): Option<nat> {
    match w
    case Drain => None
    case Task(i) => if i > 0 then Some(i - 1) else None
    case Running(i) => if i > 0 then Some(i - 1) else None
    case ForReady(i) => Some(i)
    case ForEnd(i) => Some(i)
  }

  /** Nor is one held up: its turn goes on if and only if the transceiver it looks at lets it. */
  lemma TurnsGoOnExactly(c: C)
    requires Enabled(c, Turn)
    ensures var next := Next(c.stack.top);
      Step(c, Turn) != c <==> next.None? || Served(c, next.value, OrReady(c.stack.top))
  {
    hide Ended;
  }
}
