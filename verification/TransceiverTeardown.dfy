/** What a run takes down again before it ends, whatever stops it and whatever answers come. */
module TransceiverTeardown {
  import opened Options
  import opened TransceiverSpec
  import opened TransceiverInvariant
  import opened TransceiverHistory
  import opened TransceiverBroker

  predicate AskedExchange(trace: seq<Action>) {
    exists a | a in trace :: a.Issued? && a.request.op.Exchange?
  }

  predicate AskedClose(trace: seq<Action>) {
    exists a | a in trace :: a.Issued? && a.request.op.Close?
  }

  predicate AskedUnbind(trace: seq<Action>) {
    exists a | a in trace :: a.Issued? && a.request.op.Unbind?
  }

  /** What keeps a run from taking down what it has set up: it is dropped, or loses its channel, or is refused. */
  predicate Cuts(c: Cause) {
    match c
    case Refused(op, _) => op.OpenFor? || op.Unbind? || op.Remove? || op.Subscription? || op.Watch?
    case _ => true
  }

  predicate CutShort(causes: seq<Cause>) {
    exists c | c in causes :: Cuts(c)
  }

  /** What keeps it from asking for the unbinding. */
  predicate Severs(c: Cause) {
    match c
    case Refused(op, _) => op.OpenFor? || op.Subscription? || op.Watch?
    case _ => true
  }

  predicate Severed(causes: seq<Cause>) {
    exists c | c in causes :: Severs(c)
  }

  /** The channel has been closed, or is asked to close. */
  predicate ClosedIn(trace: seq<Action>, chan: nat) {
    Abandoned(chan) in trace || Issued(Request(chan, Close)) in trace
  }

  /** Every channel that was used, but perhaps one, is closed. */
  predicate ClosedBut(trace: seq<Action>, chan: nat) {
    forall a | a in trace && a.Issued? && !a.request.op.OpenFor? ::
      a.request.chan == chan || ClosedIn(trace, a.request.chan)
  }

  predicate AllClosed(trace: seq<Action>) {
    forall a | a in trace && a.Issued? && !a.request.op.OpenFor? :: ClosedIn(trace, a.request.chan)
  }

  // ---------------------------------------------------------------- exchange and channel

  predicate Closing(s: T, causes: seq<Cause>) {
    && (s.state != End ==> ClosedBut(s.trace, s.channel))
    && match s.state
       case CreateChannel => !AskedExchange(s.trace) && AllClosed(s.trace)
       case CheckQueue => !AskedExchange(s.trace)
       case RecreateChannel => !AskedExchange(s.trace) && AllClosed(s.trace)
       case CloseChannel => AskedClose(s.trace) && AllClosed(s.trace)
       case End => !CutShort(causes) ==> AllClosed(s.trace) && (AskedExchange(s.trace) ==> AskedClose(s.trace))
       case _ => true
  }

  lemma CausesJoin(xs: seq<Cause>, ys: seq<Cause>)
    ensures CutShort(xs + ys) <==> CutShort(xs) || CutShort(ys)
    ensures Severed(xs + ys) <==> Severed(xs) || Severed(ys)
  {
    forall c ensures c in xs + ys <==> c in xs || c in ys {}
  }

  lemma OneCause(c: Cause)
    ensures CutShort([c]) <==> Cuts(c)
    ensures Severed([c]) <==> Severs(c)
  {
    assert c in [c];
  }

  lemma TraceJoins(xs: seq<Action>, ys: seq<Action>)
    ensures AskedExchange(xs + ys) <==> AskedExchange(xs) || AskedExchange(ys)
    ensures AskedClose(xs + ys) <==> AskedClose(xs) || AskedClose(ys)
    ensures AskedUnbind(xs + ys) <==> AskedUnbind(xs) || AskedUnbind(ys)
    ensures forall c | ClosedIn(xs, c) || ClosedIn(ys, c) :: ClosedIn(xs + ys, c)
  {
    forall a ensures a in xs + ys <==> a in xs || a in ys {}
  }

  /** What leads to the end: the channel has been closed, or nothing was set up, or the run is cut short. */
  lemma GoesToItsEnd(cfg: Config, s: T, e: Event)
    requires Shape(cfg, s) && Enabled(s, e)
    ensures match React(cfg, s, e)
      case Stay(_) => true
      case Go(t) =>
        t.state == End ==>
          s.state == CloseChannel || s.state == CreateChannel || CutShort(CauseOf(s, e))
  {
    if e.Answer? {
      WhoAnswers(cfg, s, e.request);
      if e.outcome.Fail? { OneCause(Refused(e.request.op, e.outcome.text)); }
    } else {
      OneCause(WasDropped);
    }
  }

  predicate EnteringClosing(t: T, causes: seq<Cause>) {
    && (t.state != End ==> ClosedBut(t.trace, t.channel))
    && match t.state
       case CreateChannel =>
         !AskedExchange(t.trace) && AllClosed(t.trace) && (t.connection.None? ==> CutShort(causes))
       case CheckQueue => !AskedExchange(t.trace)
       case RecreateChannel => !AskedExchange(t.trace)
       case End => !CutShort(causes) ==> AllClosed(t.trace) && (AskedExchange(t.trace) ==> AskedClose(t.trace))
       case _ => true
  }

  /** What is done on arrival asks for these. */
  lemma NewsAre(cfg: Config, u: T)
    ensures AskedExchange(News(cfg, u)) <==> u.state == CreateExchange
    ensures AskedClose(News(cfg, u)) <==> u.state == CloseChannel
    ensures !AskedUnbind(News(cfg, u))
    ensures u.state == CloseChannel ==> ClosedIn(News(cfg, u), u.channel)
    ensures u.state == RecreateChannel || u.state == UnbindQueue || u.state == RemoveQueue ==>
              ClosedIn(News(cfg, u), u.channel)
    ensures forall a | a in News(cfg, u) && a.Issued? && !a.request.op.OpenFor? ::
      a.request.chan == u.channel && u.state != CreateChannel && u.state != RecreateChannel && u.state != UnbindQueue
      && u.state != RemoveQueue && u.state != End
  {
    if |News(cfg, u)| > 0 { assert News(cfg, u)[0] in News(cfg, u); }
  }

  lemma ActLands(cfg: Config, u: T)
    ensures var v := Act(cfg, u);
      && v.state == u.state
      && (v.channel == u.channel || u.state == CreateChannel || u.state == RecreateChannel || u.state == UnbindQueue
          || u.state == RemoveQueue || u.state == End)
  {
  }

  lemma ActCloses(cfg: Config, u: T, causes: seq<Cause>)
    requires EnteringClosing(u, causes)
    ensures Closing(Act(cfg, u), causes)
  {
    hide Act, News, AskedExchange, AskedClose, AskedUnbind, CutShort, ClosedIn;
    ActAdds(cfg, u);
    ActLands(cfg, u);
    NewsAre(cfg, u);
    TraceJoins(u.trace, News(cfg, u));
  }

  lemma SettleCloses(cfg: Config, t: T, causes: seq<Cause>)
    requires EnteringClosing(t, causes)
    ensures EnteringClosing(Settle(cfg, t), causes)
  {
    hide AskedExchange, AskedClose, CutShort, ClosedBut, AllClosed;
  }

  lemma ReactCloses(cfg: Config, s: T, e: Event, causes: seq<Cause>)
    requires Inv(cfg, s) && Enabled(s, e) && Closing(s, causes)
    ensures var after := (if Starts(s, e) then [] else causes) + CauseOf(s, e);
      match React(cfg, s, e) case Stay(t) => Closing(t, after) case Go(t) => EnteringClosing(t, after)
  {
    hide AskedExchange, AskedClose, CutShort, ClosedIn;
    ReactAdds(cfg, s, e);
    TraceJoins(s.trace, Extra(cfg, s, e));
    GoesToItsEnd(cfg, s, e);
    CausesJoin(if Starts(s, e) then [] else causes, CauseOf(s, e));
    WhereTo(cfg, s, e);
    ExtraIsOnTheChannel(cfg, s, e);
    NothingYet();
    assert s.trace + [] == s.trace && causes + [] == causes;
    hide React, Extra, Inv, CauseOf;
  }

  lemma WhereTo(cfg: Config, s: T, e: Event)
    requires Shape(cfg, s) && Enabled(s, e)
    ensures match React(cfg, s, e)
      case Stay(_) => s.state == End ==> CauseOf(s, e) == [] && !Starts(s, e)
      case Go(t) =>
        && (t.state == CreateChannel ==> Starts(s, e) || (s.state == RecreateChannel && t.connection.Some?))
        && (t.state == CreateChannel && t.connection.None? ==> CutShort(CauseOf(s, e)))
        && (t.state == CheckQueue || t.state == RecreateChannel ==> s.state == CreateChannel || s.state == CheckQueue)
        && (Starts(s, e) ==> t.state == CreateChannel)
  {
    OneCause(NoConnection);
    if e.Answer? { WhoAnswers(cfg, s, e.request); }
    hide Knowledge, Learn, Granted, Leftover;
  }

  lemma ExtraIsOnTheChannel(cfg: Config, s: T, e: Event)
    ensures forall a | a in Extra(cfg, s, e) && a.Issued? :: a.request.chan == s.channel
  {
  }

  lemma NothingYet()
    ensures !AskedExchange([]) && !AskedClose([]) && AllClosed([])
  {
  }

  // ---------------------------------------------------------------- the binding

  /** Where a run is on its way from its consumer to the unbinding. */
  predicate Unbinds(cfg: Config, s: T, causes: seq<Cause>) {
    && (!cfg.listener ==> !AskedConsume(s.trace))
    && match s.state
       case UnbindQueue => Req(s, OpenFor(ForUnbind)) !in s.pending ==> AskedUnbind(s.trace)
       case CloseChannel => AskedConsume(s.trace) ==> AskedUnbind(s.trace)
       case End => AskedConsume(s.trace) && !Severed(causes) ==> AskedUnbind(s.trace)
       case _ => true
  }

  predicate EnteringUnbinds(cfg: Config, t: T, causes: seq<Cause>) {
    && (!cfg.listener ==> !AskedConsume(t.trace))
    && match t.state
       case CreateChannel => t.connection.None? ==> Severed(causes)
       case RemoveQueue => !AskedConsume(t.trace)
       case CloseChannel => AskedConsume(t.trace) ==> AskedUnbind(t.trace)
       case End => AskedConsume(t.trace) && !Severed(causes) ==> AskedUnbind(t.trace)
       case _ => true
  }

  lemma EnterUnbinds(cfg: Config, t: T, causes: seq<Cause>)
    requires Entering(cfg, t) && EnteringUnbinds(cfg, t, causes)
    ensures Unbinds(cfg, Enter(cfg, t), causes)
  {
    hide AskedConsume, AskedUnbind, Severed, AskedBind, AskedRemove;
    EnterAdds(cfg, t);
    EnterAsks(cfg, t);
    NewsAre(cfg, Settle(cfg, t));
    TraceJoins(t.trace, News(cfg, Settle(cfg, t)));
    hide News, Leftover, QueueInHand;
  }

  /** The unbinding has been asked for, or there is no consumer, or it cannot be asked for any more. */
  ghost predicate LeavesUnbound(s: T, t: T, severed: bool) {
    var asked := s.state == UnbindQueue && Req(s, OpenFor(ForUnbind)) !in s.pending;
    && (t.state == RemoveQueue ==> s.state == BindQueue)
    && (t.state == CloseChannel ==>
          || s.state == CheckQueue || s.state == CreateExchange || s.state == CreateQueue || s.state == RemoveQueue
          || asked)
    && (t.state == End ==>
          severed || s.state == CloseChannel || s.state == CreateChannel || s.state == RemoveQueue || asked)
    && (t.state == CreateChannel && t.connection.None? ==> severed)
  }

  lemma AnswerLeavesUnbound(cfg: Config, s: T, r: Request, outcome: Outcome)
    requires Shape(cfg, s) && Enabled(s, Answer(r, outcome))
    ensures match React(cfg, s, Answer(r, outcome))
      case Stay(_) => true
      case Go(t) => LeavesUnbound(s, t, Severed(CauseOf(s, Answer(r, outcome))))
  {
    WhoAnswers(cfg, s, r);
    if outcome.Fail? { OneCause(Refused(r.op, outcome.text)); }
    hide Knowledge, Learn, Granted, Leftover, Severed;
  }

  lemma EndsUnbound(cfg: Config, s: T, e: Event)
    requires Shape(cfg, s) && Enabled(s, e)
    ensures match React(cfg, s, e)
      case Stay(_) => true
      case Go(t) => LeavesUnbound(s, t, Severed(CauseOf(s, e)))
  {
    if e.Answer? {
      AnswerLeavesUnbound(cfg, s, e.request, e.outcome);
      hide React, LeavesUnbound, CauseOf, Shape, Enabled, Severed;
    } else {
      OneCause(NoConnection);
      OneCause(WasDropped);
      hide Knowledge, Severed;
    }
  }

  lemma ReactUnbinds(cfg: Config, s: T, e: Event, causes: seq<Cause>)
    requires Inv(cfg, s) && Enabled(s, e) && Ownership(cfg, s) && Unbinds(cfg, s, causes)
    ensures var after := (if Starts(s, e) then [] else causes) + CauseOf(s, e);
      match React(cfg, s, e) case Stay(t) => Unbinds(cfg, t, after) case Go(t) => EnteringUnbinds(cfg, t, after)
  {
    hide AskedConsume, AskedUnbind, Severed, AskedBind, AskedRemove, OnlyRemoves, OughtToRemove;
    ReactAdds(cfg, s, e);
    TraceJoins(s.trace, Extra(cfg, s, e));
    Joined(s.trace, Extra(cfg, s, e));
    EndsUnbound(cfg, s, e);
    CausesJoin(if Starts(s, e) then [] else causes, CauseOf(s, e));
    WhereTo(cfg, s, e);
    NothingAskedYet();
    ExtraAsks(cfg, s, e);
    if s.state == UnbindQueue { StaysOpening(cfg, s, e); }
    assert s.trace + [] == s.trace && causes + [] == causes;
    hide React, Extra, Inv, CauseOf;
  }

  lemma ExtraAsks(cfg: Config, s: T, e: Event)
    ensures !AskedConsume(Extra(cfg, s, e))
    ensures e.Answer? && e.outcome.Ok? && e.request.op == OpenFor(ForUnbind) ==> AskedUnbind(Extra(cfg, s, e))
  {
    if Extra(cfg, s, e) != [] { assert Extra(cfg, s, e)[0] in Extra(cfg, s, e); }
  }

  lemma StaysOpening(cfg: Config, s: T, e: Event)
    requires Shape(cfg, s) && Enabled(s, e) && s.state == UnbindQueue
    ensures match React(cfg, s, e)
      case Go(_) => true
      case Stay(t) =>
        || t.pending == s.pending
        || (e.Answer? && e.outcome.Ok? && e.request.op == OpenFor(ForUnbind))
  {
    if e.Answer? { WhoAnswers(cfg, s, e.request); }
  }

  // ---------------------------------------------------------------- whole runs

  ghost predicate TakesDown(cfg: Config, s: T, causes: seq<Cause>) {
    Closing(s, causes) && Unbinds(cfg, s, causes)
  }

  lemma StepTakesDown(cfg: Config, s: T, e: Event, causes: seq<Cause>)
    requires Inv(cfg, s) && Enabled(s, e) && Owns(cfg, s) && TakesDown(cfg, s, causes)
    ensures TakesDown(cfg, Step(cfg, s, e), (if Starts(s, e) then [] else causes) + CauseOf(s, e))
  {
    hide React, Enter, Closing, Unbinds, EnteringClosing, EnteringUnbinds, Outstanding, Knowledge, Codes, RecordOk,
         Settle, Entering, Ownership, InRange, RemovesItsOwn, CauseOf;
    var after := (if Starts(s, e) then [] else causes) + CauseOf(s, e);
    ReactLands(cfg, s, e);
    ReactCloses(cfg, s, e, causes);
    ReactUnbinds(cfg, s, e, causes);
    match React(cfg, s, e)
    case Stay(_) =>
    case Go(t) =>
      SettleCloses(cfg, t, after);
      ActCloses(cfg, Settle(cfg, t), after);
      EnterUnbinds(cfg, t, after);
      EnterIs(cfg, t);
  }

  lemma EnterIs(cfg: Config, t: T)
    ensures Enter(cfg, t) == Act(cfg, Settle(cfg, t))
  {
    hide Act, Settle;
  }

  lemma {:induction false} RunTakesDown(cfg: Config, s: T, es: seq<Event>, causes: seq<Cause>)
    requires Inv(cfg, s) && Legal(cfg, s, es) && Owns(cfg, s) && TakesDown(cfg, s, causes)
    ensures TakesDown(cfg, Exec(cfg, s, es), Causes(cfg, s, es, causes))
    decreases es
  {
    if es != [] {
      hide Step, Inv, Owns, TakesDown, Enabled, CauseOf;
      StepKeepsInv(cfg, s, es[0]);
      StepOwns(cfg, s, es[0]);
      StepTakesDown(cfg, s, es[0], causes);
      RunTakesDown(cfg, Step(cfg, s, es[0]), es[1..],
                   (if Starts(s, es[0]) then [] else causes) + CauseOf(s, es[0]));
    }
  }

  lemma FreshIsDown(cfg: Config)
    ensures Inv(cfg, FRESH) && TakesDown(cfg, FRESH, [])
  {
  }

  /**
    A finished run has closed every channel it asked anything of, and if it asked
    for its exchange it has asked its last channel to close, whatever was refused
    or stopped; unless it was dropped, a channel could not be had or failed while
    in use, or an unbinding or a deletion was refused.
   */
  lemma UsedChannelsAreClosed(cfg: Config, es: seq<Event>)
    requires Legal(cfg, FRESH, es)
    ensures var t := Exec(cfg, FRESH, es);
      t.state == End && !CutShort(Causes(cfg, FRESH, es, [])) ==>
        AllClosed(t.trace) && (AskedExchange(t.trace) ==> AskedClose(t.trace))
  {
    FreshIsDown(cfg);
    FreshOwns(cfg);
    RunTakesDown(cfg, FRESH, es, []);
    hide AllClosed, AskedExchange, AskedClose, CutShort, Exec, Causes;
  }

  /**
    A finished run that asked for a consumer has asked for its unbinding, unless
    it was dropped, or a channel could not be had or failed while in use.
   */
  lemma ConsumersAreUnbound(cfg: Config, es: seq<Event>)
    requires Legal(cfg, FRESH, es)
    ensures var t := Exec(cfg, FRESH, es);
      t.state == End && !Severed(Causes(cfg, FRESH, es, [])) && AskedConsume(t.trace) ==> AskedUnbind(t.trace)
  {
    FreshIsDown(cfg);
    FreshOwns(cfg);
    RunTakesDown(cfg, FRESH, es, []);
    hide AskedConsume, AskedUnbind, Severed, Exec, Causes;
  }
}
