/** What the record of a run says: how it ended, what it asked the broker for, and what reached the user. */
module TransceiverHistory {
  import opened Options
  import opened TransceiverSpec
  import opened TransceiverInvariant

  // ---------------------------------------------------------------- one exit callback for each start

  predicate Starts(s: T, e: Event) {
    e.Start? && s.state == End
  }

  function Exits(trace: seq<Action>): nat {
    if trace == [] then 0
    else Exits(trace[..|trace| - 1]) + (if trace[|trace| - 1].Exited? then 1 else 0)
  }

  lemma {:induction false} NoExits(trace: seq<Action>)
    requires NoExit(trace)
    ensures Exits(trace) == 0
  {
    if trace != [] {
      assert trace[|trace| - 1] in trace;
      NoExits(trace[..|trace| - 1]);
    }
  }

  /** How often the exit callback is made during one step, which may begin a new record. */
  function ExitsDuring(cfg: Config, s: T, e: Event): int {
    Exits(Step(cfg, s, e).trace) - (if Starts(s, e) then 0 else Exits(s.trace))
  }

  function TotalStarts(cfg: Config, s: T, es: seq<Event>): nat
    decreases es
  {
    if es == [] then 0
    else (if Starts(s, es[0]) then 1 else 0) + TotalStarts(cfg, Step(cfg, s, es[0]), es[1..])
  }

  function TotalExits(cfg: Config, s: T, es: seq<Event>): int
    decreases es
  {
    if es == [] then 0 else ExitsDuring(cfg, s, es[0]) + TotalExits(cfg, Step(cfg, s, es[0]), es[1..])
  }

  lemma RecordCounts(s: T)
    requires RecordOk(s)
    ensures Exits(s.trace) == if s.state == End && s.trace != [] then 1 else 0
  {
    if s.trace != [] {
      if s.state == End { NoExits(s.trace[..|s.trace| - 1]); } else { NoExits(s.trace); }
    }
  }

  lemma AtRestUntilStarted(cfg: Config, s: T, e: Event)
    requires Inv(cfg, s) && s.state == End && Enabled(s, e) && !e.Start?
    ensures Step(cfg, s, e) == s
  {
  }

  lemma StartLeavesARecord(cfg: Config, s: T, e: Event)
    requires s.state != End || e.Start?
    ensures match React(cfg, s, e)
      case Stay(t) => t.state != End
      case Go(t) => Enter(cfg, t).state == End ==> Enter(cfg, t).trace != []
  {
    hide Deliver;
    if e.Answer? {
      AnswerStays(cfg, Arrive(s, e.request, e.outcome), e.request.op, e.outcome);
    }
  }

  lemma AnswerStays(cfg: Config, s: T, op: Op, outcome: Outcome)
    ensures match Deliver(cfg, s, op, outcome) case Stay(t) => t.state == s.state case Go(_) => true
  {
  }

  lemma {:induction false} StartsAndExits(cfg: Config, s: T, es: seq<Event>)
    requires Inv(cfg, s) && Legal(cfg, s, es)
    ensures var t := Exec(cfg, s, es);
      TotalExits(cfg, s, es) + (if t.state != End then 1 else 0)
      == TotalStarts(cfg, s, es) + (if s.state != End then 1 else 0)
    decreases es
  {
    if es != [] {
      hide React, Enter, Outstanding, Knowledge, Codes, RecordOk;
      var t := Step(cfg, s, es[0]);
      StepKeepsInv(cfg, s, es[0]);
      RecordCounts(s);
      RecordCounts(t);
      if s.state == End && !es[0].Start? {
        AtRestUntilStarted(cfg, s, es[0]);
      } else {
        StartLeavesARecord(cfg, s, es[0]);
      }
      StartsAndExits(cfg, t, es[1..]);
    }
  }

  /** Over any history, the exit callback has been made once for each start, but for the run still going. */
  lemma OneExitPerStart(cfg: Config, es: seq<Event>)
    requires Legal(cfg, FRESH, es)
    ensures var t := Exec(cfg, FRESH, es);
      && TotalExits(cfg, FRESH, es) == TotalStarts(cfg, FRESH, es) - (if t.state != End then 1 else 0)
      && (t.state == End && t.trace != [] ==> t.trace[|t.trace| - 1] == Exited(t.ec))
  {
    StartsAndExits(cfg, FRESH, es);
    ReachableInv(cfg, es);
  }

  // ---------------------------------------------------------------- what an event records

  /** What an event itself adds to the record, before any arrival. */
  function Extra(cfg: Config, s: T, e: Event): seq<Action> {
    match e
    case Send(route, message, mandatory) =>
      if s.state == Ready then [Published(s.channel, cfg.exchange, route, message, mandatory)] else []
    case Incoming(message) => if s.state == Ready then [Delivered(s.channel, message)] else []
    case Answer(r, Ok(_)) =>
      if r.op == OpenFor(ForUnbind) then [Issued(Req(s, Unbind(cfg.exchange, s.recvQueue, cfg.route)))]
      else if r.op == OpenFor(ForRemove) then [Issued(Req(s, Remove(s.recvQueue)))]
      else []
    case _ => []
  }

  lemma ReactAdds(cfg: Config, s: T, e: Event)
    requires Shape(cfg, s) && Enabled(s, e)
    ensures var t := React(cfg, s, e).s;
      && t.trace == (if Starts(s, e) then [] else s.trace) + Extra(cfg, s, e)
      && t.channel == s.channel
      && (React(cfg, s, e).Stay? ==> t.state == s.state)
      && (Extra(cfg, s, e) != [] ==> s.state == Ready || s.state == UnbindQueue || s.state == RemoveQueue)
      && (React(cfg, s, e).Go? ==> Extra(cfg, s, e) == [])
  {
    if e.Answer? { WhoAnswers(cfg, s, e.request); }
    hide Knowledge, Learn, Granted, Leftover;
  }

  // ---------------------------------------------------------------- the exit code

  /** What went wrong in a run, in order: the reference the exit code is measured against. */
  datatype Cause = NoConnection | Refused(op: Op, text: string) | WasDropped

  function CauseOf(s: T, e: Event): seq<Cause> {
    match e
    case Start(None) => if s.state == End then [NoConnection] else []
    case Drop => if s.state == End then [] else [WasDropped]
    case Answer(r, Fail(text)) =>
      if !r.op.Check? && (StepOf(r.op) == s.state || r.op.Watch?) then [Refused(r.op, text)] else []
    case _ => []
  }

  /** The causes of the current run, after a history. */
  function Causes(cfg: Config, s: T, es: seq<Event>, before: seq<Cause>): seq<Cause>
    decreases es
  {
    if es == [] then before
    else Causes(cfg, Step(cfg, s, es[0]), es[1..],
                (if Starts(s, es[0]) then [] else before) + CauseOf(s, es[0]))
  }

  function CodeOf(c: Cause): ExitCode {
    match c
    case NoConnection => CreateChannelError
    case WasDropped => Dropped
    case Refused(op, _) =>
      match op
      case OpenFor(_) => CreateChannelError
      case Exchange(_) => CreateExchangeError
      case Declare(_, _) => CreateQueueError
      case Bind(_, _, _) => BindQueueError
      case Consume(_) => CreateConsumerError
      case Cancel(_) => ConsumerCancelError
      case Unbind(_, _, _) => UnbindQueueError
      case Remove(_) => RemoveQueueError
      case Close => CloseChannelError
      case _ => ChannelAbruptlyClosedError
  }

  /** A drop decides; else a channel that could not be had; else whatever went wrong first. */
  function Verdict(causes: seq<Cause>): ExitCode {
    if WasDropped in causes then Dropped
    else if exists c | c in causes :: CodeOf(c) == CreateChannelError then CreateChannelError
    else if causes == [] then NoError
    else CodeOf(causes[0])
  }

  lemma VerdictGrows(causes: seq<Cause>, c: Cause)
    ensures Verdict([c]) == CodeOf(c)
    ensures c == WasDropped ==> Verdict(causes + [c]) == Dropped
    ensures Verdict(causes) != Dropped && CodeOf(c) == CreateChannelError ==>
              Verdict(causes + [c]) == CreateChannelError
    ensures causes != [] && c != WasDropped && CodeOf(c) != CreateChannelError ==>
              Verdict(causes + [c]) == Verdict(causes)
    ensures (Verdict(causes) == NoError <==> causes == [])
  {
    assert c in [c];
    assert c in causes + [c];
    if causes != [] {
      assert (causes + [c])[0] == causes[0] && causes[0] in causes;
    }
    forall x | x in causes + [c] ensures x in causes || x == c {}
    forall x | x in causes ensures x in causes + [c] {}
  }

  lemma EnterKeepsCode(cfg: Config, t: T)
    ensures Enter(cfg, t).ec ==
            if t.state == CreateChannel && t.connection.None? then CreateChannelError else t.ec
  {
  }

  lemma RefusalCounts(cfg: Config, s: T, r: Request, text: string, causes: seq<Cause>)
    requires Shape(cfg, s) && Codes(cfg, s) && Enabled(s, Answer(r, Fail(text))) && s.ec == Verdict(causes)
    ensures React(cfg, s, Answer(r, Fail(text))).s.ec == Verdict(causes + CauseOf(s, Answer(r, Fail(text))))
  {
    hide Knowledge, Verdict;
    WhoAnswers(cfg, s, r);
    VerdictGrows(causes, Refused(r.op, text));
    assert causes + [] == causes && [] + [Refused(r.op, text)] == [Refused(r.op, text)];
  }

  lemma OtherwiseCounts(cfg: Config, s: T, e: Event, causes: seq<Cause>)
    requires Enabled(s, e) && s.ec == Verdict(causes) && !(e.Answer? && e.outcome.Fail?) && !e.Start?
    ensures React(cfg, s, e).s.ec == Verdict(causes + CauseOf(s, e))
  {
    VerdictGrows(causes, WasDropped);
    assert causes + [] == causes;
  }

  lemma StartCounts(cfg: Config, s: T, c: Option<nat>, causes: seq<Cause>)
    requires Inv(cfg, s) && s.ec == Verdict(causes)
    ensures Step(cfg, s, Start(c)).ec ==
            Verdict((if s.state == End then [] else causes) + CauseOf(s, Start(c)))
  {
    VerdictGrows([], NoConnection);
    assert causes + [] == causes && [] + [NoConnection] == [NoConnection];
  }

  lemma RunningKeepsItsConnection(cfg: Config, s: T, e: Event)
    requires Shape(cfg, s) && !e.Start?
    ensures match React(cfg, s, e) case Stay(_) => true case Go(t) => t.state == CreateChannel ==> t.connection.Some?
  {
  }

  lemma StepCounts(cfg: Config, s: T, e: Event, causes: seq<Cause>)
    requires Inv(cfg, s) && Enabled(s, e) && s.ec == Verdict(causes)
    ensures Step(cfg, s, e).ec == Verdict((if Starts(s, e) then [] else causes) + CauseOf(s, e))
  {
    if e.Start? {
      StartCounts(cfg, s, e.connection, causes);
    } else {
      hide React, Enter, Verdict, CauseOf;
      if e.Answer? && e.outcome.Fail? {
        RefusalCounts(cfg, s, e.request, e.outcome.text, causes);
      } else {
        OtherwiseCounts(cfg, s, e, causes);
      }
      RunningKeepsItsConnection(cfg, s, e);
      match React(cfg, s, e)
      case Stay(_) =>
      case Go(t) => EnterKeepsCode(cfg, t);
    }
  }

  lemma {:induction false} RunCounts(cfg: Config, s: T, es: seq<Event>, causes: seq<Cause>)
    requires Inv(cfg, s) && Legal(cfg, s, es) && s.ec == Verdict(causes)
    ensures Exec(cfg, s, es).ec == Verdict(Causes(cfg, s, es, causes))
    decreases es
  {
    if es != [] {
      hide Step, Verdict, CauseOf, Inv;
      StepKeepsInv(cfg, s, es[0]);
      StepCounts(cfg, s, es[0], causes);
      RunCounts(cfg, Step(cfg, s, es[0]), es[1..],
                (if Starts(s, es[0]) then [] else causes) + CauseOf(s, es[0]));
    }
  }

  /** The exit code is decided by what went wrong in the run, and an error text goes with every code but one. */
  lemma ExitCodeIsTheVerdict(cfg: Config, es: seq<Event>)
    requires Legal(cfg, FRESH, es)
    ensures var t := Exec(cfg, FRESH, es);
      && t.ec == Verdict(Causes(cfg, FRESH, es, []))
      && (t.error == "" <==> t.ec == NoError)
  {
    RunCounts(cfg, FRESH, es, []);
    ReachableInv(cfg, es);
  }

  // ---------------------------------------------------------------- the error text

  function TextOf(c: Cause): string {
    match c
    case NoConnection => "no AMQP connection"
    case WasDropped => "transceiver dropped"
    case Refused(_, text) => text
  }

  /** The last of the causes that is a channel that could not be had. */
  function ChannelCause(causes: seq<Cause>): Option<Cause> {
    if causes == [] then None
    else
      var c := causes[|causes| - 1];
      if CodeOf(c) == CreateChannelError then Some(c) else ChannelCause(causes[..|causes| - 1])
  }

  /** The text goes with the code: that of the drop, else of the channel, else of what went wrong first. */
  function Text(causes: seq<Cause>): string {
    if WasDropped in causes then TextOf(WasDropped)
    else match ChannelCause(causes)
      case Some(c) => TextOf(c)
      case None => if causes == [] then "" else TextOf(causes[0])
  }

  lemma ChannelCauseGrows(causes: seq<Cause>, c: Cause)
    ensures ChannelCause(causes + [c]) == if CodeOf(c) == CreateChannelError then Some(c) else ChannelCause(causes)
  {
    hide CodeOf;
    assert (causes + [c])[..|causes|] == causes;
  }

  lemma TextGrows(causes: seq<Cause>, c: Cause)
    ensures Text([]) == "" && causes + [] == causes
    ensures causes == [] ==> Text(causes + [c]) == TextOf(c)
    ensures c == WasDropped ==> Text(causes + [c]) == TextOf(c)
    ensures WasDropped !in causes && CodeOf(c) == CreateChannelError ==> Text(causes + [c]) == TextOf(c)
    ensures causes != [] && CodeOf(c) != CreateChannelError && c != WasDropped ==> Text(causes + [c]) == Text(causes)
  {
    ChannelCauseGrows(causes, c);
    NoChannelCauseYet();
    DropStays(causes, c);
    hide ChannelCause, CodeOf, TextOf;
    assert causes + [] == causes;
    if causes != [] { assert (causes + [c])[0] == causes[0]; }
  }

  lemma NoChannelCauseYet()
    ensures ChannelCause([]) == None
  {
  }

  lemma DropStays(causes: seq<Cause>, c: Cause)
    ensures WasDropped in causes + [c] <==> WasDropped in causes || c == WasDropped
  {
  }

  lemma RefusalTells(cfg: Config, s: T, r: Request, text: string, causes: seq<Cause>)
    requires Shape(cfg, s) && Codes(cfg, s) && Enabled(s, Answer(r, Fail(text)))
    requires s.ec == Verdict(causes) && s.error == Text(causes)
    ensures React(cfg, s, Answer(r, Fail(text))).s.error == Text(causes + CauseOf(s, Answer(r, Fail(text))))
  {
    hide Knowledge, Verdict, Text, ChannelCause;
    WhoAnswers(cfg, s, r);
    VerdictGrows(causes, Refused(r.op, text));
    TextGrows(causes, Refused(r.op, text));
    NotDropped(causes);
  }

  lemma NotDropped(causes: seq<Cause>)
    ensures Verdict(causes) != Dropped ==> WasDropped !in causes
  {
  }

  lemma OtherwiseTells(cfg: Config, s: T, e: Event, causes: seq<Cause>)
    requires Enabled(s, e) && s.error == Text(causes) && !(e.Answer? && e.outcome.Fail?) && !e.Start?
    ensures React(cfg, s, e).s.error == Text(causes + CauseOf(s, e))
  {
    hide Text, ChannelCause;
    TextGrows(causes, WasDropped);
  }

  lemma StartTells(cfg: Config, s: T, c: Option<nat>, causes: seq<Cause>)
    requires s.error == Text(causes)
    ensures Step(cfg, s, Start(c)).error == Text((if s.state == End then [] else causes) + CauseOf(s, Start(c)))
  {
    hide Text, ChannelCause;
    TextGrows(causes, NoConnection);
    TextGrows([], NoConnection);
  }

  lemma EnterKeepsText(cfg: Config, t: T)
    ensures t.state != CreateChannel || t.connection.Some? ==> Enter(cfg, t).error == t.error
  {
  }

  lemma StepTells(cfg: Config, s: T, e: Event, causes: seq<Cause>)
    requires Inv(cfg, s) && Enabled(s, e) && s.ec == Verdict(causes) && s.error == Text(causes)
    ensures Step(cfg, s, e).error == Text((if Starts(s, e) then [] else causes) + CauseOf(s, e))
  {
    if e.Start? {
      hide Inv, Text;
      StartTells(cfg, s, e.connection, causes);
    } else {
      hide React, Enter, Verdict, Text, CauseOf;
      if e.Answer? && e.outcome.Fail? {
        RefusalTells(cfg, s, e.request, e.outcome.text, causes);
      } else {
        OtherwiseTells(cfg, s, e, causes);
      }
      RunningKeepsItsConnection(cfg, s, e);
      match React(cfg, s, e)
      case Stay(_) =>
      case Go(t) => EnterKeepsText(cfg, t);
    }
  }

  lemma {:induction false} RunTells(cfg: Config, s: T, es: seq<Event>, causes: seq<Cause>)
    requires Inv(cfg, s) && Legal(cfg, s, es) && s.ec == Verdict(causes) && s.error == Text(causes)
    ensures Exec(cfg, s, es).error == Text(Causes(cfg, s, es, causes))
    decreases es
  {
    if es != [] {
      hide Step, Verdict, Text, CauseOf, Inv;
      StepKeepsInv(cfg, s, es[0]);
      StepCounts(cfg, s, es[0], causes);
      StepTells(cfg, s, es[0], causes);
      RunTells(cfg, Step(cfg, s, es[0]), es[1..],
               (if Starts(s, es[0]) then [] else causes) + CauseOf(s, es[0]));
    }
  }

  /** The error text, too, is that of what decided the code. */
  lemma ErrorTextGoesWithTheCode(cfg: Config, es: seq<Event>)
    requires Legal(cfg, FRESH, es)
    ensures Exec(cfg, FRESH, es).error == Text(Causes(cfg, FRESH, es, []))
  {
    RunTells(cfg, FRESH, es, []);
  }
}
