/** What a user sends and receives over a transceiver, against what the run records. */
module TransceiverMessages {
  import opened Options
  import opened TransceiverSpec
  import opened TransceiverInvariant
  import opened TransceiverHistory
  import Broker = TransceiverBroker

  function AsMessage(a: Action): seq<Action> {
    if a.Published? || a.Delivered? then [a] else []
  }

  /** The messages of a record, in order. */
  function Messages(trace: seq<Action>): seq<Action> {
    if trace == [] then [] else AsMessage(trace[0]) + Messages(trace[1..])
  }

  lemma FirstMessage(trace: seq<Action>)
    requires trace != []
    ensures Messages(trace) == AsMessage(trace[0]) + Messages(trace[1..])
  {
  }

  lemma {:induction false} MessagesJoin(xs: seq<Action>, ys: seq<Action>)
    ensures Messages(xs + ys) == Messages(xs) + Messages(ys)
    decreases xs
  {
    hide AsMessage;
    if xs == [] {
      assert xs + ys == ys;
    } else {
      MessagesJoin(xs[1..], ys);
      FirstMessage(xs + ys);
      assert (xs + ys)[1..] == xs[1..] + ys;
    }
  }

  lemma {:induction false} NoMessages(trace: seq<Action>)
    requires forall a | a in trace :: !a.Published? && !a.Delivered?
    ensures Messages(trace) == []
  {
    if trace != [] {
      assert trace[0] in trace;
      NoMessages(trace[1..]);
    }
  }

  /** The message that goes through at an event: whole, over the channel in hand, and only when ready. */
  function MessageOf(cfg: Config, s: T, e: Event): seq<Action> {
    if s.state != Ready then []
    else match e
      case Send(route, message, mandatory) => [Published(s.channel, cfg.exchange, route, message, mandatory)]
      case Incoming(message) => [Delivered(s.channel, message)]
      case _ => []
  }

  /** The messages of the current run, after a history. */
  function Passed(cfg: Config, s: T, es: seq<Event>, before: seq<Action>): seq<Action>
    decreases es
  {
    if es == [] then before
    else Passed(cfg, Step(cfg, s, es[0]), es[1..], (if Starts(s, es[0]) then [] else before) + MessageOf(cfg, s, es[0]))
  }

  lemma ArrivalIsSilent(cfg: Config, t: T)
    ensures Messages(Enter(cfg, t).trace) == Messages(t.trace)
  {
    Broker.EnterAdds(cfg, t);
    MessagesJoin(t.trace, Broker.News(cfg, Settle(cfg, t)));
    NewsAreSilent(cfg, Settle(cfg, t));
    assert Messages(t.trace) + [] == Messages(t.trace);
    hide Enter, Settle, Broker.News, Messages;
  }

  lemma NewsAreSilent(cfg: Config, u: T)
    ensures Messages(Broker.News(cfg, u)) == []
  {
    NoMessages(Broker.News(cfg, u));
  }

  lemma ExtraIsTheMessage(cfg: Config, s: T, e: Event)
    ensures Messages(Extra(cfg, s, e)) == MessageOf(cfg, s, e)
  {
    if Extra(cfg, s, e) != [] {
      assert Extra(cfg, s, e)[1..] == [];
      assert Messages([]) == [];
    }
  }

  lemma StepPasses(cfg: Config, s: T, e: Event)
    requires Inv(cfg, s) && Enabled(s, e)
    ensures Messages(Step(cfg, s, e).trace)
         == (if Starts(s, e) then [] else Messages(s.trace)) + MessageOf(cfg, s, e)
  {
    ReactAdds(cfg, s, e);
    ExtraIsTheMessage(cfg, s, e);
    MessagesJoin(if Starts(s, e) then [] else s.trace, Extra(cfg, s, e));
    hide React, Enter, Inv, Extra, MessageOf, Starts;
    match React(cfg, s, e)
    case Stay(_) =>
    case Go(t) => ArrivalIsSilent(cfg, t);
  }

  lemma {:induction false} RunPasses(cfg: Config, s: T, es: seq<Event>, before: seq<Action>)
    requires Inv(cfg, s) && Legal(cfg, s, es) && Messages(s.trace) == before
    ensures Messages(Exec(cfg, s, es).trace) == Passed(cfg, s, es, before)
    decreases es
  {
    if es != [] {
      hide Step, Inv, Enabled, Messages, MessageOf, Starts;
      StepKeepsInv(cfg, s, es[0]);
      StepPasses(cfg, s, es[0]);
      RunPasses(cfg, Step(cfg, s, es[0]), es[1..],
                (if Starts(s, es[0]) then [] else before) + MessageOf(cfg, s, es[0]));
    }
  }

  /**
    What a run has published and handed to the user is, message for message and in
    order, what was sent and what came in while it was ready: nothing is lost,
    repeated, changed or made up.
   */
  lemma MessagesAreWhatPassed(cfg: Config, es: seq<Event>)
    requires Legal(cfg, FRESH, es)
    ensures Messages(Exec(cfg, FRESH, es).trace) == Passed(cfg, FRESH, es, [])
  {
    ReachableInv(cfg, []);
    RunPasses(cfg, FRESH, es, []);
  }
}
