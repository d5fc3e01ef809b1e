/**
  The transceiver as the C++ class has it: fields that callbacks reassign, and
  a `StateMachine` that calls itself. Every method is proved to do what
  `TransceiverSpec.Step` says, so every theorem about runs is one about it.
 */
module Transceivers {
  import opened Options
  import Spec = TransceiverSpec
  import opened TransceiverSpec

  class Transceiver {
    const exchange: string
    const queue: string
    const routeIn: string
    const listener: bool
    const exclusive: bool

    var state: State
    var connection: Option<nat>
    var channel: nat
    var recvQueue: string
    var consumerTag: string
    var queueExist: bool
    var ec: ExitCode
    var error: string

    // The library's side: channels made so far, callbacks still to come, and the record of the run.
    var channels: nat
    ghost var pending: set<Request>
    ghost var facts: set<Fact>
    ghost var trace: seq<Action>

    /** The table of `stop`; looking up a state it does not hold yields the first state. */
    static const StopTransit: map<State, State> := map[
      CreateChannel := End,
      CreateExchange := CloseChannel,
      CheckQueue := CloseChannel,
      CreateQueue := CloseChannel,
      BindQueue := RemoveQueue,
      CreateConsumer := UnbindQueue,
      Ready := Shutdown
    ]

    static method Transit(from: State) returns (to: State)
      ensures Rank(from) <= Rank(Ready) ==> to == StopTarget(from)
    {
      to := if from in StopTransit then StopTransit[from] else CreateChannel;
    }

    ghost function Cfg(): Config {
      Config(exchange, queue, routeIn, listener)
    }

    ghost function View(): T
      reads this
    {
      T(state, connection, channel, recvQueue, consumerTag, queueExist, ec, error,
        channels, pending, facts, trace)
    }

    ghost predicate Valid() {
      exclusive == (queue == "")
    }

    constructor (exchange: string, queue: string, routeIn: string, listener: bool)
      ensures Valid() && View() == FRESH && Cfg() == Config(exchange, queue, routeIn, listener)
    {
      this.exchange, this.queue, this.routeIn, this.listener := exchange, queue, routeIn, listener;
      exclusive := queue == "";
      state, connection, channel, channels := End, None, 0, 0;
      recvQueue, consumerTag, queueExist := "", "", false;
      ec, error := NoError, "";
      pending, facts, trace := {}, {}, [];
    }

    // -------------------------------------------------------------- calls into the library

    /** Registers the callbacks of an operation on the channel in hand. */
    ghost method Ask(op: Op)
      modifies this`pending, this`trace
      ensures View() == Issue(old(View()), op)
    {
      pending := pending + {Request(channel, op)};
      trace := trace + [Issued(Request(channel, op))];
    }

    /** Makes a new channel and swaps it in; the old one takes its callbacks with it. */
    method SwapChannel(purpose: Purpose)
      modifies this
      ensures View() == NewChannel(old(View()), purpose)
    {
      channels := channels + 1;
      channel := channels;
      pending := {};
      Ask(OpenFor(purpose));
    }

    method CloseAndSwapChannel(purpose: Purpose)
      modifies this
      ensures View() == Replace(old(View()), purpose)
    {
      trace := trace + [Abandoned(channel)];
      SwapChannel(purpose);
    }

    // -------------------------------------------------------------- the automaton

    method StateMachine()
      requires Valid()
      modifies this
      ensures View() == Enter(Cfg(), old(View()))
      decreases Rank(End) - Rank(state)
    {
      hide Issue, NewChannel, Replace;
      match state {
        case CreateChannel =>
          if connection.Some? {
            SwapChannel(ForSetup);
          } else {
            error := "no AMQP connection";
            ec := CreateChannelError;
            state := End;
            StateMachine();
          }
        case CheckQueue =>
          if queue == "" {
            state := CreateExchange;
            StateMachine();
          } else {
            Ask(Check(queue));
          }
        case RecreateChannel =>
          CloseAndSwapChannel(ForRetry);
        case CreateExchange =>
          Ask(Exchange(exchange));
        case CreateQueue =>
          if queueExist {
            state := BindQueue;
            StateMachine();
          } else {
            Ask(Declare(queue, exclusive));
          }
        case BindQueue =>
          Ask(Bind(exchange, recvQueue, routeIn));
        case CreateConsumer =>
          Ask(Consume(recvQueue));
        case Ready =>
          if !listener {
            Ask(Watch);
          }
        case Shutdown =>
          if listener {
            if consumerTag == "" {
              state := UnbindQueue;
              StateMachine();
            } else {
              Ask(Cancel(consumerTag));
            }
          } else {
            state := CloseChannel;
            StateMachine();
          }
        case UnbindQueue =>
          if recvQueue == "" {
            state := CloseChannel;
            StateMachine();
          } else {
            CloseAndSwapChannel(ForUnbind);
          }
        case RemoveQueue =>
          if queueExist {
            state := CloseChannel;
            StateMachine();
          } else {
            CloseAndSwapChannel(ForRemove);
          }
        case CloseChannel =>
          Ask(Close);
        case End =>
          Rest();
      }
    }

    /** The last state: lets go of the channel and what the run has learnt, and makes the exit callback. */
    method Rest()
      requires state == End
      modifies this
      ensures View() == Act(Cfg(), old(View()))
    {
      connection := None;
      recvQueue := "";
      consumerTag := "";
      queueExist := false;
      channel := 0;
      pending := {};
      trace := trace + [Exited(ec)];
    }

    method Start(connection: Option<nat>)
      requires Valid()
      modifies this
      ensures View() == Step(Cfg(), old(View()), Event.Start(connection))
    {
      hide Enter, Deliver;
      if state == End {
        Reset(connection);
        StateMachine();
      }
    }

    method Reset(connection: Option<nat>)
      requires Valid()
      modifies this
      ensures View() == old(View()).(connection := connection, error := "", ec := NoError, state := CreateChannel,
                                     channels := 0, facts := {}, trace := [])
    {
      this.connection := connection;
      error := "";
      ec := NoError;
      state := CreateChannel;
      channels, facts, trace := 0, {}, [];
    }

    method Stop()
      requires Valid()
      modifies this
      ensures View() == Step(Cfg(), old(View()), Event.Stop)
    {
      hide Enter, Deliver;
      if state == End {
        return;
      }
      if Rank(CreateChannel) <= Rank(state) && Rank(state) <= Rank(Ready) {
        state := Transit(state);
        StateMachine();
      }
    }

    method Drop()
      requires Valid()
      modifies this
      ensures View() == Step(Cfg(), old(View()), Event.Drop)
    {
      hide Enter, Deliver;
      if state == End {
        return;
      }
      error := "transceiver dropped";
      ec := Dropped;
      state := End;
      StateMachine();
    }

    method Send(message: string, route: string, mandatory: bool) returns (sent: bool)
      modifies this`trace
      ensures View() == Step(Cfg(), old(View()), Event.Send(route, message, mandatory))
      ensures sent <==> state == Ready
      ensures sent ==> trace == old(trace) + [Published(channel, exchange, route, message, mandatory)]
      ensures !sent ==> trace == old(trace)
    {
      if state != Ready {
        return false;
      }
      trace := trace + [Published(channel, exchange, route, message, mandatory)];
      return true;
    }

    // -------------------------------------------------------------- callbacks

    /** The broker settles a request before any callback runs. */
    ghost method Settled(r: Request, outcome: Outcome)
      modifies this`pending, this`facts
      ensures View() == Arrive(old(View()), r, outcome)
    {
      pending := pending - {r} +
        (if r.op.Consume? && outcome.Ok? then {Request(r.chan, Subscription)} else {});
      facts := facts + Granted(r, outcome);
    }

    /** `onReady` and `onError` of the first channel. */
    method SetupChannelAnswered(ghost r: Request, outcome: Outcome)
      requires Valid() && r.op == OpenFor(ForSetup)
      modifies this
      ensures View() == Step(Cfg(), old(View()), Answer(r, outcome))
    {
      hide Enter;
      Settled(r, outcome);
      if state != CreateChannel {
        return;
      }
      match outcome {
        case Ok(_) =>
          state := if listener then CheckQueue else CreateExchange;
        case Fail(message) =>
          error := message;
          ec := CreateChannelError;
          state := End;
      }
      StateMachine();
    }

    method QueueChecked(ghost r: Request, outcome: Outcome)
      requires Valid() && r.op.Check?
      modifies this
      ensures View() == Step(Cfg(), old(View()), Answer(r, outcome))
    {
      hide Enter;
      Settled(r, outcome);
      if state != CheckQueue {
        return;
      }
      match outcome {
        case Ok(name) =>
          queueExist := true;
          recvQueue := name;
          state := CreateExchange;
        case Fail(_) =>
          state := RecreateChannel;
      }
      StateMachine();
    }

    method RetryChannelAnswered(ghost r: Request, outcome: Outcome)
      requires Valid() && r.op == OpenFor(ForRetry)
      modifies this
      ensures View() == Step(Cfg(), old(View()), Answer(r, outcome))
    {
      hide Enter;
      Settled(r, outcome);
      if state != RecreateChannel {
        return;
      }
      match outcome {
        case Ok(_) =>
          state := CreateExchange;
        case Fail(message) =>
          error := message;
          ec := CreateChannelError;
          state := End;
      }
      StateMachine();
    }

    method ExchangeDeclared(ghost r: Request, outcome: Outcome)
      requires Valid() && r.op.Exchange?
      modifies this
      ensures View() == Step(Cfg(), old(View()), Answer(r, outcome))
    {
      hide Enter;
      Settled(r, outcome);
      if state != CreateExchange {
        return;
      }
      match outcome {
        case Ok(_) =>
          state := if listener then CreateQueue else Ready;
        case Fail(message) =>
          ec := CreateExchangeError;
          error := message;
          state := CloseChannel;
      }
      StateMachine();
    }

    method QueueDeclared(ghost r: Request, outcome: Outcome)
      requires Valid() && r.op.Declare?
      modifies this
      ensures View() == Step(Cfg(), old(View()), Answer(r, outcome))
    {
      hide Enter;
      Settled(r, outcome);
      if state != CreateQueue {
        return;
      }
      match outcome {
        case Ok(name) =>
          recvQueue := name;
          state := BindQueue;
        case Fail(message) =>
          ec := CreateQueueError;
          error := message;
          state := CloseChannel;
      }
      StateMachine();
    }

    method QueueBound(ghost r: Request, outcome: Outcome)
      requires Valid() && r.op.Bind?
      modifies this
      ensures View() == Step(Cfg(), old(View()), Answer(r, outcome))
    {
      hide Enter;
      Settled(r, outcome);
      if state != BindQueue {
        return;
      }
      match outcome {
        case Ok(_) =>
          state := CreateConsumer;
        case Fail(message) =>
          ec := BindQueueError;
          error := message;
          state := RemoveQueue;
      }
      StateMachine();
    }

    method ConsumerRegistered(ghost r: Request, consumer: string)
      requires Valid() && r.op.Consume?
      modifies this
      ensures View() == Step(Cfg(), old(View()), Answer(r, Ok(consumer)))
    {
      hide Enter;
      Settled(r, Ok(consumer));
      if state != CreateConsumer {
        return;
      }
      consumerTag := consumer;
      state := Ready;
      StateMachine();
    }

    /** The one error callback of a consumer, before and after it is registered. */
    method ConsumerFailed(ghost r: Request, message: string)
      requires Valid() && (r.op.Consume? || r.op.Subscription?)
      modifies this
      ensures View() == Step(Cfg(), old(View()), Answer(r, Fail(message)))
    {
      hide Enter;
      Settled(r, Fail(message));
      match state {
        case CreateConsumer =>
          ec := CreateConsumerError;
          error := message;
          state := UnbindQueue;
        case Ready =>
          ec := ChannelAbruptlyClosedError;
          error := message;
          state := End;
        case _ =>
          return;
      }
      StateMachine();
    }

    method MessageReceived(message: string)
      modifies this`trace
      ensures View() == Step(Cfg(), old(View()), Incoming(message))
    {
      if state != Ready {
        return;
      }
      trace := trace + [Delivered(channel, message)];
    }

    /** The channel-wide error callback of a transceiver that only sends: it does not look at the state. */
    method ChannelFailed(ghost r: Request, message: string)
      requires Valid() && r.op == Watch
      modifies this
      ensures View() == Step(Cfg(), old(View()), Answer(r, Fail(message)))
    {
      hide Enter;
      Settled(r, Fail(message));
      ec := ChannelAbruptlyClosedError;
      error := message;
      state := End;
      StateMachine();
    }

    method ConsumerCancelled(ghost r: Request, outcome: Outcome)
      requires Valid() && r.op.Cancel?
      modifies this
      ensures View() == Step(Cfg(), old(View()), Answer(r, outcome))
    {
      hide Enter;
      Settled(r, outcome);
      match outcome {
        case Ok(consumer) =>
          if consumerTag != consumer {
            return;
          }
        case Fail(message) =>
          ec := ConsumerCancelError;
          error := message;
      }
      state := UnbindQueue;
      StateMachine();
    }

    method UnbindChannelAnswered(ghost r: Request, outcome: Outcome)
      requires Valid() && r.op == OpenFor(ForUnbind)
      modifies this
      ensures View() == Step(Cfg(), old(View()), Answer(r, outcome))
    {
      hide Enter;
      Settled(r, outcome);
      if state != UnbindQueue {
        return;
      }
      match outcome {
        case Ok(_) =>
          Ask(Unbind(exchange, recvQueue, routeIn));
        case Fail(message) =>
          error := message;
          ec := CreateChannelError;
          state := End;
          StateMachine();
      }
    }

    method QueueUnbound(ghost r: Request, outcome: Outcome)
      requires Valid() && r.op.Unbind?
      modifies this
      ensures View() == Step(Cfg(), old(View()), Answer(r, outcome))
    {
      hide Enter;
      Settled(r, outcome);
      match outcome {
        case Ok(_) =>
          state := CloseChannel;
        case Fail(message) =>
          if ec == NoError { ec := UnbindQueueError; }
          if error == "" { error := message; }
          state := End;
      }
      StateMachine();
    }

    method RemoveChannelAnswered(ghost r: Request, outcome: Outcome)
      requires Valid() && r.op == OpenFor(ForRemove)
      modifies this
      ensures View() == Step(Cfg(), old(View()), Answer(r, outcome))
    {
      hide Enter;
      Settled(r, outcome);
      if state != RemoveQueue {
        return;
      }
      match outcome {
        case Ok(_) =>
          Ask(Remove(recvQueue));
        case Fail(message) =>
          error := message;
          ec := CreateChannelError;
          state := End;
          StateMachine();
      }
    }

    method QueueRemoved(ghost r: Request, outcome: Outcome)
      requires Valid() && r.op.Remove?
      modifies this
      ensures View() == Step(Cfg(), old(View()), Answer(r, outcome))
    {
      hide Enter;
      Settled(r, outcome);
      match outcome {
        case Ok(_) =>
          state := CloseChannel;
        case Fail(message) =>
          if ec == NoError { ec := RemoveQueueError; }
          if error == "" { error := message; }
          state := End;
      }
      StateMachine();
    }

    method ChannelClosed(ghost r: Request, outcome: Outcome)
      requires Valid() && r.op == Close
      modifies this
      ensures View() == Step(Cfg(), old(View()), Answer(r, outcome))
    {
      hide Enter;
      Settled(r, outcome);
      match outcome {
        case Ok(_) =>
        case Fail(message) =>
          if ec == NoError { ec := CloseChannelError; }
          if error == "" { error := message; }
      }
      state := End;
      StateMachine();
    }
  }
}
