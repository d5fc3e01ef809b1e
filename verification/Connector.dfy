/**
  The connector as the C++ class has it: its waits are loops that run the event
  loop inside themselves, and what runs there may wait in turn.

  `stack` stands for the call stack, which of these loops are in progress. `log`
  is the run so far, and `Valid` says that the fields are as `ConnectorSpec` has
  them after it; `Sound` adds that it is a legal run, so that every theorem about
  runs is one about the class.
 */
module Connectors {
  import opened Options
  import opened ConnectorSpec
  import opened ConnectorTheorems
  import Trx = TransceiverSpec

  lemma {:induction false} OneMore(c: C, es: seq<Event>, e: Event)
    ensures Exec(c, es + [e]) == Step(Exec(c, es), e)
    ensures Legal(c, es + [e]) <==> Legal(c, es) && Enabled(Exec(c, es), e)
    decreases es
  {
    hide Step, Enabled;
    if es == [] {
      assert [] + [e] == [e] && [e][1..] == [];
    } else {
      assert (es + [e])[0] == es[0] && (es + [e])[1..] == es[1..] + [e];
      OneMore(Step(c, es[0]), es[1..], e);
    }
  }

  /** The events of a run that come from outside: all but the turns of waits, and the ends of drains. */
  function Came(es: seq<Event>): nat {
    if es == [] then 0
    else Came(es[..|es| - 1]) + (if es[|es| - 1].Turn? || es[|es| - 1].Drained? then 0 else 1)
  }

  lemma CameOneMore(es: seq<Event>, e: Event)
    ensures Came(es + [e]) == Came(es) + (if e.Turn? || e.Drained? then 0 else 1)
  {
    assert (es + [e])[..|es|] == es;
  }

  /** The run leads to this state. */
  ghost predicate LeadsTo(log: seq<Event>, c: C) {
    c == Exec(FRESH, log)
  }

  /** It is a legal one. */
  ghost predicate Orderly(log: seq<Event>, c: C) {
    LeadsTo(log, c) && Legal(FRESH, log) && Inv(c)
  }

  lemma FreshIsOrderly()
    ensures LeadsTo([], FRESH) && Orderly([], FRESH)
  {
  }

  lemma StepLeadsOn(c: C, log: seq<Event>, e: Event)
    requires LeadsTo(log, c)
    ensures LeadsTo(log + [e], Step(c, e))
    ensures Orderly(log, c) && Enabled(c, e) ==> Orderly(log + [e], Step(c, e))
  {
    hide Step, Enabled, Legal, Exec, Inv;
    OneMore(FRESH, log, e);
    if Inv(c) && Enabled(c, e) { StepKeepsInv(c, e); }
  }

  /** What a method needs to know of the invariant. */
  lemma WhatHolds(c: C, log: seq<Event>)
    requires Orderly(log, c)
    ensures c.connection.Some? <==> c.ready
    ensures !c.ready ==> AllEnded(c.members)
  {
    hide AllSound, AllEnded, Legal, Exec;
    if !c.ready { RunningNeedsAConnection(c.members); }
  }

  /** At some point of the run from here on, the i-th transceiver was at its end, or ready if that is enough. */
  ghost predicate WasSeen(log: seq<Event>, from: nat, i: nat, orReady: bool) {
    exists k | from <= k <= |log| :: Stood(log[..k], i, orReady)
  }

  ghost predicate Stood(log: seq<Event>, i: nat, orReady: bool) {
    var c := Exec(FRESH, log);
    i < |c.members| && (Ended(c.members[i]) || (orReady && c.members[i].t.state == Trx.Ready))
  }

  lemma SeenStays(log: seq<Event>, longer: seq<Event>, from: nat, earlier: nat, i: nat, orReady: bool)
    requires WasSeen(log, from, i, orReady) && log <= longer && earlier <= from
    ensures WasSeen(longer, earlier, i, orReady)
  {
    hide Stood;
    var k :| from <= k <= |log| && Stood(log[..k], i, orReady);
    assert longer[..k] == log[..k];
  }

  lemma AllSeenStay(log: seq<Event>, longer: seq<Event>, from: nat, earlier: nat, lo: nat, hi: nat, orReady: bool)
    requires log <= longer && earlier <= from && forall j | lo <= j < hi :: WasSeen(log, from, j, orReady)
    ensures forall j | lo <= j < hi :: WasSeen(longer, earlier, j, orReady)
  {
    hide WasSeen;
    forall j | lo <= j < hi ensures WasSeen(longer, earlier, j, orReady) {
      SeenStays(log, longer, from, earlier, j, orReady);
    }
  }

  lemma SeenNow(log: seq<Event>, c: C, from: nat, i: nat, orReady: bool)
    requires LeadsTo(log, c) && from <= |log| && i < |c.members|
    requires Ended(c.members[i]) || (orReady && c.members[i].t.state == Trx.Ready)
    ensures WasSeen(log, from, i, orReady)
  {
    hide Exec, Ended;
    assert log[..|log|] == log;
    assert Stood(log[..|log|], i, orReady);
  }

  // What each event does, one at a time.

  lemma StepOfTurn(c: C)
    requires c.stack.On? && !c.stack.top.Drain?
    ensures Enabled(c, Turn) && Step(c, Turn) == TakeTurn(c)
  {
  }

  lemma StepOfStop(c: C)
    ensures Enabled(c, Stop) && Step(c, Stop) == StopNow(c)
  {
    hide StopNow;
  }

  lemma StepOfBegin(c: C)
    requires c.tasks > 0
    ensures Enabled(c, BeginTask)
    ensures Step(c, BeginTask) == c.(tasks := c.tasks - 1, stack := On(Task(|c.members|), c.stack))
  {
  }

  lemma StepOfClose(c: C, i: nat)
    requires i < |c.members|
    ensures Enabled(c, Close(i))
    ensures Step(c, Close(i)) ==
            if Ended(c.members[i]) then c
            else c.(members := c.members[i := Tell(c.members[i], Trx.Stop)], stack := On(ForEnd(i), c.stack))
  {
    hide Tell, Ended;
  }

  lemma StepOfOpen(c: C, i: nat)
    requires i < |c.members|
    ensures MayStart(c, i) ==> Enabled(c, Open(i))
    ensures Step(c, Open(i)) ==
            if !(Ended(c.members[i]) && c.ready) then c
            else c.(members := c.members[i := Tell(c.members[i], Trx.Start(c.connection))],
                    stack := On(ForReady(i), c.stack))
  {
    hide Tell, Ended, MayStart;
  }

  lemma StepOfRun(c: C)
    ensures (c.members != [] ==> MayStart(c, |c.members| - 1)) ==> Enabled(c, Run)
    ensures Step(c, Run) ==
            if c.ready
            then c.(members := StartIdle(c.members, c.connection), stack := On(Running(|c.members|), c.stack))
            else c
  {
    hide StartIdle, MayStart;
  }

  lemma StepOfConnect(c: C)
    requires c.link == Connecting
    ensures Enabled(c, ConnectOk) && Enabled(c, ConnectFails)
    ensures Step(c, ConnectOk) == c.(link := Up, ready := true, connection := Some(c.made), made := c.made + 1)
    ensures Step(c, ConnectFails) == OnShutdown(c.(link := Down))
  {
    hide OnShutdown;
  }

  lemma StepOfFault(c: C, amqp: bool)
    requires c.link == Up || c.link == Draining
    ensures Enabled(c, Fault(amqp))
    ensures Step(c, Fault(amqp)) ==
            c.(link := Draining, amqpError := c.amqpError || amqp, stack := On(Drain, c.stack))
  {
  }

  lemma StepOfDrained(c: C)
    requires c.stack.On? && c.stack.top.Drain?
    ensures Enabled(c, Drained) && Step(c, Drained) == OnShutdown(c.(stack := c.stack.below, link := Down))
  {
    hide OnShutdown;
  }

  lemma StepOfAdd(c: C, cfg: Trx.Config)
    ensures Enabled(c, Add(cfg)) && Step(c, Add(cfg)) == c.(members := c.members + [Member(cfg, Trx.FRESH)])
  {
  }

  lemma StepOfRemove(c: C, i: nat)
    requires c.stack.Empty? && i < |c.members|
    ensures Enabled(c, Remove(i)) && Step(c, Remove(i)) == c.(members := c.members[..i] + c.members[i + 1..])
  {
  }

  lemma StepOfHappening(c: C, i: nat, event: Trx.Event)
    requires i < |c.members| && Trx.Enabled(c.members[i].t, event) && !event.Start?
    ensures Enabled(c, Happens(i, event))
    ensures Step(c, Happens(i, event)) == c.(members := c.members[i := Tell(c.members[i], event)])
  {
    hide Tell, Trx.Enabled;
  }

  lemma StepOfStart(c: C)
    ensures c.ready || (c.link == Down && c.tasks == 0 && !HasTask(c.stack) && Drains(c.stack) == 0)
            ==> Enabled(c, AsyncStart)
    ensures Step(c, AsyncStart) ==
            if c.ready then c
            else c.(exiting := false, link := Connecting, amqpError := false, starts := c.starts + 1)
  {
  }

  class Connector {
    var link: Link
    var amqpError: bool
    var ready: bool
    var exiting: bool
    var connection: Option<nat>
    var made: nat
    var members: seq<Member>
    var tasks: nat
    var stack: Stack

    // What the exit callback has been called with.
    ghost var exits: seq<ExitCode>

    ghost var log: seq<Event>
    ghost var model: C

    /** How many more completions and calls the event loop has to offer inside our loops. */
    var happenings: nat

    ghost predicate Agrees(c: C)
      reads this
    {
      && link == c.link && amqpError == c.amqpError && ready == c.ready && exiting == c.exiting
      && connection == c.connection && made == c.made && members == c.members && tasks == c.tasks
      && stack == c.stack && exits == c.exits
    }

    ghost predicate Valid()
      reads this
    {
      LeadsTo(log, model) && Agrees(model)
    }

    ghost predicate Sound()
      reads this
    {
      Orderly(log, model)
    }

    constructor (happenings: nat)
      ensures Valid() && Sound() && model == FRESH && log == []
    {
      hide LeadsTo, Orderly, Came;
      link, amqpError, ready, exiting, connection, made := Down, false, false, false, None, 0;
      members, tasks, stack, exits := [], 0, Empty, [];
      log, model := [], FRESH;
      this.happenings := happenings;
      new;
      FreshIsOrderly();
    }

    ghost method Book(e: Event)
      requires LeadsTo(log, model)
      modifies this`log, this`model
      ensures LeadsTo(log, model) && model == Step(old(model), e) && log == old(log) + [e]
      ensures Came(log) == old(Came(log)) + (if e.Turn? || e.Drained? then 0 else 1)
      ensures old(Sound()) && Enabled(old(model), e) ==> Sound()
    {
      hide LeadsTo, Orderly, Step, Enabled, Came;
      CameOneMore(log, e);
      StepLeadsOn(model, log, e);
      log, model := log + [e], Step(model, e);
    }

    // -------------------------------------------------------------- the list

    method TellEach(e: Trx.Event)
      modifies this`members
      ensures members == TellAll(old(members), e)
    {
      hide Tell;
      var i: nat := |members|;
      while i > 0
        invariant i <= |members| == |old(members)|
        invariant forall j | 0 <= j < i :: members[j] == old(members)[j]
        invariant forall j | i <= j < |members| :: members[j] == Tell(old(members)[j], e)
      {
        i := i - 1;
        members := members[i := Tell(members[i], e)];
      }
    }

    method StartEach()
      modifies this`members
      ensures members == StartIdle(old(members), connection) && |members| == |old(members)|
    {
      hide Tell, Ended;
      var i: nat := |members|;
      while i > 0
        invariant i <= |members| == |old(members)|
        invariant forall j | 0 <= j < i :: members[j] == old(members)[j]
        invariant forall j | i <= j < |members| ::
          members[j] == if Ended(old(members)[j]) then Tell(old(members)[j], Trx.Start(connection)) else old(members)[j]
      {
        i := i - 1;
        if Ended(members[i]) {
          members := members[i := Tell(members[i], Trx.Start(connection))];
        }
      }
    }

    method Add(cfg: Trx.Config)
      requires Valid()
      modifies this
      ensures Valid() && log == old(log) + [Event.Add(cfg)] && model == Step(old(model), Event.Add(cfg))
      ensures Came(log) == old(Came(log)) + 1
      ensures old(Sound()) ==> Sound()
      ensures happenings == old(happenings) && exiting == old(exiting) && stack == old(stack)
      ensures members == old(members) + [Member(cfg, Trx.FRESH)]
    {
      hide LeadsTo, Orderly, Came, Step, Enabled;
      StepOfAdd(model, cfg);
      members := members + [Member(cfg, Trx.FRESH)];
      Book(Event.Add(cfg));
    }

    method Remove(i: nat)
      requires Valid() && stack.Empty? && i < |members|
      modifies this
      ensures Valid() && log == old(log) + [Event.Remove(i)] && model == Step(old(model), Event.Remove(i))
      ensures Came(log) == old(Came(log)) + 1
      ensures members == old(members[..i] + members[i + 1..]) && stack == old(stack) && happenings == old(happenings)
      ensures old(Sound()) ==> Sound()
    {
      hide LeadsTo, Orderly, Came, Step, Enabled;
      StepOfRemove(model, i);
      members := members[..i] + members[i + 1..];
      Book(Event.Remove(i));
    }

    /** The broker, or a direct call, tells one transceiver something. */
    method Happens(i: nat, event: Trx.Event)
      requires Valid() && i < |members| && Trx.Enabled(members[i].t, event) && !event.Start?
      modifies this
      ensures Valid() && log == old(log) + [Event.Happens(i, event)]
      ensures Came(log) == old(Came(log)) + 1
      ensures old(Sound()) ==> Sound()
      ensures model == Step(old(model), Event.Happens(i, event)) && happenings == old(happenings)
      ensures model == old(model).(members := model.members) && |members| == |old(members)|
    {
      hide LeadsTo, Orderly, Came, Step, Enabled, Tell, Trx.Enabled;
      StepOfHappening(model, i, event);
      members := members[i := Tell(members[i], event)];
      Book(Event.Happens(i, event));
    }

    // -------------------------------------------------------------- sessions

    method AsyncStart()
      requires Valid()
      modifies this
      ensures Valid() && log == old(log) + [Event.AsyncStart] && model == Step(old(model), Event.AsyncStart)
      ensures Came(log) == old(Came(log)) + 1
      ensures old(Sound() && MayAsyncStart()) ==> Sound()
      ensures happenings == old(happenings) && members == old(members) && stack == old(stack)
      ensures old(ready) ==> exiting == old(exiting) && link == old(link)
    {
      hide LeadsTo, Orderly, Came, Step, Enabled;
      StepOfStart(model);
      if !ready {
        exiting := false;
        link := Connecting;
        amqpError := false;
      }
      Book(Event.AsyncStart);
    }

    method OnConnected()
      requires Valid() && link == Connecting
      modifies this
      ensures Valid() && log == old(log) + [ConnectOk] && model == Step(old(model), ConnectOk)
      ensures Came(log) == old(Came(log)) + 1
      ensures old(Sound()) ==> Sound()
      ensures happenings == old(happenings) && members == old(members) && stack == old(stack) && exiting == old(exiting)
    {
      hide LeadsTo, Orderly, Came, Step, Enabled;
      StepOfConnect(model);
      link := Up;
      ready := true;
      connection := Some(made);
      made := made + 1;
      Book(ConnectOk);
    }

    method OnConnectFailed()
      requires Valid() && link == Connecting
      modifies this
      ensures Valid() && log == old(log) + [ConnectFails] && model == Step(old(model), ConnectFails)
      ensures Came(log) == old(Came(log)) + 1
      ensures old(Sound()) ==> Sound()
      ensures happenings == old(happenings) && |members| == |old(members)| && stack == old(stack)
      ensures exiting == old(exiting)
    {
      hide LeadsTo, Orderly, Came, Step, Enabled, ConnectorSpec.OnShutdown, TellAll;
      StepOfConnect(model);
      link := Down;
      OnShutdown(ConnectFails, model.(link := Down));
    }

    /** The handler's shutdown callback, made by the event `e`, on the state `c`. */
    method OnShutdown(ghost e: Event, ghost c: C)
      requires LeadsTo(log, model) && Enabled(model, e)
      requires Step(model, e) == ConnectorSpec.OnShutdown(c) && Agrees(c)
      modifies this
      ensures Valid() && log == old(log) + [e] && model == Step(old(model), e)
      ensures Came(log) == old(Came(log)) + (if e.Turn? || e.Drained? then 0 else 1)
      ensures old(Sound()) ==> Sound()
      ensures happenings == old(happenings) && |members| == |old(members)| && stack == old(stack)
      ensures exiting == old(exiting) && (exiting ==> !ready)
    {
      hide LeadsTo, Orderly, Came, Step, Enabled;
      if exiting {
        Release(Normal);
      } else if !ready {
        Release(BrokerConnectError);
      } else if amqpError {
        TellEach(Trx.Drop);
        Release(AmqpError);
      } else {
        StopAll();
      }
      Book(e);
    }

    method Release(code: ExitCode)
      modifies this`ready, this`connection, this`exits
      ensures !ready && connection == None && exits == old(exits) + [code]
    {
      ready := false;
      connection := None;
      exits := exits + [code];
    }

    method StopAll()
      modifies this`members, this`tasks
      ensures if ready then members == TellAll(old(members), Trx.Stop) && tasks == old(tasks) + 1
              else members == old(members) && tasks == old(tasks)
    {
      if !ready { return; }
      TellEach(Trx.Stop);
      tasks := tasks + 1;
    }

    method Stop()
      requires Valid()
      modifies this
      ensures Valid() && log == old(log) + [Event.Stop] && model == Step(old(model), Event.Stop)
      ensures Came(log) == old(Came(log)) + 1
      ensures old(Sound()) ==> Sound()
      ensures happenings == old(happenings) && |members| == |old(members)| && stack == old(stack)
      ensures exiting == old(exiting)
    {
      hide LeadsTo, Orderly, Came, Step, Enabled;
      StepOfStop(model);
      StopAll();
      Book(Event.Stop);
    }

    // -------------------------------------------------------------- waits

    // A wait that is given no more happenings does not come to its end: `done`
    // says whether it did, and the loops it is in give up with it.

    /**
      What running other code inside a wait leaves as it was, if it comes to its
      end. What comes from outside is paid for with happenings, one each, but for
      so many events of our own.
     */
    twostate predicate Nested(done: bool, own: nat)
      reads this
    {
      && Valid() && old(log) <= log && happenings <= old(happenings)
      && Came(log) + happenings <= old(Came(log)) + old(happenings) + own
      && |old(members)| <= |members|
      && (Drains(old(stack)) > 0 && old(exiting) ==> exiting)
      && (done ==> stack == old(stack))
    }

    /** The inner loop of every wait for a transceiver: run the event loop until it is at its end, or ready. */
    method Await(i: nat, orReady: bool) returns (done: bool)
      requires Valid() && stack.On? && i < |members|
      modifies this
      ensures Nested(done, 0)
      ensures old(Sound()) ==> Sound()
      ensures done ==> Ended(members[i]) || (orReady && members[i].t.state == Trx.Ready)
      ensures happenings == old(happenings) ==> log == old(log) && model == old(model)
      decreases happenings, 1
    {
      hide LeadsTo, Orderly, Came, Ended, Drains;
      while !Ended(members[i]) && !(orReady && members[i].t.state == Trx.Ready)
        invariant Nested(true, 0) && (old(Sound()) ==> Sound())
        invariant happenings == old(happenings) ==> log == old(log) && model == old(model)
        decreases happenings
      {
        done := RunOne();
        if !done { return; }
      }
      done := true;
    }

    /** The wait on top of the stack is over. */
    method EndWait(i: nat)
      requires Valid() && stack.On? && i < |members|
      requires stack.top == ForReady(i) || stack.top == ForEnd(i)
      requires Ended(members[i]) || (stack.top.ForReady? && members[i].t.state == Trx.Ready)
      modifies this`stack, this`log, this`model
      ensures Valid() && stack == old(stack).below && log == old(log) + [Turn]
      ensures Came(log) == old(Came(log))
      ensures old(Sound()) ==> Sound()
    {
      hide LeadsTo, Orderly, Came, Step, Enabled, Ended, TakeTurn;
      StepOfTurn(model);
      WaitEnds(model, i);
      stack := stack.below;
      Book(Turn);
    }

    /** `open` */
    method Open(i: nat) returns (done: bool)
      requires Valid() && i < |members|
      modifies this
      ensures Nested(done, 1) && old(log) + [Event.Open(i)] <= log
      ensures old(Sound() && MayOpen(i)) ==> Sound()
      ensures done && old(ready && Ended(members[i])) ==> Ended(members[i]) || members[i].t.state == Trx.Ready
      ensures done && old(ready && Ended(members[i])) ==> old(log) + [Event.Open(i)] < log && log[|log| - 1] == Turn
      ensures happenings == old(happenings) ==>
                log == old(log) + [Event.Open(i)] + (if done && old(ready && Ended(members[i])) then [Turn] else [])
      decreases happenings, 2
    {
      hide LeadsTo, Orderly, Came, Step, Enabled, Passed, WasSeen, Tell, Ended, Drains;
      if !(Ended(members[i]) && ready) {
        StepOfOpen(model, i);
        Book(Event.Open(i));
        return true;
      }
      Opening(i);
      DrainsOn(ForReady(i), old(stack));
      done := Await(i, true);
      if done { EndWait(i); }
    }

    /** The transceiver is started, and the wait for it begins. */
    method Opening(i: nat)
      requires Valid() && i < |members| && Ended(members[i]) && ready
      modifies this`members, this`stack, this`log, this`model
      ensures Valid() && log == old(log) + [Event.Open(i)]
      ensures Came(log) == old(Came(log)) + 1 && stack == On(ForReady(i), old(stack))
      ensures members == old(members)[i := Tell(old(members)[i], Trx.Start(connection))]
      ensures old(Sound() && MayOpen(i)) ==> Sound()
    {
      hide LeadsTo, Orderly, Came, Step, Enabled, Passed, Tell, Ended;
      StepOfOpen(model, i);
      members := members[i := Tell(members[i], Trx.Start(connection))];
      stack := On(ForReady(i), stack);
      Book(Event.Open(i));
    }

    /** `close` */
    method Close(i: nat) returns (done: bool)
      requires Valid() && i < |members|
      modifies this
      ensures Nested(done, 1) && old(log) + [Event.Close(i)] <= log
      ensures old(Sound()) ==> Sound()
      ensures done ==> Ended(members[i])
      ensures done && !old(Ended(members[i])) ==> old(log) + [Event.Close(i)] < log && log[|log| - 1] == Turn
      ensures happenings == old(happenings) ==>
                log == old(log) + [Event.Close(i)] + (if done && !old(Ended(members[i])) then [Turn] else [])
      decreases happenings, 2
    {
      hide LeadsTo, Orderly, Came, Step, Enabled, Tell, Ended, Drains;
      StepOfClose(model, i);
      if Ended(members[i]) {
        Book(Event.Close(i));
        return true;
      }
      members := members[i := Tell(members[i], Trx.Stop)];
      stack := On(ForEnd(i), stack);
      Book(Event.Close(i));
      DrainsOn(ForEnd(i), old(stack));
      done := Await(i, false);
      if done { EndWait(i); }
    }

    /** The loop over the list goes past a transceiver that is at its end, or ready. */
    method PassMember(w: Wait)
      requires Valid() && stack.On? && stack.top == w && (w.Task? || w.Running?) && 0 < w.i <= |members|
      requires Ended(members[w.i - 1]) || (w.Running? && members[w.i - 1].t.state == Trx.Ready)
      modifies this`stack, this`log, this`model
      ensures Valid() && log == old(log) + [Turn]
      ensures Came(log) == old(Came(log))
      ensures old(Sound()) ==> Sound()
      ensures stack == On(if w.Task? then Task(w.i - 1) else Running(w.i - 1), old(stack).below)
    {
      hide LeadsTo, Orderly, Came, Step, Enabled, Ended, TakeTurn;
      StepOfTurn(model);
      LoopGoesOn(model);
      stack := On(if w.Task? then Task(w.i - 1) else Running(w.i - 1), stack.below);
      Book(Turn);
    }

    /** One round of such a loop: waits for the next transceiver, and goes past it. */
    method AwaitNext(w: Wait) returns (done: bool)
      requires Valid() && stack.On? && stack.top == w && (w.Task? || w.Running?) && 0 < w.i <= |members|
      modifies this
      ensures Valid() && old(log) <= log && happenings <= old(happenings) && |old(members)| <= |members|
      ensures Came(log) + happenings <= old(Came(log)) + old(happenings)
      ensures old(Sound()) ==> Sound()
      ensures Drains(old(stack)) > 0 && old(exiting) ==> exiting
      ensures done ==> stack == On(if w.Task? then Task(w.i - 1) else Running(w.i - 1), old(stack).below)
      ensures done ==> WasSeen(log, |old(log)|, w.i - 1, w.Running?)
      decreases happenings, 2
    {
      hide LeadsTo, Orderly, Came, Ended, Drains, WasSeen;
      done := Await(w.i - 1, w.Running?);
      if !done { return; }
      ghost var before := log;
      SeenNow(log, model, |old(log)|, w.i - 1, w.Running?);
      PassMember(w);
      SeenStays(before, log, |old(log)|, |old(log)|, w.i - 1, w.Running?);
    }

    /** A loop that waits for every transceiver in the list as it is now, one after the other. */
    method AwaitList(w: Wait) returns (done: bool)
      requires Valid() && stack.On? && stack.top == w && (w.Task? || w.Running?) && w.i == |members|
      modifies this
      ensures Valid() && old(log) <= log && happenings <= old(happenings) && |old(members)| <= |members|
      ensures Came(log) + happenings <= old(Came(log)) + old(happenings)
      ensures old(Sound()) ==> Sound()
      ensures Drains(old(stack)) > 0 && old(exiting) ==> exiting
      ensures done ==> stack == On(if w.Task? then Task(0) else Running(0), old(stack).below)
      ensures done ==> forall j | 0 <= j < |old(members)| :: WasSeen(log, |old(log)|, j, w.Running?)
      decreases happenings, 3
    {
      hide LeadsTo, Orderly, Came, Ended, Drains, WasSeen;
      var i: nat := |members|;
      DrainsOn(w, stack.below);
      while i > 0
        invariant Valid() && old(log) <= log && happenings <= old(happenings) && |old(members)| <= |members|
        invariant old(Sound()) ==> Sound()
        invariant Came(log) + happenings <= old(Came(log)) + old(happenings)
        invariant Drains(stack) == Drains(old(stack)) && (Drains(old(stack)) > 0 && old(exiting) ==> exiting)
        invariant i <= |old(members)|
        invariant stack == On(if w.Task? then Task(i) else Running(i), old(stack).below)
        invariant forall j | i <= j < |old(members)| :: WasSeen(log, |old(log)|, j, w.Running?)
        decreases i
      {
        ghost var before := log;
        done := AwaitNext(stack.top);
        if !done { return; }
        SeenStays(log, log, |before|, |old(log)|, i - 1, w.Running?);
        AllSeenStay(before, log, |old(log)|, |old(log)|, i, |old(members)|, w.Running?);
        i := i - 1;
        DrainsOn(stack.top, stack.below);
      }
      done := true;
    }

    /** `run` */
    method Run() returns (done: bool)
      requires Valid()
      modifies this
      ensures Nested(done, 1) && old(log) + [Event.Run] <= log
      ensures old(Sound() && (members != [] ==> MayOpen(|members| - 1))) ==> Sound()
      ensures done && old(ready) ==> forall j | 0 <= j < |old(members)| :: WasSeen(log, |old(log)|, j, true)
      ensures done && old(ready) ==> old(log) + [Event.Run] < log && log[|log| - 1] == Turn
      decreases happenings, 4
    {
      hide LeadsTo, Orderly, Came, Step, Enabled, Passed, WasSeen, Ended, Drains, StartIdle, TakeTurn;
      if !ready {
        StepOfRun(model);
        Book(Event.Run);
        return true;
      }
      BeginRun();
      DrainsOn(stack.top, stack.below);
      done := AwaitList(stack.top);
      if done {
        ghost var before := log;
        EndLoop();
        AllSeenStay(before, log, |old(log)| + 1, |old(log)|, 0, |old(members)|, true);
      }
    }

    /** Every idle transceiver is started, and the wait for the list begins. */
    method BeginRun()
      requires Valid() && ready
      modifies this`members, this`stack, this`log, this`model
      ensures Valid() && log == old(log) + [Event.Run]
      ensures Came(log) == old(Came(log)) + 1 && stack == On(Running(|old(members)|), old(stack))
      ensures members == StartIdle(old(members), connection) && |members| == |old(members)|
      ensures old(Sound() && (members != [] ==> MayOpen(|members| - 1))) ==> Sound()
    {
      hide LeadsTo, Orderly, Came, Step, Enabled, Passed, StartIdle;
      StepOfRun(model);
      StartEach();
      stack := On(Running(|members|), stack);
      Book(Event.Run);
    }

    method EndLoop()
      requires Valid() && stack.On? && stack.top == Running(0)
      modifies this`stack, this`log, this`model
      ensures Valid() && stack == old(stack).below && log == old(log) + [Turn]
      ensures Came(log) == old(Came(log))
      ensures old(Sound()) ==> Sound()
    {
      hide LeadsTo, Orderly, Came, Step, Enabled, TakeTurn;
      StepOfTurn(model);
      LoopEnds(model);
      stack := stack.below;
      Book(Turn);
    }

    lemma LoopGoesOn(c: C)
      requires c.stack.On?
      ensures c.stack.top.Task? && 0 < c.stack.top.i <= |c.members| && Ended(c.members[c.stack.top.i - 1])
              ==> TakeTurn(c) == c.(stack := On(Task(c.stack.top.i - 1), c.stack.below))
      ensures c.stack.top.Running? && 0 < c.stack.top.i <= |c.members|
              && (Ended(c.members[c.stack.top.i - 1]) || c.members[c.stack.top.i - 1].t.state == Trx.Ready)
              ==> TakeTurn(c) == c.(stack := On(Running(c.stack.top.i - 1), c.stack.below))
    {
      hide Ended;
    }

    lemma LoopEnds(c: C)
      requires c.stack.On?
      ensures c.stack.top == Running(0) ==> TakeTurn(c) == c.(stack := c.stack.below)
      ensures c.stack.top == Task(0) ==>
                TakeTurn(c) == (
                  if c.link != Down then c.(stack := On(Drain, c.stack.below), exiting := true, link := Draining)
                  else if c.ready then ConnectorSpec.Release(c.(stack := c.stack.below), Normal)
                  else c.(stack := c.stack.below))
    {
    }

    /** The handler has been made to shut down: its wait, however long, and then its callback. */
    method DrainHandler() returns (done: bool)
      requires Valid() && stack.On? && stack.top.Drain?
      modifies this
      ensures Valid() && old(log) <= log && happenings <= old(happenings) && |old(members)| <= |members|
      ensures Came(log) + happenings <= old(Came(log)) + old(happenings)
      ensures old(Sound()) ==> Sound()
      ensures old(exiting) ==> exiting && (done ==> !ready)
      ensures done ==> stack == old(stack).below && link == Down
      ensures done ==> old(log) < log && log[|log| - 1] == Drained
      decreases happenings, 2
    {
      hide LeadsTo, Orderly, Came, Step, Enabled, Drains;
      DrainsOn(stack.top, stack.below);
      while true
        invariant Nested(true, 0) && (old(Sound()) ==> Sound())
        decreases happenings
      {
        var atRest := *;
        if atRest { break; }
        done := RunOne();
        if !done { return; }
      }
      StepOfDrained(model);
      link := Down;
      stack := stack.below;
      OnShutdown(Drained, model.(stack := model.stack.below, link := Down));
      done := true;
    }

    /** An error takes the handler down, from wherever it comes. */
    method Fault(amqp: bool) returns (done: bool)
      requires Valid() && (link == Up || link == Draining)
      modifies this
      ensures Nested(done, 1) && old(log) + [Event.Fault(amqp)] <= log
      ensures old(Sound()) ==> Sound()
      ensures done ==> old(log) + [Event.Fault(amqp)] < log && log[|log| - 1] == Drained
      decreases happenings, 3
    {
      hide LeadsTo, Orderly, Came, Step, Enabled, Drains;
      StepOfFault(model, amqp);
      link := Draining;
      amqpError := amqpError || amqp;
      stack := On(Drain, stack);
      Book(Event.Fault(amqp));
      done := DrainHandler();
    }

    /** The task `stop` posts: it waits for every transceiver, then takes the handler down if it still is up. */
    method StopTask() returns (done: bool)
      requires Valid() && tasks > 0
      modifies this
      ensures Nested(done, 1) && old(log) + [BeginTask] <= log
      ensures old(Sound()) ==> Sound()
      ensures done ==> !ready && (old(Sound()) ==> connection == None && AllEnded(members))
      ensures done ==> old(log) + [BeginTask] < log && (log[|log| - 1] == Turn || log[|log| - 1] == Drained)
      decreases happenings, 4
    {
      hide LeadsTo, Orderly, Came, Step, Enabled, Drains, TakeTurn, AllEnded;
      StepOfBegin(model);
      tasks := tasks - 1;
      stack := On(Task(|members|), stack);
      Book(BeginTask);
      DrainsOn(stack.top, stack.below);
      done := AwaitList(stack.top);
      if done { done := FinishTask(); }
      if done && old(Sound()) { WhatHolds(model, log); }
    }

    method FinishTask() returns (done: bool)
      requires Valid() && stack.On? && stack.top == Task(0)
      modifies this
      ensures Valid() && old(log) <= log && happenings <= old(happenings) && |old(members)| <= |members|
      ensures Came(log) + happenings <= old(Came(log)) + old(happenings)
      ensures old(Sound()) ==> Sound()
      ensures old(exiting) ==> exiting
      ensures done ==> stack == old(stack).below && !ready
      ensures done ==> old(log) < log && (log[|log| - 1] == Turn || log[|log| - 1] == Drained)
      decreases happenings, 3
    {
      hide LeadsTo, Orderly, Came, Step, Enabled, Drains, TakeTurn;
      StepOfTurn(model);
      LoopEnds(model);
      if link == Down {
        if ready {
          Release(Normal);
        }
        stack := stack.below;
        Book(Turn);
        done := true;
      } else {
        exiting := true;
        link := Draining;
        stack := On(Drain, stack.below);
        Book(Turn);
        done := DrainHandler();
      }
    }

    lemma DrainsOn(w: Wait, below: Stack)
      ensures Drains(On(w, below)) == Drains(below) + (if w.Drain? then 1 else 0)
    {
    }

    lemma WaitEnds(c: C, i: nat)
      requires c.stack.On? && i < |c.members|
      ensures c.stack.top == ForReady(i) && (Ended(c.members[i]) || c.members[i].t.state == Trx.Ready)
              ==> TakeTurn(c) == c.(stack := c.stack.below)
      ensures c.stack.top == ForEnd(i) && Ended(c.members[i]) ==> TakeTurn(c) == c.(stack := c.stack.below)
    {
      hide Ended;
    }

    /** `run_one`: anything the event loop still has to offer, with the calls made from callbacks. */
    method RunOne() returns (done: bool)
      requires Valid() && stack.On?
      modifies this
      ensures Nested(done, 0)
      ensures old(Sound()) ==> Sound()
      ensures done ==> happenings < old(happenings)
      ensures happenings == old(happenings) ==> log == old(log) && model == old(model)
      decreases happenings, 0
    {
      hide LeadsTo, Orderly, Came, Step, Enabled, Drains, Ended, AllEnded;
      if happenings == 0 { return false; }
      happenings := happenings - 1;
      var completion := *;
      if completion { done := AnyCompletion(); } else { done := AnyCall(); }
    }

    /** A completion of the handler or the broker, or the task of a stop. */
    method AnyCompletion() returns (done: bool)
      requires Valid() && stack.On?
      modifies this
      ensures Nested(done, 1)
      ensures old(Sound()) ==> Sound()
      decreases happenings, 5
    {
      hide LeadsTo, Orderly, Came, Step, Enabled, Drains, Ended, AllEnded, Trx.Enabled;
      var choice: nat, i: nat, event: Trx.Event := *, *, *;
      done := true;
      if choice == 0 && link == Connecting {
        OnConnected();
      } else if choice == 1 && link == Connecting {
        OnConnectFailed();
      } else if choice < 4 && (link == Up || link == Draining) {
        done := Fault(choice == 2);
      } else if choice == 4 && tasks > 0 {
        done := StopTask();
      } else if i < |members| && Trx.Enabled(members[i].t, event) && !event.Start? {
        Happens(i, event);
      }
    }

    /** A call into the connector, made while it waits. */
    method AnyCall() returns (done: bool)
      requires Valid() && stack.On?
      modifies this
      ensures Nested(done, 1)
      ensures old(Sound()) ==> Sound()
      decreases happenings, 5
    {
      hide LeadsTo, Orderly, Came, Step, Drains, Ended, AllEnded, Passed;
      var choice: nat, i: nat, cfg: Trx.Config := *, *, *;
      done := true;
      if choice == 0 {
        Stop();
      } else if choice == 1 && MayAsyncStart() {
        AsyncStart();
      } else if choice == 2 {
        Add(cfg);
      } else if choice == 3 && i < |members| && MayOpen(i) {
        done := Open(i);
      } else if choice == 4 && i < |members| {
        done := Close(i);
      } else if choice == 5 && (members == [] || MayOpen(|members| - 1)) {
        done := Run();
      }
    }

    /** What is asked of callers of `open` and `run`. */
    predicate MayOpen(i: nat)
      reads this
    {
      ready ==> !exiting && !Passed(stack, i)
    }

    /** What is asked of callers of `async_start`. */
    predicate MayAsyncStart()
      reads this
    {
      ready || (link == Down && tasks == 0 && !HasTask(stack) && Drains(stack) == 0)
    }
  }
}
