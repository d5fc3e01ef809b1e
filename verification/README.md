# amqp-cpp-asio: a verified model

The library wraps AMQP-CPP in four state machines that know nothing of each
other's insides and are driven by callbacks: a *transceiver* sets up a channel,
an exchange, a queue, a binding and a consumer, and takes them down again; a
*connection handler* moves bytes between a socket and AMQP-CPP; a *connector*
owns one connection and the transceivers on it, and waits for them by running
the event loop inside itself; a *supervisor* reconnects by timer. What is hard
about them is what every interleaving of broker answers, socket completions and
calls keeps, and where it does not keep what one would expect.

Each machine is modelled twice. A `...Spec` module gives the machine as a
function from a state and an event to the next state, so that runs, which are
arbitrary sequences of events, can be reasoned about. A class carries the same
machine out as the C++ code does, with fields, callbacks, a `StateMachine` that
calls itself, and wait loops that run other events inside themselves; its
methods are proved to do what the step function says, or to extend a log that
is a legal run of it. The theorems about runs are therefore theorems about the
classes.

| files | what they hold |
|---|---|
| `TransceiverSpec`, `Transceiver` | the transceiver as a step function, and as a class |
| `TransceiverInvariant` | runs, and the invariant every event keeps |
| `TransceiverTheorems`, `TransceiverHistory`, `TransceiverBroker`, `TransceiverLate` | progress and termination; exits, their codes and texts; what the broker has granted, and deletions; late answers, new starts, dead branches |
| `TransceiverScript`, `TransceiverTeardown`, `TransceiverMessages` | the automaton against a script without states; what a finished run has closed and unbound; what was sent and received |
| `TransceiverDepartures` | runs that depart from the documentation |
| `Frames` | the framing of section 4.2.3 of the AMQP 0-9-1 specification |
| `HandlerSpec`, `HandlerInvariant`, `HandlerTheorems`, `ConnectionHandler` | the connection handler |
| `ConnectorSpec`, `ConnectorTheorems`, `ConnectorSessions`, `ConnectorSeen`, `ConnectorRest`, `ConnectorWaits`, `ConnectorMembers`, `ConnectorDepartures`, `Connector` | the connector: safety, exits and their codes, what its waits have seen, how they end and when they do not, its transceivers and its stop, departures, the class |
| `HandlerRefinesLink`, `NestedWaits` | the handler is what the connector takes it to be, step by step and in joint runs of the two; which of their loops is inside which, on their one call stack |
| `Sessions`, `ConnectorRefinesSession`, `ConnectorAnswers`, `SupervisedConnector` | the connector is what the supervisor takes it to be; when a session that closes ends; joint runs of the two |
| `ReconnectSpec`, `ReconnectTheorems`, `ReconnectStops`, `ReconnectDepartures`, `AutoReconnect` | the supervisor: its runs, what comes after a stop, departures, the class |

Loops in progress, with whatever runs inside them, are kept as an explicit
stack, and every turn of a loop is an event of its own; the supervisor counts
the start callbacks in progress, and the return of one is an event. So one
sequence of events describes a run however deeply it nests, and a call made from
inside a wait is just the next event.

## What is assumed of the surroundings

Each machine has a predicate `Enabled` that says which events can come next.
Everything the theorems assume is in it:

- An operation completes at most once. Resetting a channel handle discards the
  callbacks that channel still owes.
- The broker names queues and consumers with non-empty names, gives non-empty
  error texts, and names the cancelled consumer back. Messages come only to a
  registered consumer.
- `run_one` runs any completion or call that is possible at that point. A drain of
  the handler calls it only while a read or a write is in flight, so nothing comes
  inside a drain with nothing in flight.
- `parse` hands out whole frames from the front, at least one if the head frame
  is complete, and calls into the handler as it likes meanwhile; `expected`
  never asks for more than the head frame. A write that ends without an error
  took something from the front buffer, or found it empty.
- A handler is started only when no loop of an earlier connection is left. A
  connector is started again only when neither a task nor a drain of the session
  before is left, and then has a new handler. A supervisor is started again only
  when its exit callback is back in its place and no start callback is in
  progress; `ReconnectDepartures` says what happens otherwise.
- Nothing is opened or run that a stop on its way has already gone past;
  `ConnectorDepartures.OpenedBehindATask` and `OpenedInTheLastDrain` say why.
  Nothing is removed from the list while something waits. Transceivers are started
  through the connector.
- User callbacks do not start the supervisor or the connector from inside
  themselves. They can wait, stop, open, close and run; the supervisor's start
  callback in particular can be interrupted by anything. During the exit callback
  nothing can come in between, which is a theorem (`NothingUnderWayAtTheExit`).

Counterexample lemmas show what comes of the cases in which the code departs
from the obvious claim, and the theorems say exactly which condition each claim
needs. Where the documentation and the code disagree, the model follows the
code: the stop table has no entry for `eRecreateChannel`; a queue the run
created is deleted only when the binding fails, not after every error
(`src/AmqpTransceiver.hpp:45-48`); a stop while a retry is armed never reaches
the exit callback, and a connection lost to a plain network error ends the
attempts (`src/AutoReconnect.hpp:18-26`); and because the start callback's slot
is cleared, and a due run made, only after the callback has returned, a stop from
inside it can be followed by a run, a connection lost inside it is not run when it
comes back, and one that comes inside it calls it again. Nothing in the
documentation says that `open`, `close` and `run` must not be called from inside
`parse`, that is from most callbacks; they wait in vain there (`NestedWaits`).

## Model

| member | source | states |
|---|---|---|
| TransceiverInvariant.StepKeepsInv | src/AmqpTransceiver.cpp:128-627 | every call, answer and message keeps, state by state, which requests are outstanding, what is known of the queue, the consumer and the channel against what the broker has granted, when an error code can be set, and that the exit callback is the last thing a run does |
| TransceiverTheorems.RankRises | src/AmqpTransceiver.cpp:12-20 | an event that changes the state raises its place in the enumeration if and only if it is not a stop in `eRecreateChannel` |
| TransceiverTheorems.NeverReentered | src/AmqpTransceiver.cpp:169-627 | in a run without such a stop, a state once left is not seen again |
| TransceiverTheorems.Progress | src/AmqpTransceiver.cpp:173-611 | in every state but `eReady` and `eEnd` the request the state waits on is outstanding, and either answer to it raises the state or brings out the inner unbind or delete request |
| TransceiverTheorems.StopTakesHold | src/AmqpTransceiver.cpp:143-158 | a stop puts a running transceiver on its way down if and only if it is not waiting for its second channel |
| TransceiverTheorems.StopEndsTheRun | src/AmqpTransceiver.cpp:143-158 | from any other state, once five answers have come after the stop the state is `eEnd`, whatever calls come in between |
| TransceiverTheorems.FourAreNotEnough | src/AmqpTransceiver.cpp:432-531 | from every ready listener there are four answers after the stop that leave it closing its channel |
| TransceiverHistory.OneExitPerStart | src/AmqpTransceiver.cpp:128-167 | over any history the exit callback has been made once per effective start, but for the run still going, and as its last act with the recorded code |
| TransceiverHistory.ExitCodeIsTheVerdict | src/AmqpTransceiver.cpp:160-622 | the code is `eDrop` if the run was dropped, else `eCreateChannelError` if a channel could not be had, else that of the first thing refused, else `eNoError`; the text is empty exactly with `eNoError` |
| TransceiverHistory.ErrorTextGoesWithTheCode | src/AmqpTransceiver.cpp:160-622 | and the text is that of what decided the code: of the drop, else of the channel that could not be had, else of the first refusal |
| TransceiverScript.KeepsToTheScript | src/AmqpTransceiver.cpp:169-627 | a run in which every request is answered when it is waited on, in whatever way, makes exactly the requests of a straight script of set-up and teardown, on the same channels and in the same order, and exits with its code |
| TransceiverScript.StopKeepsToTheScript | src/AmqpTransceiver.cpp:143-158 | so does what follows a stop, at any point of any run: what has been set up is taken down, by the script for that point |
| TransceiverTeardown.UsedChannelsAreClosed | src/AmqpTransceiver.cpp:299-611 | over any history, a finished run has closed every channel it asked anything of, and if it asked for its exchange it has asked for a close, unless it was dropped, a channel could not be had or failed in use, or an unbinding or a deletion was refused |
| TransceiverTeardown.ConsumersAreUnbound | src/AmqpTransceiver.cpp:371-531 | a finished run that asked for a consumer has asked for the unbinding, unless it was dropped, or a channel could not be had or failed in use |
| TransceiverMessages.MessagesAreWhatPassed | src/AmqpTransceiver.cpp:90-117 | what a run has published and handed to the user is, in order, what was sent and what came in while it was ready, with the exchange, the route, the message and the flag it had |
| TransceiverBroker.ReadyMeaning | src/AmqpTransceiver.cpp:285-389 | whenever the state is `eReady` the channel in hand is one on which this run declared the exchange and, for a listener, bound the queue in hand and registered the consumer whose tag is stored; every message sent, and every one that reached the user, went over a channel so served |
| TransceiverBroker.DeletesOnlyItsOwn | src/AmqpTransceiver.cpp:534-575 | a delete is asked only for a queue this run declared and the passive check had not found, on a channel opened for that alone, after a bind and never after a consume |
| TransceiverBroker.DeletesExactlyAtTheBinding | src/AmqpTransceiver.cpp:357-365 | a finished run that was not dropped and could have its channels has asked for a delete if and only if it asked for the binding, asked for no consumer and had not found the queue |
| TransceiverLate.LateAnswersAreAbsorbed | src/AmqpTransceiver.cpp:180-408 | late, repeated or reordered answers to the requests of the way up, put anywhere into a history without the stop of the table's gap, leave it where it would be without them |
| TransceiverLate.StartsLikeNew | src/AmqpTransceiver.cpp:128-141 | after any finished history, a new start with any events leads where it would lead a fresh object, record and all |
| TransceiverLate.SendOnlyStaysClear | src/AmqpTransceiver.cpp:183-288 | a transceiver that is no listener is never in a queue state and never asks for a queue operation |
| TransceiverLate.FallbacksAreDead | src/AmqpTransceiver.cpp:432-486 | whenever `StateMachine` is called in `eShutdown` for a listener there is a consumer tag, and in `eUnbindQueue` a queue name: the two doubtful branches are never taken |
| TransceiverDepartures.StopIsForgotten | src/AmqpTransceiver.cpp:12-20 | a run in which a stop leads to the ready state |
| TransceiverDepartures.StopLetsALateAnswerIn | src/AmqpTransceiver.cpp:228-241 | hypothetical, as channels let go call back no more: after such a stop an answer repeated from the first channel would change the state, which the check of the state alone does not prevent |
| TransceiverDepartures.DeclaredQueueIsLeftBehind | src/AmqpTransceiver.cpp:394-399 | a run that declares its queue and fails at the consumer asks for no delete, however it goes on |
| Transceivers.Transceiver.StateMachine | src/AmqpTransceiver.cpp:169-627 | the recursive automaton ends, and leaves the object as `Enter` has it: issued requests, replaced channels and exit included |
| Transceivers.Transceiver.Start | src/AmqpTransceiver.cpp:128-141 | leaves the object as the step function has it: a new run from `eEnd`, and nothing otherwise |
| Transceivers.Transceiver.Stop | src/AmqpTransceiver.cpp:143-158 | leaves the object as the step function has it, by way of the stop table and its missing entry |
| Transceivers.Transceiver.Drop | src/AmqpTransceiver.cpp:160-167 | ends the run at once with the drop code, and nothing more is asked of the broker |
| Transceivers.Transceiver.Send | src/AmqpTransceiver.cpp:90-117 | in `eReady` adds this message, with its exchange, route and flag, to what is published on the channel in hand and says so; otherwise publishes nothing and says that |
| Transceivers.Transceiver.SetupChannelAnswered | src/AmqpTransceiver.cpp:178-201 | either answer to the first channel, in time or late |
| Transceivers.Transceiver.QueueChecked | src/AmqpTransceiver.cpp:228-250 | either answer to the passive declare, in time or late |
| Transceivers.Transceiver.RetryChannelAnswered | src/AmqpTransceiver.cpp:258-281 | either answer to the second channel, in time or late |
| Transceivers.Transceiver.ExchangeDeclared | src/AmqpTransceiver.cpp:284-306 | either answer to the exchange, in time or late |
| Transceivers.Transceiver.QueueDeclared | src/AmqpTransceiver.cpp:318-345 | either answer to the declare, in time or late |
| Transceivers.Transceiver.QueueBound | src/AmqpTransceiver.cpp:347-369 | either answer to the bind, in time or late |
| Transceivers.Transceiver.ConsumerRegistered | src/AmqpTransceiver.cpp:371-381 | the grant of the consumer stores the tag and makes the state ready, if that is still waited for |
| Transceivers.Transceiver.ConsumerFailed | src/AmqpTransceiver.cpp:390-413 | the consumer's error callback: a refusal, a channel lost while ready, or nothing |
| Transceivers.Transceiver.ConsumerCancelled | src/AmqpTransceiver.cpp:444-465 | either answer to the cancel leads to the unbinding |
| Transceivers.Transceiver.UnbindChannelAnswered | src/AmqpTransceiver.cpp:488-531 | the channel for unbinding brings out the unbind request, or ends the run |
| Transceivers.Transceiver.RemoveChannelAnswered | src/AmqpTransceiver.cpp:545-588 | the channel for deleting brings out the delete request, or ends the run |
| Transceivers.Transceiver.ChannelClosed | src/AmqpTransceiver.cpp:591-611 | either answer ends the run; an earlier error is kept |
| Frames.SplitAnywhere | src/AmqpConnectionHandler.cpp:266-293 | taking complete frames off a prefix and then off what remains with more bytes gives the frames of the whole |
| Frames.SentFramesAreTaken | src/AmqpConnectionHandler.cpp:266-293 | a frame encoded as the standard has it, with any payload and whatever follows, is taken off the buffer whole |
| Frames.PartsAreNotTaken | src/AmqpConnectionHandler.cpp:271-271 | and no part of one is taken before it has come as a whole |
| Frames.NothingIsLost | src/AmqpConnectionHandler.cpp:266-293 | the complete frames and the rest make up the buffer, and the rest holds no complete frame |
| HandlerInvariant.StepKeepsInv | src/AmqpConnectionHandler.cpp:37-345 | every call, completion and turn of a loop keeps the order of states, the pointers, the reads and writes in flight, and the account of bytes in and out |
| HandlerTheorems.FramesComeWhole | src/AmqpConnectionHandler.cpp:266-300 | whenever no read loop is at work, and so whenever a read is armed, in a drain as well, the frames handed out are the complete frames of all bytes received, once each and in order, with the rest in the buffer; inside a read loop they are a prefix of them |
| HandlerTheorems.CutsMakeNoDifference | src/AmqpConnectionHandler.cpp:266-300 | two runs that have received the same bytes, however cut, and are in no read loop have handed out the same frames and keep the same rest |
| HandlerTheorems.NoNullConnection | src/AmqpConnectionHandler.cpp:267-292 | the connection pointer is there whenever the read loop uses it |
| HandlerTheorems.OutputIsConserved | src/AmqpConnectionHandler.cpp:67-97 | bytes taken by the socket followed by those queued are the bytes accepted, in order; at most one write is in flight, and outside a shutdown one is exactly when something is queued |
| HandlerTheorems.DownOnlyUnwinds | src/AmqpConnectionHandler.cpp:282-288 | once a handler is down, every event but a start changes nothing but the loops left over, which unwind, and, where one of them is a drain, the record of shutdown callbacks and the last error |
| HandlerTheorems.ShutdownEndsClean | src/AmqpConnectionHandler.cpp:202-241 | a shutdown, however begun and whatever comes in between, can only end not connected, with nothing in flight, nothing buffered and no connection pointer |
| HandlerTheorems.RunsAreBounded | src/AmqpConnectionHandler.cpp:202-345 | the length of a run, loop turns and all, is bounded by the work at hand and what comes from outside: calls, re-entries among them, successful reads with their bytes, and output; so a drain waits for ever only if one of these goes on for ever |
| HandlerTheorems.LoopsEnd | src/AmqpConnectionHandler.cpp:202-300 | left alone, every nest of read loops and drains comes to its end within the work at hand, by a legal run, and a shutdown among them ends clean |
| HandlerTheorems.TheWaitCanEnd | src/AmqpConnectionHandler.cpp:219-219 | as long as a shutdown waits, something it waits for is outstanding |
| HandlerTheorems.OneCallbackEachUnlessReentered | src/AmqpConnectionHandler.cpp:46-124 | at rest, the shutdown callback has been made once per session and once more per call that re-entered a shutdown: once each if and only if none did |
| HandlerTheorems.EachCallbackIsToldWhy | src/AmqpConnectionHandler.cpp:237-241 | without such a re-entry the shutdown callbacks are told, in order, what ended each connection |
| HandlerTheorems.StopInsideAStop | src/AmqpConnectionHandler.cpp:46-55 | a run of one session with two shutdown callbacks: a second stop while the first waits for a read and a write |
| ConnectionHandlers.ConnectionHandler.OnRead | src/AmqpConnectionHandler.cpp:247-301 | ends, with a read armed again or the handler down, and the last thing it does is to arm the read or unwind; calls and completions come in it only as the event loop brings them, and if that brings none the state is as it was, a read is armed and all that was done is turns of the loop; if it is up and idle, exactly the complete frames of what has been received have been handed out |
| ConnectionHandlers.ConnectionHandler.ReadLoop | src/AmqpConnectionHandler.cpp:271-300 | the do-while loop ends, by way of a legal run, in which nothing comes but what the event loop brings |
| ConnectionHandlers.ConnectionHandler.OnWrite | src/AmqpConnectionHandler.cpp:303-345 | leaves the queue as the step function has it, after a partial or a full write |
| ConnectionHandlers.ConnectionHandler.OnData | src/AmqpConnectionHandler.cpp:67-97 | leaves the object as the step function has it; output while not connected is discarded |
| ConnectionHandlers.ConnectionHandler.Drain | src/AmqpConnectionHandler.cpp:202-236 | with any completion, whole, partial or failed, and any call chosen at each turn, ends for any finite number of them, down and clean, by way of a legal run |
| ConnectionHandlers.ConnectionHandler.Stop | src/AmqpConnectionHandler.cpp:46-55 | from every state and every depth of nesting, ends down and clean, in the loop it was called from |
| HandlerRefinesLink.StepIsTold | src/AmqpConnector.cpp:90-98 | every step of a handler is, to its connector, at most one of the events of `ConnectorSpec`, one that is possible there, and leaves link, error flag and waiting shutdowns equal; the shutdown callback is made exactly with those that run `onShutdown` |
| HandlerRefinesLink.StopIsTold | src/AmqpConnector.cpp:165-180 | stopping the handler is to it what the end of the posted task is to the connector |
| HandlerRefinesLink.StartIsTold | src/AmqpConnector.cpp:90-98 | a session is begun with a new handler, alike to the connector whatever the last handler was left in |
| HandlerRefinesLink.EveryJointRun | src/AmqpConnector.cpp:79-252 | in every joint run of a connector and its handlers the two agree on link, error flag and waiting shutdowns, and what the connector goes through is a legal run of `ConnectorSpec` |
| NestedWaits.NestedRunsAreJoint | src/AmqpConnectionHandler.cpp:202-300 | on the one call stack, where turns are taken by the innermost loop and answers come only out of `parse`, the frames stay those of the two stacks in one order, and every run is one of the joint runs |
| NestedWaits.WaitsInVain | src/AmqpConnector.cpp:55-55 | a wait for a transceiver inside a read loop, be it of `open`, `close` or `run`: whatever runs meanwhile, nothing comes from the broker, the transceiver keeps its state and the wait goes on, until the connection fails, or someone drops the transceiver or stops it on its way up |
| NestedWaits.OpenInsideParse | src/AmqpConnector.cpp:48-57 | so `open`, called for an idle transceiver from a callback inside `parse`, does not return by itself |
| NestedWaits.DataLeadsThere | src/AmqpConnectionHandler.cpp:266-282 | every connection at rest with a read armed comes to such a point with the next data |
| ConnectorTheorems.StepKeepsInv | src/AmqpConnector.cpp:48-252 | every event keeps the flags, the handler, the waits and the transceivers fitting together |
| ConnectorTheorems.NoDeadConnection | src/AmqpConnector.cpp:141-252 | in every run a transceiver not at its end holds the connection there is; there is one exactly while the connector is ready; the event that takes it away leaves every transceiver at its end |
| ConnectorTheorems.EveryConnectionIsNew | src/AmqpConnector.cpp:191-194 | in every run the connection there is belongs to the last time the handler connected, and to no other |
| ConnectorSessions.ExitsAddUp | src/AmqpConnector.cpp:205-252 | in every run the exits and the open session make up the sessions begun, plus one per drain that ends after its session's exit: one exit each if and only if there is no such drain |
| ConnectorSessions.OneExitEachWithItsCause | src/AmqpConnector.cpp:142-252 | if the handler is not made to shut down while shutting down, each session has one exit, and the codes are in order those of the first thing that made each session end |
| ConnectorMembers.MembersRun | src/AmqpConnector.cpp:48-252 | in every run in which nothing is removed, each transceiver of the list has gone through a legal run of its own, of just what its connector and the broker told it: all that is proved of single transceivers holds of it |
| ConnectorMembers.StopEndsEachMember | src/AmqpConnector.cpp:142-157 | after a stop of the connector, whatever happens, a transceiver that has had five answers is at its end, unless the stop found it opening its second channel or it was started again |
| ConnectorMembers.AnsweredStopEndsTheSession | src/AmqpConnector.cpp:142-182 | once every transceiver that ran has had five answers after a stop of the connector, all are at their end, and left alone the connector comes to rest with the session over; with exactly one exit, unless the handler is made to shut down while shutting down |
| ConnectorSeen.NoWaitEndsEarly | src/AmqpConnector.cpp:48-157 | when `open`, `close`, `run` or the task of a stop has come to its end, whatever ran inside it, each transceiver it waits for has been at its end at some point since it began, or, for `open` and `run`, ready |
| ConnectorSeen.TurnsGoOnExactly | src/AmqpConnector.cpp:55-156 | and a turn of such a loop goes on if and only if the transceiver it looks at is so, or there is none left |
| ConnectorRest.LeftAloneRests | src/AmqpConnector.cpp:142-182 | once every transceiver is at its end, a connector left alone comes to rest by a legal run, with no wait and no task left, whatever the handler is doing; the session is over then if a stop, an error or a shutdown was on its way, and otherwise nothing has happened to it |
| ConnectorRest.LeftAloneExits | src/AmqpConnector.cpp:153-252 | and it makes exactly the exits expected: one normal exit for a stop, the exit due for an error, two normal ones if the task of a stop is inside a drain, none without a reason |
| ConnectorRest.StopOfAWorkingConnection | src/AmqpConnector.cpp:165-180 | so the ordinary stop, with the handler up until the task stops it, ends with one normal exit, not ready and with nothing left to wait for |
| ConnectorWaits.SilenceHoldsForEver | src/AmqpConnector.cpp:154-157 | with a transceiver on its way down and still waiting for an answer, and the handler down, or the task of a stop waiting inside its drain, no run in which the broker stays silent ends the session |
| ConnectorWaits.KeptForEver | src/AmqpConnector.cpp:154-157 | nor does any run that leaves alone a transceiver that is ready, whatever task waits for it |
| ConnectorAnswers.EndedSessionExits | src/AmqpConnector.cpp:142-252 | a session that closes, whether a stop waits to take a working connection down or the handler is going or gone, makes by itself, once every transceiver is at its end, possible moves that lead to no session and report the one exit expected |
| ConnectorAnswers.HeldSessionStays | src/AmqpConnector.cpp:154-157 | a session held up by a silent broker, also behind a task inside a drain, makes no move that ends it |
| ConnectorAnswers.KeptSessionStays | src/AmqpConnector.cpp:154-157 | nor does one with a ready transceiver left alone |
| ConnectorDepartures.PlainErrorHolds | src/AmqpConnector.cpp:251-251 | a plain error while any transceiver is past the opening of its channel leads there |
| ConnectorDepartures.PlainErrorEndsExactly | src/AmqpConnector.cpp:251-251 | after a plain error over a working connection some run with a silent broker ends the session if and only if every transceiver is at its end or waiting for its first or second channel |
| ConnectorDepartures.TaskInsideTheDrain | src/AmqpConnectionHandler.cpp:219-219 | a joint run: an AMQP error comes out of `parse` after a stop, with a write in flight; the drain picks up the task of the stop, which waits for a transceiver only the shutdown callback beneath it would drop; with a silent broker the exit that is due never comes |
| ConnectorDepartures.StopDuringADrain | src/AmqpConnector.cpp:165-180 | the task of a stop that ends during a drain always makes two exits of one session |
| ConnectorDepartures.ErrorDuringADrain | src/AmqpConnector.cpp:224-250 | a joint run of handler and connector: a write fails, and the read in flight brings a bad frame while the handler waits for it; the session has a second exit, that of a broker never reached |
| ConnectorDepartures.TwoExits | src/AmqpConnector.cpp:142-182 | a joint run from the beginning of one session, without transceivers, with two exits: the task of a stop ends while the handler drains after a failed write |
| ConnectorDepartures.OpenedBehindATask | src/AmqpConnector.cpp:48-57 | whenever, over a working connection, a task that has gone past a transceiver is the innermost wait, whatever else it waits for, opening a transceiver that only sends leads to its being ready when the task has taken the connection away |
| ConnectorDepartures.OpenedInTheLastDrain | src/AmqpConnector.cpp:220-228 | whenever a handler stopped by the task shuts down, opening a transceiver that only sends leads there too, if its answers still come |
| ConnectorDepartures.ATaskWaits | src/AmqpConnector.cpp:154-157 | a legal run to such a task |
| ConnectorDepartures.RunBehindAStop | src/AmqpConnector.cpp:114-139 | a run after a stop starts what was idle; the stop is then not answered as long as such a transceiver is left alone |
| Connectors.Connector.Open | src/AmqpConnector.cpp:48-57 | if its wait ends the transceiver is ready or at its end, by way of a run that begins with the opening, ends with the turn that finds it so, has nothing else in it but what the event loop brings, and is legal if nothing is opened behind a stop |
| Connectors.Connector.Close | src/AmqpConnector.cpp:60-69 | if its wait ends the transceiver was seen to its end, by way of a legal run from the closing to the turn that finds it so, with nothing else in it but what the event loop brings |
| Connectors.Connector.Run | src/AmqpConnector.cpp:114-139 | starts every idle transceiver; if it ends, each one in the list has since been seen ready or at its end, the last thing done is a turn of its wait, and nothing else came but what the event loop brought |
| Connectors.Connector.AsyncStart | src/AmqpConnector.cpp:79-99 | begins a session, unless there is a connection, and keeps the run legal where the start is |
| Connectors.Connector.OnConnected | src/AmqpConnector.cpp:185-203 | makes a new connection and is ready |
| Connectors.Connector.OnShutdown | src/AmqpConnector.cpp:206-252 | leaves the object as the step function has it, in each of the four cases |
| Connectors.Connector.Stop | src/AmqpConnector.cpp:142-153 | stops every transceiver and posts the task, if there is a connection |
| Connectors.Connector.StopTask | src/AmqpConnector.cpp:153-181 | if it ends the connector is not ready, and in a legal run there is no connection then and every transceiver is at its end; it ends with its own last turn or drain, and nothing else came but what the event loop brought |
| ConnectorRefinesSession.EveryRunIsSessions | src/AmqpConnector.cpp:79-252 | in every run without a clash a connector is a session machine: its moves are possible, lead to the state it is in, and report the exits it reports |
| SupervisedConnector.EverySupervisedRun | src/AutoReconnect.cpp:32-133 | in every joint run of a supervisor and the connector it wraps, without a clash, the two agree on the session, and each goes through a legal run of its own model: all that is proved of either holds of the two together |
| SupervisedConnector.NextAttemptIsPossible | src/AutoReconnect.cpp:107-113 | after the end of a session a start may come too early, but left alone the connector gets to where the supervisor's next `async_start` is possible |
| ReconnectTheorems.StepKeepsInv | src/AutoReconnect.cpp:32-133 | every event, those inside the start callback among them, keeps one attempt at a time, the flags, and the account of the callbacks and of the runs due |
| ReconnectTheorems.OneAttemptAtATime | src/AutoReconnect.cpp:32-128 | while started exactly one of connecting, retry armed, retry about to be made, connection up or closing holds; else at most one; and no attempt is begun on top of another |
| ReconnectTheorems.KeepsTrying | src/AutoReconnect.cpp:89-128 | along any run without a new start, a started supervisor is still started if and only if nobody has stopped it and no session has exited normally |
| ReconnectTheorems.ExitsConserved | src/AutoReconnect.cpp:32-99 | each start has had the very exit callback that was there when it began put back and called exactly once, in order, but for the one still out |
| ReconnectTheorems.ExitsKeepTheirCodes | src/AutoReconnect.cpp:81-99 | the exits handed back are, in order, those of the sessions whose end found the supervisor stopped or was normal, each with the code its session ended with |
| ReconnectTheorems.NothingUnderWayAtTheExit | src/AutoReconnect.cpp:83-99 | when the exit is handed back no attempt is under way, and only calls and returning start callbacks can come next |
| ReconnectTheorems.GreetedOncePerStart | src/AutoReconnect.cpp:60-73 | since the last start the start callback has been called once, if one was given and there has been a connection, and once more for each connection that came while it was in progress: no oftener if and only if there was none |
| ReconnectTheorems.EveryReconnectionIsRun | src/AutoReconnect.cpp:74-78 | after a failure, whenever there is a connection again and no start callback is in progress, it has been run, unless a start callback has returned with a run due and no connection |
| ReconnectTheorems.RunsMakeUpForFailures | src/AutoReconnect.cpp:74-78 | since the last start the supervisor has run the connector no oftener than sessions have failed, the run that is due included |
| ReconnectStops.StoppedIsUnused | src/AutoReconnect.cpp:46-72 | after a stop at most one attempt begins, only if its timer had gone off before, and no start callback is made |
| ReconnectStops.StoppedStillRuns | src/AutoReconnect.cpp:72-78 | a stopped supervisor can still run the connector if and only if the stop came inside its start callback, with a run due and no retry armed |
| ReconnectStops.StoppedRunsOnce | src/AutoReconnect.cpp:72-78 | and then it does so once at most, and in every other case never |
| ReconnectStops.StopIsAnswered | src/AutoReconnect.cpp:46-58 | a stop is answered, by the exit callback saved at the start and once, exactly when the session then under way comes to its end, and with the code of that end; when a retry was armed there is none, whatever comes |
| ReconnectDepartures.ReturnsUnlessSavedItself | src/AutoReconnect.cpp:81-99 | the exit callback returns at some depth unless it is about to hand back to itself, and then at none |
| ReconnectDepartures.StartAfterALostExit | src/AutoReconnect.cpp:37-39 | a stop while a retry is armed, then a start: the callback saved is the supervisor's own, and it calls itself without end |
| ReconnectDepartures.StartBeforeTheExit | src/AutoReconnect.cpp:37-42 | so does a start before the exit of the session that was stopped, and its start callback is not made |
| ReconnectDepartures.StopInsideTheCallback | src/AutoReconnect.cpp:72-78 | a run in which the start callback of a retried start stops the supervisor, and the connector is run after that |
| ReconnectDepartures.RunIsLost | src/AutoReconnect.cpp:74-78 | whenever a start callback returns with a run due and no connection, the next connection is up without being run |
| ReconnectDepartures.ConnectionIsLostInsideTheCallback | src/AutoReconnect.cpp:114-128 | a run to such a return: the first connection is lost inside the callback |
| ReconnectDepartures.CallbackIsCalledTwice | src/AutoReconnect.cpp:72-73 | a run in which the connection is lost inside the start callback and comes back before it returns: one start, and the callback has been called twice |
| ReconnectDepartures.PlainErrorLooksNormal | src/AmqpConnector.cpp:251-251 | to a connector in use a plain error is a session that closes, and its exit is due as a normal one |
| ReconnectDepartures.PlainErrorEndsTheAttempts | src/AutoReconnect.cpp:93-99 | such a session ends the attempts, with nothing under way, although nobody called `stop` |
| AutoReconnects.AutoReconnect.Start | src/AutoReconnect.cpp:32-44 | leaves the object as the step function has it, in every state, and keeps the run legal where the start is |
| AutoReconnects.AutoReconnect.Stop | src/AutoReconnect.cpp:46-58 | leaves the object as the step function has it |
| AutoReconnects.AutoReconnect.OnStarted | src/AutoReconnect.cpp:60-79 | stops, or makes the user's callback, inside which other events come, one for each happening, and then its return as the last thing, or runs the connector if that is due |
| AutoReconnects.AutoReconnect.AfterCallback | src/AutoReconnect.cpp:73-78 | clears the slot, and runs the connector if that is due, only once the callback has returned |
| AutoReconnects.AutoReconnect.OnRestart | src/AutoReconnect.cpp:81-133 | puts the callback saved back and calls it with the code it was given, or, while started and the code is not normal, arms a retry and hands nothing back; if what was saved is itself it calls itself, with any bound on the depth, as the step function has it |
| AutoReconnects.AutoReconnect.OnTimer | src/AutoReconnect.cpp:107-127 | begins an attempt, unless the wait was cancelled |

## Left out

- The inside of Boost.Asio, sockets, the resolver, the `work` sentinels and real time: completions come in any order, and the pause of a second carries no property.
- The inside of AMQP-CPP: channel bookkeeping, method encoding, heartbeats, flow control.
- `src/AmqpJsonConverter.cpp` and the JSON form of `send`: message bodies are opaque strings here.
- Bounced messages: `onReturned` only forwards to a user callback.
- Debug logging, URL parsing, getters and setters of callbacks.
- The lifetime of C++ objects (captured `this`, destructors that stop, a handler or a callback replaced while it is running) and threads: the code calls itself not thread-safe, and the model has one event loop.
- Completions of a resolve or a connect that come into a later session of the same handler: the guards look only at the state, and the connector makes a new handler for each session.
- The static stop table is a constant map here: `operator[]` also inserts the missing entry, which changes no later look-up.
- The connector's start callback, made with every connection, is not on its record; what a supervisor does in it is in `ReconnectSpec`.
- The connector's blocking `start` and its `send`: a loop around `async_start`, and a guard around the transceiver's own.
- The transceivers in a connector's list, and the connector under a supervisor, are values of their models and not objects: that two of them could be the same object is not captured.
- Waits are given a finite number of happenings. A wait that runs out of them has not come to its end, and its method says so (`done`); in the handler the operations still in flight then fail one by one. That a wait ends at all is the subject of `RunsAreBounded`, `LoopsEnd`, `LeftAloneRests`, `AnsweredStopEndsTheSession`, `SilenceHoldsForEver`, `KeptForEver` and `WaitsInVain`.
- Connectors.Connector.AsyncStart: leaves the object as the step function has it in every state, but called while a handler is connecting or draining it is outside the legal runs, because then the code replaces a handler whose callbacks are still running, and its lifetime is not modelled.
- ConnectorRefinesSession.EveryRunIsSessions: runs in which the handler is made to shut down while shutting down are outside it, because then a session has two exits.
- TransceiverDepartures.StopLetsALateAnswerIn: hypothetical, because channels that have been let go call back no more.
- SupervisedConnector.EverySupervisedRun: the supervisor's attempts come, in a joint run, only when neither a task nor a drain of the last session is left; `NextAttemptIsPossible` says that it comes to that. Runs in which the handler is made to shut down while shutting down are outside it.
- NestedWaits.WaitsInVain: inside a drain with nothing left in flight, in which a wait of the connector still runs, `HandlerSpec` lets no calls into the handler come.
- TransceiverLate.LateAnswersAreAbsorbed: answers to the requests of the way down are outside it, because their callbacks do not look at the state; a channel owes them at most once.
