/**
  What the supervisor does, event by event, over a connector seen as a session.
  The one-second pause is a timer that is armed, then has expired with its
  handler queued, then fires; only an armed timer can still be cancelled.

  The user's start callback can wait, and then anything can happen before it
  returns: its calls in progress are counted, and each return is an event.
 */
module ReconnectSpec {
  import Conn = ConnectorSpec
  import S = Sessions

  /** What a callback slot of the connector can hold. */
  datatype Hook = NoHook | User(id: nat) | Restart

  /** An exit handed back: the original callback put back in its place, and called if there is one. */
  datatype Return = Return(hook: Hook, code: Conn.ExitCode)

  /**
    The fields of the C++ object, the connector and the timer it uses, the start
    callbacks in progress, and the record of what has been called. Since the last
    start, `greetings` counts the start callbacks made, `failures` the sessions
    that failed, `lost` the runs that were due and not made; `ran` says whether
    the connection there is, or was last, has been run by the supervisor.
   */
  datatype R = R(
    started: bool,
    needStop: bool,
    rerun: bool,
    backup: Hook,
    callback: bool,
    session: S.Session,
    exitHook: Hook,
    armed: bool,
    expired: nat,
    greeting: nat,
    record: Record)

  datatype Record = Record(
    saved: seq<Hook>,
    returned: seq<Return>,
    asked: bool,
    greetings: nat,
    failures: nat,
    runs: nat,
    ran: bool,
    lost: nat,
    diverged: bool)

  const FRESH: R :=
    R(false, false, false, NoHook, false, S.Idle, NoHook, false, 0, 0,
      Record([], [], false, 0, 0, 0, false, 0, false))

  datatype Event =
    | Start(callback: bool)
    | Stop
    | SetExit(hook: Hook)     // the user's own `onExit` on the connector
    | TimerExpires
    | TimerFires
    | Moved(move: S.Move)     // the connector's session, not by our doing
    | CallbackReturns         // the innermost start callback in progress

  // ---------------------------------------------------------------- the connector

  /** `ready()` */
  predicate Ready(r: R) {
    r.session == S.Up || r.session == S.Closing
  }

  /** `async_start`: nothing if there is a connection. */
  function AsyncStart(r: R): R {
    if Ready(r) then r else r.(session := S.Connecting)
  }

  /** `stop` on the connector: nothing if there is no connection. */
  function StopConnector(r: R): R {
    if Ready(r) then r.(session := S.Closing) else r
  }

  // ---------------------------------------------------------------- callbacks

  datatype Outcome = Done(r: R) | TooDeep

  /** What a `restart`, and the callback it hands back to, leave alone. */
  predicate SameOtherwise(r: R, t: R) {
    && t.session == r.session && t.expired == r.expired && t.greeting == r.greeting && t.callback == r.callback
    && t.needStop == r.needStop
    && t.record.saved == r.record.saved && t.record.asked == r.record.asked
    && t.record.greetings == r.record.greetings && t.record.runs == r.record.runs
    && t.record.ran == r.record.ran && t.record.lost == r.record.lost
  }

  /**
    `restart`, the hook the supervisor puts in the connector, with so many calls
    of itself allowed: it calls the callback it has saved, and if that is
    `restart` itself, another call follows.
   */
  function RestartWithin(r: R, code: Conn.ExitCode, depth: nat): (out: Outcome)
    ensures out.Done? ==> SameOtherwise(r, out.r)
    decreases depth
  {
    if depth == 0 then TooDeep
    else if !r.started then HandBack(r, code, depth)
    else match code
      case Normal => HandBack(r.(started := false), code, depth)
      case _ => Done(r.(rerun := true, armed := true, record := r.record.(failures := r.record.failures + 1)))
  }

  function HandBack(r: R, code: Conn.ExitCode, depth: nat): (out: Outcome)
    requires depth > 0
    ensures out.Done? ==> SameOtherwise(r, out.r)
    decreases depth, 0
  {
    var put := r.(exitHook := r.backup);
    if r.backup == Restart then
      match RestartWithin(put, code, depth - 1)
      case Done(after) => Done(after.(backup := NoHook))
      case TooDeep => TooDeep
    else Done(put.(record := put.record.(returned := put.record.returned + [Return(put.backup, code)]),
                   backup := NoHook))
  }

  /** The connector makes its exit callback. */
  function Exit(r: R, code: Conn.ExitCode): (t: R)
    ensures SameOtherwise(r, t)
  {
    if r.exitHook != Restart then r
    else match RestartWithin(r, code, 1)
      case Done(after) => after
      case TooDeep => r.(record := r.record.(diverged := true))
  }

  /** `run` on the connector, if one is due: it does nothing without a connection, and is not due any more. */
  function RunIfDue(r: R): R {
    if !r.rerun then r
    else if Ready(r) then r.(rerun := false, record := r.record.(runs := r.record.runs + 1, ran := true))
    else r.(rerun := false, record := r.record.(lost := r.record.lost + 1))
  }

  /** The connector makes its start callback, which may begin the user's. */
  function Started(r: R): R {
    if r.needStop then StopConnector(r.(needStop := false))
    else if r.callback then
      r.(greeting := r.greeting + 1, record := r.record.(greetings := r.record.greetings + 1))
    else RunIfDue(r)
  }

  /** The user's start callback has returned: only now is its slot cleared, and the connector run if that is due. */
  function Greeted(r: R): R {
    if r.greeting == 0 then r else RunIfDue(r.(greeting := r.greeting - 1, callback := false))
  }

  // ---------------------------------------------------------------- events

  function Begin(r: R, callback: bool): R {
    r.(needStop := false, rerun := false, backup := r.exitHook, callback := callback, exitHook := Restart,
       record := r.record.(saved := r.record.saved + [r.exitHook], asked := callback,
                           greetings := 0, failures := 0, lost := 0))
  }

  function Step(r: R, e: Event): R {
    match e
    case Start(callback) =>
      if r.started then r else AsyncStart(Begin(r, callback)).(started := true)
    case Stop =>
      if !r.started then r
      else if Ready(r) then StopConnector(r.(armed := false)).(started := false)
      else r.(armed := false, needStop := true, started := false)
    case SetExit(hook) => r.(exitHook := hook)
    case TimerExpires => if r.armed then r.(armed := false, expired := r.expired + 1) else r
    case TimerFires => if r.expired == 0 then r else AsyncStart(r.(expired := r.expired - 1))
    case Moved(move) =>
      var after := r.(session := S.After(move));
      match move {
        case Connects => Started(after.(record := after.record.(ran := false)))
        case Fails => Exit(after, Conn.BrokerConnectError)
        case Exits(code) => Exit(after, code)
        case _ => after
      }
    case CallbackReturns => Greeted(r)
  }

  /**
    A new start comes only once the exit callback of the one before is back in
    its place and no start callback is in progress, and nobody else touches the
    slot meanwhile; only the supervisor starts the connector.
   */
  predicate Enabled(r: R, e: Event) {
    match e
    case Start(_) => r.started || (r.exitHook != Restart && r.greeting == 0)
    case Stop => true
    case SetExit(hook) => r.exitHook != Restart && hook != Restart
    case TimerExpires => r.armed
    case TimerFires => r.expired > 0
    case Moved(move) => !move.Begins? && S.MayHappen(r.session, move)
    case CallbackReturns => r.greeting > 0
  }
}
