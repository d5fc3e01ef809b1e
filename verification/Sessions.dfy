/**
  What a supervisor sees of a connector: sessions that begin, connect, close
  and exit. `ConnectorRefinesSession` says that every connector behaves so, as
  long as its handler is not made to shut down twice at once.
 */
module Sessions {
  import Conn = ConnectorSpec

  datatype Session = Idle | Connecting | Up | Closing

  datatype Move = Begins | Connects | Fails | Closes | Exits(code: Conn.ExitCode)

  predicate MayHappen(s: Session, m: Move) {
    match m
    case Begins => s == Idle
    case Connects => s == Connecting
    case Fails => s == Connecting
    case Closes => s == Up
    case Exits(code) =>
      || (code == Conn.AmqpError && (s == Up || s == Closing))
      || (code == Conn.Normal && s == Closing)
  }

  function After(m: Move): Session {
    match m
    case Begins => Connecting
    case Connects => Up
    case Fails => Idle
    case Closes => Closing
    case Exits(_) => Idle
  }

  /** The exits a move makes the connector report. */
  function Reported(m: Move): seq<Conn.ExitCode> {
    match m
    case Fails => [Conn.BrokerConnectError]
    case Exits(code) => [code]
    case _ => []
  }

  predicate Possible(s: Session, ms: seq<Move>)
    decreases ms
  {
    ms == [] || (MayHappen(s, ms[0]) && Possible(After(ms[0]), ms[1..]))
  }

  function Last(s: Session, ms: seq<Move>): Session {
    if ms == [] then s else After(ms[|ms| - 1])
  }

  function AllReported(ms: seq<Move>): seq<Conn.ExitCode> {
    if ms == [] then [] else Reported(ms[0]) + AllReported(ms[1..])
  }
}
