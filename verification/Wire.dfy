/** Frames of the moltssh.v1 protocol, as the session layer sees them. */
module Wire {
  newtype byte = x: int | 0 <= x < 256

  datatype Option<+T> = None | Some(value: T)

  /** Identity of one WebSocket connection; the same number names both its ends. */
  type Conn = nat

  /** A session identifier; 0 stands for the empty string. */
  type Sid = nat

  datatype Direction = ClientToServer | ServerToClient

  const MAX_PAYLOAD: nat := 1048576
  const DATA_CHUNK: nat := 32768

  datatype Frame =
    | Hello(resume: bool, session: Sid, c2sRx: nat, s2cRx: nat)
    | Accept(session: Sid, epoch: nat, c2sRx: nat, s2cRx: nat)
    | Data(session: Sid, epoch: nat, dir: Direction, offset: nat, payload: seq<byte>)
    | Ack(session: Sid, epoch: nat, dir: Direction, received: nat)
    | Fin(session: Sid, epoch: nat, dir: Direction, offset: nat)
    | Close(session: Sid, epoch: nat)
    | Error
    | Ping(nonce: nat)
    | Pong(nonce: nat)
  {
    /** The epoch field of the header, 0 when it is absent. */
    function Epoch(): nat {
      match this
      case Accept(_, e, _, _) => e
      case Data(_, e, _, _, _) => e
      case Ack(_, e, _, _) => e
      case Fin(_, e, _, _) => e
      case Close(_, e) => e
      case _ => 0
    }

    /** The session field of the header, 0 when it is absent. */
    function Session(): Sid {
      match this
      case Hello(_, s, _, _) => s
      case Accept(s, _, _, _) => s
      case Data(s, _, _, _, _) => s
      case Ack(s, _, _, _) => s
      case Fin(s, _, _, _) => s
      case Close(s, _) => s
      case _ => 0
    }

    /** Frames that both `send` functions leave unstamped. */
    predicate Unstamped() {
      Error? || Ping? || Pong?
    }
  }

  /** What `clientConn.send` and `serverConn.send` put on the wire: a missing
      epoch becomes the epoch of the connection object, and at the server a
      missing session becomes the session of that object. */
  function Stamp(f: Frame, session: Sid, epoch: nat): Frame {
    var s := if f.Session() == 0 then session else f.Session();
    var e := if f.Epoch() == 0 then epoch else f.Epoch();
    match f
    case Accept(_, _, c, d) => Accept(s, e, c, d)
    case Data(_, _, d, o, p) => Data(s, e, d, o, p)
    case Ack(_, _, d, r) => Ack(s, e, d, r)
    case Fin(_, _, d, o) => Fin(s, e, d, o)
    case Close(_, _) => Close(s, e)
    case _ => f
  }

  /** Outcome of the input/output one handler call performs: how much the
      downstream writer took, whether it failed, and whether the reply, and the frame
      that may follow it, could be sent. */
  datatype Io = Io(written: nat, writeErr: bool, sendOk: bool, tailOk: bool)

  /** Nothing goes wrong. */
  const FINE: Io := Io(0, false, true, true)

  /** The count `writeAll` returns; without an error the whole payload is written. */
  function Wrote(io: Io, payload: seq<byte>): (n: nat)
    ensures n <= |payload|
    ensures !io.writeErr ==> n == |payload|
  {
    if io.writeErr && io.written < |payload| then io.written else |payload|
  }
}
