/** The client endpoint as a value: the fields of `clientRuntime` that carry the
    protocol, and what each of its operations does to them. */
module ClientModel {
  import opened Wire
  import opened Stream

  datatype Client = Client(
    active: Option<Conn>,
    session: Sid,
    epoch: nat,
    snd: Sender,          // c2sNext, c2sAck, c2sBuf, c2sBufFrom
    fin: bool,            // c2sFin
    finAt: nat,           // c2sFinAt
    rx: nat,              // s2cRx
    finished: bool,
    stdin: seq<byte>,     // everything read from stdin so far
    stdout: seq<byte>,    // everything stdout has taken so far
    stdoutClosed: bool    // its write side was shut
  )

  const START: Client := Client(None, 0, 0, EMPTY_SENDER, false, 0, 0, false, [], [], false)

  /** State after an operation, and the frames it put on its connection. */
  datatype Out = Out(client: Client, sent: seq<Frame>)

  function AppendBytes(c: Client, p: seq<byte>): Client {
    c.(snd := Push(c.snd, p), stdin := c.stdin + p)
  }

  function MarkFin(c: Client): Client {
    c.(fin := true, finAt := c.snd.next)
  }

  function Drop(c: Client, conn: Conn): Client {
    if c.active == Some(conn) then c.(active := None) else c
  }

  function Finish(c: Client): Client {
    if c.finished then c else c.(active := None, finished := true)
  }

  /** `commitActivation` up to the point where it publishes the connection. */
  function Commit(c: Client, conn: Conn, resume: bool, accept: Frame): Option<Client>
    requires accept.Accept?
  {
    if c.finished then None
    else if resume && accept.session != c.session then None
    else if accept.c2sRx > c.snd.next then None
    else
      match Advance(c.snd, accept.c2sRx)
      case Moved(s) => Some(c.(snd := s, active := Some(conn), session := accept.session, epoch := accept.epoch))
      case _ => None
  }

  /** Everything `replayClientBytes` sends on a connection of the given epoch. */
  function Replay(c: Client, epoch: nat): seq<Frame> {
    Chunks(c.session, epoch, ClientToServer, c.snd.bufFrom, c.snd.buf)
    + if c.fin then [Fin(c.session, epoch, ClientToServer, c.finAt)] else []
  }

  /** The test `receiveLoop` applies to everything but ping and pong. */
  predicate Current(c: Client, conn: Conn, f: Frame) {
    c.active == Some(conn) && f.Epoch() == c.epoch && (f.Session() == 0 || f.Session() == c.session)
  }

  /** One frame put on a connection by `clientConn.send`. */
  function Reply(f: Frame, epoch: nat, ok: bool): seq<Frame> {
    if ok then [Stamp(f, 0, epoch)] else []
  }

  /** `handleServerData` and what `receiveLoop` does with its error. */
  function HandleData(c: Client, epoch: nat, f: Frame, io: Io): Out
    requires f.Data?
  {
    if f.dir != ServerToClient then Out(Finish(c), Reply(Error, epoch, io.sendOk))
    else
      match Judge(c.rx, f.offset, |f.payload|)
      case Duplicate =>
        if io.sendOk then Out(c, Reply(Ack(c.session, 0, ServerToClient, c.rx), epoch, true))
        else Out(Finish(c), Reply(Error, epoch, io.tailOk))
      case Partial => Out(Finish(c), Reply(Error, epoch, io.sendOk))
      case Gap => Out(Finish(c), Reply(Error, epoch, io.sendOk))
      case Fresh =>
        var n := Wrote(io, f.payload);
        var c' := c.(rx := c.rx + n, stdout := c.stdout + f.payload[..n]);
        var ack := Reply(Ack(c.session, 0, ServerToClient, c'.rx), epoch, io.sendOk);
        if io.writeErr then Out(Finish(c'), ack + Reply(Error, epoch, io.tailOk)) else Out(c', ack)
  }

  /** `handleServerFin` and what `receiveLoop` does with its error. */
  function HandleFin(c: Client, epoch: nat, f: Frame, io: Io): Out
    requires f.Fin?
  {
    if f.dir != ServerToClient || f.offset != c.rx then Out(Finish(c), [])
    else Out(c.(stdoutClosed := true), Reply(Ack(c.session, 0, ServerToClient, c.rx), epoch, io.sendOk))
  }

  /** One iteration of `receiveLoop` on a frame read from `conn`, whose
      connection object carries `epoch`. */
  function Receive(c: Client, conn: Conn, epoch: nat, f: Frame, io: Io): Out {
    if f.Ping? then Out(c, Reply(Pong(f.nonce), epoch, io.sendOk))
    else if f.Pong? || !Current(c, conn, f) then Out(c, [])
    else
      match f
      case Data(_, _, _, _, _) => HandleData(c, epoch, f, io)
      case Ack(_, _, dir, received) =>
        if dir != ClientToServer then Out(Finish(c), [])
        else (match Advance(c.snd, received)
              case Moved(s) => Out(c.(snd := s), [])
              case _ => Out(Finish(c), []))
      case Fin(_, _, _, _) => HandleFin(c, epoch, f, io)
      case _ => Out(Finish(c), [])
  }
}
