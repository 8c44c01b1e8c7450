/** One server session as a value: the fields of `serverSession` that carry the
    protocol, and what each of its operations does to them. */
module ServerModel {
  import opened Wire
  import opened Stream

  /** Where the `readTarget` loop stands: waiting for buffer space, inside
      `Read`, about to report the end of the stream, or returned. */
  datatype Pump = Waiting | Reading | Draining | Stopped

  datatype Session = Session(
    epoch: nat,
    active: Option<Conn>,
    disconnected: bool,         // a disconnect time is set
    closed: bool,
    rx: nat,                    // c2sRx
    c2sFin: bool,
    snd: Sender,                // s2cNext, s2cAck, s2cBuf, s2cBufFrom
    s2cFin: bool,
    pump: Pump,
    targetRead: seq<byte>,      // everything read from the target so far
    targetWritten: seq<byte>,   // everything the target has taken so far
    halfCloses: nat             // how often its write side was shut
  )

  /** The session `accept` creates for a first hello. */
  function Fresh1(conn: Conn): Session {
    Session(1, Some(conn), false, false, 0, false, EMPTY_SENDER, false, Waiting, [], [], 0)
  }

  /** State after an operation, and the frames it put on its connection. */
  datatype Out = Out(session: Session, sent: seq<Frame>)

  function Disconnect(s: Session, conn: Conn): Session {
    if s.closed || s.active != Some(conn) then s else s.(active := None, disconnected := true)
  }

  /** One frame put on a connection by `serverConn.send`. */
  function Reply(f: Frame, sid: Sid, epoch: nat, ok: bool): seq<Frame> {
    if ok then [Stamp(f, sid, epoch)] else []
  }

  /** `closeTerminal`; the close frame goes out on the connection that was active. */
  function CloseTerminal(s: Session, sid: Sid, ok: bool): Out {
    if s.closed then Out(s, [])
    else Out(s.(closed := true, active := None),
             if s.active.Some? then Reply(Close(0, 0), sid, s.epoch, ok) else [])
  }

  /** A protocol error: an error frame, then `disconnect`. */
  function Fail(s: Session, sid: Sid, conn: Conn, ok: bool): Out {
    Out(Disconnect(s, conn), Reply(Error, sid, 0, ok))
  }

  predicate IsActive(s: Session, sid: Sid, conn: Conn, f: Frame) {
    !s.closed && s.active == Some(conn) && f.Session() == sid && f.Epoch() == s.epoch
  }

  /** `handleClientData` and what `run` does with its error. */
  function HandleData(s: Session, sid: Sid, conn: Conn, epoch: nat, f: Frame, io: Io): Out
    requires f.Data?
  {
    if f.dir != ClientToServer then Fail(s, sid, conn, io.sendOk)
    else
      match Judge(s.rx, f.offset, |f.payload|)
      case Duplicate =>
        if io.sendOk then Out(s, Reply(Ack(0, 0, ClientToServer, s.rx), sid, epoch, true))
        else Fail(s, sid, conn, io.tailOk)
      case Partial => Fail(s, sid, conn, io.sendOk)
      case Gap => Fail(s, sid, conn, io.sendOk)
      case Fresh =>
        var n := Wrote(io, f.payload);
        var s' := s.(rx := s.rx + n, targetWritten := s.targetWritten + f.payload[..n]);
        var ack := Reply(Ack(0, 0, ClientToServer, s'.rx), sid, epoch, io.sendOk);
        if io.writeErr then
          var o := CloseTerminal(s', sid, io.tailOk);
          Out(o.session, ack + o.sent)
        else Out(s', ack)
  }

  /** `handleClientFin` and what `run` does with its error. */
  function HandleFin(s: Session, sid: Sid, conn: Conn, epoch: nat, f: Frame, io: Io): Out
    requires f.Fin?
  {
    if f.dir != ClientToServer then Fail(s, sid, conn, io.sendOk)
    else
      var ack := Reply(Ack(0, 0, ClientToServer, s.rx), sid, epoch, io.sendOk);
      if f.offset < s.rx || (f.offset == s.rx && s.c2sFin) then
        if io.sendOk then Out(s, ack) else Fail(s, sid, conn, io.tailOk)
      else if f.offset != s.rx then Fail(s, sid, conn, io.sendOk)
      else
        var s' := s.(c2sFin := true, halfCloses := s.halfCloses + 1);
        if io.sendOk then Out(s', ack) else Fail(s', sid, conn, io.tailOk)
  }

  /** One iteration of `run` on a frame read from `conn`, whose connection
      object carries `epoch`. */
  function Receive(s: Session, sid: Sid, conn: Conn, epoch: nat, f: Frame, io: Io): Out {
    if f.Ping? then Out(s, Reply(Pong(f.nonce), sid, epoch, io.sendOk))
    else if !IsActive(s, sid, conn, f) then Out(s, [])
    else
      match f
      case Data(_, _, _, _, _) => HandleData(s, sid, conn, epoch, f, io)
      case Ack(_, _, dir, received) =>
        if dir != ServerToClient then Fail(s, sid, conn, io.sendOk)
        else (match Advance(s.snd, received)
              case Moved(b) => Out(s.(snd := b), [])
              case _ => Fail(s, sid, conn, io.sendOk))
      case Fin(_, _, _, _) => HandleFin(s, sid, conn, epoch, f, io)
      case Close(_, _) => CloseTerminal(s, sid, io.sendOk)
      case _ => Fail(s, sid, conn, io.sendOk)
  }

  datatype Resumed =
    | Resumed(session: Session, accept: Frame, replay: seq<Frame>)
    | Expired(out: Out)
    | Refused

  /** `resume`: the new state, the accept frame and the replay behind it.
      `expired` is the comparison of the disconnect time with the resume timeout. */
  function Resume(s: Session, sid: Sid, conn: Conn, hello: Frame, expired: bool, io: Io): Resumed
    requires hello.Hello?
  {
    if s.closed then Refused
    else if s.disconnected && expired then Expired(CloseTerminal(s, sid, io.sendOk))
    else if hello.c2sRx > s.rx then Refused
    else
      match Advance(s.snd, hello.s2cRx)
      case Moved(b) =>
        var s' := s.(snd := b, epoch := s.epoch + 1, active := Some(conn), disconnected := false);
        Resumed(s', Stamp(Accept(sid, s'.epoch, s.rx, b.ack), sid, s'.epoch), Replay(s', sid, s'.epoch))
      case _ => Refused
  }

  /** The buffered bytes, then the fin once the target has ended. */
  function Replay(s: Session, sid: Sid, epoch: nat): seq<Frame> {
    Chunks(sid, epoch, ServerToClient, s.snd.bufFrom, s.snd.buf)
    + if s.s2cFin then [Fin(sid, epoch, ServerToClient, s.snd.next)] else []
  }

  /** `readTarget` got bytes. */
  function TargetRead(s: Session, sid: Sid, p: seq<byte>, last: bool): Out {
    Out(s.(snd := Push(s.snd, p), targetRead := s.targetRead + p, pump := if last then Draining else Waiting),
        if s.active.Some? then [Stamp(Data(0, 0, ServerToClient, s.snd.next, p), sid, s.epoch)] else [])
  }

  /** `readTarget` got an error or the end of the stream. */
  function TargetEnd(s: Session, sid: Sid): Out {
    Out(s.(s2cFin := true, pump := Stopped),
        if s.active.Some? then [Stamp(Fin(0, 0, ServerToClient, s.snd.next), sid, s.epoch)] else [])
  }
}
