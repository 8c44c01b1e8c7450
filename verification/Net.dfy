/** The whole protocol as a transition system: one client, every session the
    server ever created, and a network that may deliver any frame ever put on a
    connection, on that connection, at any time, in any order and any number of
    times. Connection failure is the special case of not delivering. */
module Net {
  import opened Wire
  import opened ClientModel
  import S = ServerModel

  datatype Packet = Packet(conn: Conn, frame: Frame)

  /** An activation in progress; `switchMu` admits one at a time. The offsets are
      those its hello carries, `cold` says that no connection was active. */
  datatype Handshake = Handshake(conn: Conn, resume: bool, c2sAck: nat, s2cRx: nat, cold: bool)

  /** Where `stdinLoop` stands: before `waitActive`, before `waitBuffer` with the
      connection it picked, inside `Read`, about to handle the end of stdin, or returned. */
  datatype Reader = Idle | Picked(conn: Conn) | Ready(conn: Conn) | Last | Done

  /** What became of the first hello on a connection at the server. */
  datatype Link = Bound(session: Sid, epoch: nat) | Refused

  datatype Net = Net(
    client: Client,
    hand: Option<Handshake>,
    conns: map<Conn, nat>,          // committed client connections, with their epoch
    reader: Reader,
    sessions: map<Sid, S.Session>,  // including the closed ones
    links: map<Conn, Link>,
    used: set<Conn>,
    up: set<Packet>,                // put on the wire by the client
    down: set<Packet>,              // put on the wire by the server
    clientLimit: nat,               // resume.buffer_bytes at either end
    serverLimit: nat
  )

  datatype Step =
    | StartHandshake(conn: Conn)
    | AbandonHandshake
    | CommitHandshake(frame: Frame)
    | ReplayClient(conn: Conn)
    | DropActive(conn: Conn)
    | FinishClient
    | ClientReceive(conn: Conn, frame: Frame, io: Io)
    | StdinPick
    | StdinReady
    | StdinRead(chunk: seq<byte>, last: bool)
    | StdinEnd
    | SendFin(conn: Conn)
    | SendPing(conn: Conn, nonce: nat)
    | ServerHello(conn: Conn, frame: Frame, newSid: Sid, ok: bool, io: Io)
    | ServerReceive(conn: Conn, frame: Frame, io: Io)
    | ServerDisconnect(conn: Conn)
    | ServerClose(sid: Sid, io: Io)
    | TargetReady(sid: Sid)
    | TargetRead(sid: Sid, bytes: seq<byte>, end: bool)
    | TargetEnd(sid: Sid)

  /** Frames put on one connection, in order. */
  datatype Sent = Sent(conn: Conn, frames: seq<Frame>)

  /** A new state, and what either end put on the wire to get there. */
  datatype Result = Result(net: Net, up: Sent, down: Sent)

  function Packets(s: Sent): set<Packet> {
    set f | f in s.frames :: Packet(s.conn, f)
  }

  const NOTHING: Sent := Sent(0, [])

  function Quiet(n: Net): Result {
    Result(n, NOTHING, NOTHING)
  }

  predicate Enabled(n: Net, step: Step) {
    match step
    case StartHandshake(c) => n.hand.None? && c !in n.used
    case AbandonHandshake => n.hand.Some?
    case CommitHandshake(f) => n.hand.Some? && f.Accept? && Packet(n.hand.value.conn, f) in n.down
    case ReplayClient(c) => c in n.conns
    case DropActive(c) => true
    case FinishClient => true
    case ClientReceive(c, f, io) => c in n.conns && Packet(c, f) in n.down
    case StdinPick => n.reader.Idle? && n.client.active.Some?
    case StdinReady => n.reader.Picked? && |n.client.snd.buf| < n.clientLimit
    case StdinRead(p, last) => n.reader.Ready? && n.reader.conn in n.conns && 0 < |p| <= DATA_CHUNK
    case StdinEnd => n.reader.Ready? || n.reader.Last?
    case SendFin(c) => n.client.fin && c in n.conns
    case SendPing(c, _) => c in n.conns
    case ServerHello(c, f, newSid, ok, io) =>
      Packet(c, f) in n.up && f.Hello? && c !in n.links && newSid != 0 && newSid !in n.sessions
    case ServerReceive(c, f, io) => c in n.links && n.links[c].Bound? && Packet(c, f) in n.up
        && n.links[c].session in n.sessions
    case ServerDisconnect(c) => c in n.links && n.links[c].Bound? && n.links[c].session in n.sessions
    case ServerClose(sid, io) => sid in n.sessions
    case TargetReady(sid) =>
      sid in n.sessions && n.sessions[sid].pump.Waiting? && !n.sessions[sid].closed
      && |n.sessions[sid].snd.buf| < n.serverLimit
    case TargetRead(sid, p, end) => sid in n.sessions && n.sessions[sid].pump.Reading? && 0 < |p| <= DATA_CHUNK
    case TargetEnd(sid) => sid in n.sessions && (n.sessions[sid].pump.Reading? || n.sessions[sid].pump.Draining?)
  }

  /** `accept` on the first hello of a connection. `newSid` is the identifier a new
      session would get; `ok` is the dial outcome of a new session, and of a resume
      whether the disconnect time is still within the timeout. */
  function HelloAtServer(n: Net, c: Conn, f: Frame, newSid: Sid, ok: bool, io: Io): Result
    requires f.Hello?
  {
    var refused := Result(n.(links := n.links[c := Refused]), NOTHING, Sent(c, S.Reply(Error, 0, 0, io.sendOk)));
    if !f.resume then
      if !ok then refused
      else Result(n.(sessions := n.sessions[newSid := S.Fresh1(c)], links := n.links[c := Bound(newSid, 1)]),
                  NOTHING, Sent(c, [Accept(newSid, 1, 0, 0)]))
    else if f.session == 0 || f.session !in n.sessions then refused
    else
      match S.Resume(n.sessions[f.session], f.session, c, f, !ok, io)
      case Refused => refused
      case Expired(o) =>
        refused.(net := refused.net.(sessions := n.sessions[f.session := o.session]))
      case Resumed(s, accept, replay) =>
        Result(n.(sessions := n.sessions[f.session := s], links := n.links[c := Bound(f.session, s.epoch)]),
               NOTHING, Sent(c, [accept] + replay))
  }

  function ActiveOf(s: S.Session): Conn {
    if s.active.Some? then s.active.value else 0
  }

  /** The effect of one step, before the network records what was sent. */
  function Effect(n: Net, step: Step): Result
    requires Enabled(n, step)
  {
    var cl := n.client;
    match step
    case StartHandshake(c) =>
      var resume := cl.session != 0;
      Result(n.(hand := Some(Handshake(c, resume, cl.snd.ack, cl.rx, cl.active.None?)), used := n.used + {c}),
             Sent(c, [Hello(resume, cl.session, cl.snd.ack, cl.rx)]), NOTHING)
    case AbandonHandshake => Quiet(n.(hand := None))
    case CommitHandshake(f) =>
      (match Commit(cl, n.hand.value.conn, n.hand.value.resume, f)
       case None => Quiet(n.(hand := None))
       case Some(cl') => Quiet(n.(hand := None, client := cl', conns := n.conns[n.hand.value.conn := f.epoch])))
    case ReplayClient(c) => Result(n, Sent(c, Replay(cl, n.conns[c])), NOTHING)
    case DropActive(c) => Quiet(n.(client := Drop(cl, c)))
    case FinishClient => Quiet(n.(client := Finish(cl)))
    case ClientReceive(c, f, io) =>
      var o := Receive(cl, c, n.conns[c], f, io);
      Result(n.(client := o.client), Sent(c, o.sent), NOTHING)
    case StdinPick => Quiet(n.(reader := Picked(cl.active.value)))
    case StdinReady => Quiet(n.(reader := Ready(n.reader.conn)))
    case StdinRead(p, last) =>
      var c := n.reader.conn;
      Result(n.(client := AppendBytes(cl, p), reader := if last then Last else Idle),
             Sent(c, [Stamp(Data(cl.session, 0, ClientToServer, cl.snd.next, p), 0, n.conns[c])]), NOTHING)
    case StdinEnd => Quiet(n.(client := MarkFin(cl), reader := Done))
    case SendFin(c) =>
      Result(n, Sent(c, [Stamp(Fin(cl.session, 0, ClientToServer, cl.finAt), 0, n.conns[c])]), NOTHING)
    case SendPing(c, nonce) => Result(n, Sent(c, [Ping(nonce)]), NOTHING)
    case ServerHello(c, f, newSid, ok, io) => HelloAtServer(n, c, f, newSid, ok, io)
    case ServerReceive(c, f, io) =>
      var l := n.links[c];
      var o := S.Receive(n.sessions[l.session], l.session, c, l.epoch, f, io);
      Result(n.(sessions := n.sessions[l.session := o.session]), NOTHING, Sent(c, o.sent))
    case ServerDisconnect(c) =>
      var sid := n.links[c].session;
      Quiet(n.(sessions := n.sessions[sid := S.Disconnect(n.sessions[sid], c)]))
    case ServerClose(sid, io) =>
      var o := S.CloseTerminal(n.sessions[sid], sid, io.sendOk);
      Result(n.(sessions := n.sessions[sid := o.session]), NOTHING, Sent(ActiveOf(n.sessions[sid]), o.sent))
    case TargetReady(sid) => Quiet(n.(sessions := n.sessions[sid := n.sessions[sid].(pump := S.Reading)]))
    case TargetRead(sid, p, end) =>
      var o := S.TargetRead(n.sessions[sid], sid, p, end);
      Result(n.(sessions := n.sessions[sid := o.session]), NOTHING, Sent(ActiveOf(n.sessions[sid]), o.sent))
    case TargetEnd(sid) =>
      var o := S.TargetEnd(n.sessions[sid], sid);
      Result(n.(sessions := n.sessions[sid := o.session]), NOTHING, Sent(ActiveOf(n.sessions[sid]), o.sent))
  }

  function Exec(n: Net, step: Step): Net
    requires Enabled(n, step)
  {
    var r := Effect(n, step);
    r.net.(up := n.up + Packets(r.up), down := n.down + Packets(r.down))
  }

  ghost predicate Init(n: Net) {
    && n.client == START && n.hand.None? && n.conns == map[] && n.reader.Idle?
    && n.sessions == map[] && n.links == map[] && n.used == {} && n.up == {} && n.down == {}
    && n.clientLimit > 0 && n.serverLimit > 0
  }

  /** States of a run, one longer than its steps. */
  ghost predicate IsRun(states: seq<Net>, steps: seq<Step>) {
    && |states| == |steps| + 1
    && Init(states[0])
    && forall i | 0 <= i < |steps| :: Enabled(states[i], steps[i]) && states[i + 1] == Exec(states[i], steps[i])
  }
}
