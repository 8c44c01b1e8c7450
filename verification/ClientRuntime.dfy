/** `clientRuntime` with its fields; each method is proved against the value
    model that the transition systems run. */
module ClientRuntime {
  import opened Wire
  import opened Stream
  import opened Transport
  import M = ClientModel
  import H = Heartbeat

  class ClientRuntime {
    var active: Option<Conn>
    var sessionID: Sid
    var epoch: nat
    var c2sNext: nat
    var c2sAck: nat
    var c2sBuf: seq<byte>
    var c2sBufFrom: nat
    var c2sFin: bool
    var c2sFinAt: nat
    var s2cRx: nat
    var finished: bool
    var stdinRead: seq<byte>
    const stdout: Writer

    constructor (stdout: Writer)
      requires stdout.contents == [] && stdout.closes == 0
      ensures State() == M.START && this.stdout == stdout
    {
      active, sessionID, epoch := None, 0, 0;
      c2sNext, c2sAck, c2sBuf, c2sBufFrom := 0, 0, [], 0;
      c2sFin, c2sFinAt, s2cRx, finished, stdinRead := false, 0, 0, false, [];
      this.stdout := stdout;
    }

    /** The value the protocol model works on. */
    ghost function State(): M.Client
      reads this, stdout
    {
      M.Client(active, sessionID, epoch, Sender(c2sNext, c2sAck, c2sBuf, c2sBufFrom), c2sFin, c2sFinAt, s2cRx,
               finished, stdinRead, stdout.contents, stdout.closes > 0)
    }

    method AppendClientBytes(payload: seq<byte>) returns (offset: nat, session: Sid)
      modifies this
      ensures State() == M.AppendBytes(old(State()), payload)
      ensures offset == old(c2sNext) && session == old(sessionID)
    {
      offset := c2sNext;
      stdinRead := stdinRead + payload;
      c2sNext := c2sNext + |payload|;
      c2sBuf := c2sBuf + payload;
      session := sessionID;
    }

    method MarkClientFin()
      modifies this
      ensures State() == M.MarkFin(old(State()))
    {
      c2sFin := true;
      c2sFinAt := c2sNext;
    }

    /** `advanceC2SAckLocked`; false is its error. */
    method AdvanceC2SAck(offset: nat) returns (ok: bool)
      modifies this
      ensures ok <==> Advance(old(State()).snd, offset).Moved?
      ensures State() == if ok then old(State()).(snd := Advance(old(State()).snd, offset).sender) else old(State())
    {
      if offset < c2sAck {
        return true;
      }
      if offset > c2sNext {
        return false;
      }
      var drop := Sub64(offset, c2sBufFrom);
      if drop < 0 || drop > |c2sBuf| {
        return false;
      }
      c2sBuf := c2sBuf[drop..];
      c2sBufFrom := offset;
      c2sAck := offset;
      ok := true;
    }

    method DropActive(conn: Conn) returns (dropped: bool)
      modifies this
      ensures State() == M.Drop(old(State()), conn)
      ensures dropped <==> old(active) == Some(conn)
    {
      dropped := false;
      if active == Some(conn) {
        active := None;
        dropped := true;
      }
    }

    method Finish()
      modifies this
      ensures State() == M.Finish(old(State()))
    {
      if !finished {
        active := None;
        finished := true;
      }
    }

    method HelloOffsets() returns (session: Sid, c2s: nat, s2c: nat)
      ensures session == State().session && c2s == State().snd.ack && s2c == State().rx
    {
      session, c2s, s2c := sessionID, c2sAck, s2cRx;
    }

    /** The hello an activation begins with. */
    method SayHello(link: Link, resume: bool) returns (ok: bool)
      modifies link`sent, link`failures
      ensures link.sent == old(link.sent) + if ok then [Hello(resume, State().session, State().snd.ack, State().rx)]
              else []
      ensures link.failures == old(link.failures) + Failed(ok)
    {
      var session, c2s, s2c := HelloOffsets();
      ok := link.WriteFrame(Hello(resume, session, c2s, s2c));
    }

    /** `commitActivation` up to the point where it publishes the connection. */
    method CommitActivation(conn: Conn, resume: bool, accept: Frame) returns (ok: bool)
      requires accept.Accept?
      modifies this
      ensures ok <==> M.Commit(old(State()), conn, resume, accept).Some?
      ensures State() == if ok then M.Commit(old(State()), conn, resume, accept).value else old(State())
    {
      if finished {
        return false;
      }
      if resume && accept.session != sessionID {
        return false;
      }
      if accept.c2sRx > c2sNext {
        return false;
      }
      ok := AdvanceC2SAck(accept.c2sRx);
      if ok {
        active := Some(conn);
        sessionID := accept.session;
        epoch := accept.epoch;
      }
    }

    /** `replayClientBytes`: on success exactly the replay of the model went out;
        a failed send drops the connection and leaves a proper prefix of it behind. */
    method ReplayClientBytes(link: Link) returns (ok: bool)
      requires sessionID != 0
      modifies this, link`sent, link`failures
      ensures State() == if ok then old(State()) else M.Drop(old(State()), link.conn)
      ensures link.failures == old(link.failures) + Failed(ok)
      ensures ok ==> link.sent == old(link.sent) + M.Replay(old(State()), link.epoch)
      ensures !ok ==> exists k | 0 <= k < |M.Replay(old(State()), link.epoch)| ::
                        link.sent == old(link.sent) + M.Replay(old(State()), link.epoch)[..k]
    {
      var offset, buf, fin, finAt, session := c2sBufFrom, c2sBuf, c2sFin, c2sFinAt, sessionID;
      ghost var chunks := Chunks(session, link.epoch, ClientToServer, offset, buf);
      ghost var replay := M.Replay(State(), link.epoch);
      assert replay[..|chunks|] == chunks;
      ok := SendDataChunks(link, session, ClientToServer, offset, buf);
      if !ok {
        ghost var k :| 0 <= k < |chunks| && link.sent == old(link.sent) + chunks[..k];
        assert replay[..k] == chunks[..k];
        var _ := DropActive(link.conn);
        return false;
      }
      if fin {
        ok := link.Send(Fin(session, 0, ClientToServer, finAt));
        if !ok {
          var _ := DropActive(link.conn);
          return false;
        }
      }
    }

    /** What `receiveLoop` does with an error of `handleServerData`. */
    method Refuse(link: Link) returns (ok: bool)
      requires link.session == 0
      modifies this, link`sent, link`failures
      ensures State() == M.Finish(old(State())) && link.sent == old(link.sent) + M.Reply(Error, link.epoch, ok)
      ensures link.failures == old(link.failures) + Failed(ok) && finished
    {
      ok := link.Send(Error);
      Finish();
    }

    /** The part of `handleServerData` behind its offset checks. */
    method TakeServerData(link: Link, f: Frame) returns (io: Io)
      requires f.Data? && f.dir == ServerToClient && f.offset == s2cRx && link.session == 0
      modifies this, stdout, link`sent, link`failures
      ensures var o := M.HandleData(old(State()), link.epoch, f, io);
              State() == o.client && link.sent == old(link.sent) + o.sent
      ensures link.failures == old(link.failures) + Failures(io) && stdout.stalls == old(stdout.stalls)
              + if io.writeErr then 1 else 0
      ensures io.writeErr ==> finished
    {
      var n, err := WriteAll(stdout, f.payload);
      s2cRx := s2cRx + n;
      var ok := link.Send(Ack(sessionID, 0, ServerToClient, s2cRx));
      io := Io(n, err, ok, true);
      if err {
        var sent := Refuse(link);
        io := io.(tailOk := sent);
      }
    }

    /** `handleServerData`, and the error handling of `receiveLoop` behind it. */
    method HandleServerData(link: Link, f: Frame) returns (ended: bool, io: Io)
      requires f.Data? && link.session == 0
      modifies this, stdout, link`sent, link`failures
      ensures var o := M.HandleData(old(State()), link.epoch, f, io);
              State() == o.client && link.sent == old(link.sent) + o.sent
      ensures link.failures == old(link.failures) + Failures(io) && stdout.stalls == old(stdout.stalls)
              + if io.writeErr then 1 else 0
      ensures !old(finished) ==> (ended <==> finished)
    {
      io := FINE;
      if f.dir != ServerToClient || f.offset > s2cRx || (f.offset < s2cRx && f.offset + |f.payload| > s2cRx) {
        var ok := Refuse(link);
        return true, io.(sendOk := ok);
      }
      if f.offset < s2cRx {
        var ok := link.Send(Ack(sessionID, 0, ServerToClient, s2cRx));
        if ok {
          return false, io;
        }
        var sent := Refuse(link);
        return true, io.(sendOk := false, tailOk := sent);
      }
      io := TakeServerData(link, f);
      ended := io.writeErr;
    }

    /** `handleServerFin`, and the error handling of `receiveLoop` behind it. */
    method HandleServerFin(link: Link, f: Frame) returns (ended: bool, io: Io)
      requires f.Fin? && link.session == 0
      modifies this, stdout, link`sent, link`failures
      ensures var o := M.HandleFin(old(State()), link.epoch, f, io);
              State() == o.client && link.sent == old(link.sent) + o.sent
      ensures link.failures == old(link.failures) + Failures(io) && stdout.stalls == old(stdout.stalls)
              + if io.writeErr then 1 else 0
      ensures !old(finished) ==> (ended <==> finished)
    {
      io := FINE;
      if f.dir != ServerToClient || f.offset != s2cRx {
        Finish();
        return true, io;
      }
      stdout.CloseWrite();
      var ok := link.Send(Ack(sessionID, 0, ServerToClient, s2cRx));
      io := io.(sendOk := ok);
      ended := false;
    }

    /** One round of `receiveLoop` on a frame that was read. */
    method Receive(link: Link, f: Frame, tracker: H.HeartbeatTracker, now: int) returns (ended: bool, io: Io)
      requires link.session == 0 && tracker.TrackerOK()
      modifies this, stdout, link`sent, link`failures, tracker, tracker.done
      ensures tracker.TrackerOK()
      ensures tracker.state == if f.Pong? then H.Call(old(tracker.state), H.Op.Pong(f.nonce, now)).0
                               else old(tracker.state)
      ensures f.Ping? ==>
              State() == old(State()) && link.sent == old(link.sent) + if io.sendOk then [Pong(f.nonce)] else []
      ensures var o := M.Receive(old(State()), link.conn, link.epoch, f, io);
              State() == o.client && link.sent == old(link.sent) + o.sent
      ensures link.failures == old(link.failures) + Failures(io) && stdout.stalls == old(stdout.stalls)
              + if io.writeErr then 1 else 0
      ensures !old(finished) ==> (ended <==> finished)
    {
      io := FINE;
      ended := false;
      if f.Ping? {
        var ok := link.Send(Pong(f.nonce));
        io := io.(sendOk := ok);
        return;
      }
      var current := active == Some(link.conn) && f.Epoch() == epoch && (f.Session() == 0 || f.Session() == sessionID);
      if f.Pong? {
        var _ := tracker.ResolvePong(f.nonce, now);
        return;
      }
      if current {
        ended, io := Dispatch(link, f);
      }
    }

    /** The part of `receiveLoop` behind its filter. */
    method Dispatch(link: Link, f: Frame) returns (ended: bool, io: Io)
      requires link.session == 0 && M.Current(State(), link.conn, f) && !f.Ping? && !f.Pong?
      modifies this, stdout, link`sent, link`failures
      ensures var o := M.Receive(old(State()), link.conn, link.epoch, f, io);
              State() == o.client && link.sent == old(link.sent) + o.sent
      ensures link.failures == old(link.failures) + Failures(io) && stdout.stalls == old(stdout.stalls)
              + if io.writeErr then 1 else 0
      ensures !old(finished) ==> (ended <==> finished)
    {
      io := FINE;
      ended := false;
      if f.Data? {
        ended, io := HandleServerData(link, f);
      } else if f.Fin? {
        ended, io := HandleServerFin(link, f);
      } else if f.Ack? {
        var ok := false;
        if f.dir == ClientToServer {
          ok := AdvanceC2SAck(f.received);
        }
        if !ok {
          Finish();
          ended := true;
        }
      } else {
        Finish();
        ended := true;
      }
    }
  }
}
