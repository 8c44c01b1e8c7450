/** `serverSession` with its fields; each method is proved against the value
    model that the transition systems run. */
module ServerSession {
  import opened Wire
  import opened Stream
  import opened Transport
  import M = ServerModel

  class ServerSession {
    const id: Sid
    const target: Writer
    const registry: Registry<ServerSession>
    var epoch: nat
    var active: Option<Conn>
    var disconnected: bool
    var closed: bool
    var c2sRx: nat
    var c2sFin: bool
    var s2cNext: nat
    var s2cAck: nat
    var s2cBuf: seq<byte>
    var s2cBufFrom: nat
    var s2cFin: bool
    var pump: M.Pump
    var targetRead: seq<byte>

    /** The session `accept` builds for a first hello, at epoch 1. */
    constructor (id: Sid, target: Writer, conn: Conn, registry: Registry<ServerSession>)
      requires target.contents == [] && target.closes == 0
      ensures State() == M.Fresh1(conn) && this.id == id && this.target == target && this.registry == registry
    {
      this.id, this.target, this.registry := id, target, registry;
      epoch, active, disconnected, closed := 1, Some(conn), false, false;
      c2sRx, c2sFin, s2cNext, s2cAck, s2cBuf, s2cBufFrom, s2cFin := 0, false, 0, 0, [], 0, false;
      pump, targetRead := M.Waiting, [];
    }

    /** The value the protocol model works on. */
    ghost function State(): M.Session
      reads this, target
    {
      M.Session(epoch, active, disconnected, closed, c2sRx, c2sFin, Sender(s2cNext, s2cAck, s2cBuf, s2cBufFrom),
                s2cFin, pump, targetRead, target.contents, target.closes)
    }

    /** Exactly when the session ends, its target is closed and it leaves the server's map. */
    twostate predicate Released()
      reads this, target, registry
    {
      var ends := closed && !old(closed);
      && target.shut == old(target.shut) + (if ends then 1 else 0)
      && registry.entries == if ends then old(registry.entries) - {id} else old(registry.entries)
    }

    /** Whether the WebSocket that was active is closed, if there was one. */
    twostate predicate HungUp(link: Link, up: bool)
      reads this, link
    {
      link.shut == (old(link.shut) || (up && old(active).Some?))
    }

    /** `advanceS2CAckLocked`; false is its error. */
    method AdvanceS2CAck(offset: nat) returns (ok: bool)
      modifies this
      ensures ok <==> Advance(old(State()).snd, offset).Moved?
      ensures State() == if ok then old(State()).(snd := Advance(old(State()).snd, offset).sender) else old(State())
    {
      if offset < s2cAck {
        return true;
      }
      if offset > s2cNext {
        return false;
      }
      var drop := Sub64(offset, s2cBufFrom);
      if drop < 0 || drop > |s2cBuf| {
        return false;
      }
      s2cBuf := s2cBuf[drop..];
      s2cBufFrom := offset;
      s2cAck := offset;
      ok := true;
    }

    method Disconnect(conn: Conn)
      modifies this
      ensures State() == M.Disconnect(old(State()), conn)
    {
      if closed || active != Some(conn) {
        return;
      }
      active := None;
      disconnected := true;
    }

    /** `closeTerminal`; `link` is the connection object that is active, if any is. */
    method CloseTerminal(link: Link) returns (ok: bool)
      requires active.Some? ==> link.conn == active.value && link.epoch == epoch && link.session == id
      modifies this, link`sent, link`failures, link`shut, target`shut, registry
      ensures Released() && HungUp(link, closed && !old(closed))
      ensures var o := M.CloseTerminal(old(State()), id, ok);
              State() == o.session && link.sent == old(link.sent) + o.sent
      ensures link.failures == old(link.failures) + Failed(ok)
    {
      ok := true;
      if closed {
        return;
      }
      closed := true;
      var was := active;
      active := None;
      if was.Some? {
        ok := link.Send(Close(0, 0));
        link.Close();
      }
      target.Shut();
      registry.Delete(id);
    }

    /** An error frame, then `disconnect`. */
    method Fail(link: Link) returns (ok: bool)
      modifies this, link`sent, link`failures
      ensures var o := M.Fail(old(State()), id, link.conn, ok);
              State() == o.session && link.sent == old(link.sent) + o.sent
      ensures link.failures == old(link.failures) + Failed(ok)
    {
      ok := link.Send(Error);
      Disconnect(link.conn);
    }

    /** What holds when a frame of `link` has passed `isActive`. */
    ghost predicate Reading(link: Link)
      reads this
    {
      active == Some(link.conn) && link.epoch == epoch && link.session == id
    }

    /** The part of `handleClientData` behind its offset checks. */
    method TakeClientData(link: Link, f: Frame) returns (io: Io)
      requires f.Data? && f.dir == ClientToServer && f.offset == c2sRx && Reading(link)
      modifies this, target`contents, target`stalls, link`sent, link`failures, link`shut, target`shut, registry
      ensures Released() && HungUp(link, closed && !old(closed))
      ensures var o := M.HandleData(old(State()), id, link.conn, link.epoch, f, io);
              State() == o.session && link.sent == old(link.sent) + o.sent
      ensures link.failures == old(link.failures) + Failures(io) && target.stalls == old(target.stalls)
              + if io.writeErr then 1 else 0
    {
      var n, err := WriteAll(target, f.payload);
      c2sRx := c2sRx + n;
      var ok := link.Send(Ack(0, 0, ClientToServer, c2sRx));
      io := Io(n, err, ok, true);
      if err {
        var tail := CloseTerminal(link);
        io := io.(tailOk := tail);
      }
    }

    /** `handleClientData`, and the error handling of `run` behind it. */
    method HandleClientData(link: Link, f: Frame) returns (io: Io)
      requires f.Data? && Reading(link)
      modifies this, target`contents, target`stalls, link`sent, link`failures, link`shut, target`shut, registry
      ensures Released() && HungUp(link, closed && !old(closed))
      ensures var o := M.HandleData(old(State()), id, link.conn, link.epoch, f, io);
              State() == o.session && link.sent == old(link.sent) + o.sent
      ensures link.failures == old(link.failures) + Failures(io) && target.stalls == old(target.stalls)
              + if io.writeErr then 1 else 0
    {
      io := FINE;
      if f.dir != ClientToServer || f.offset > c2sRx || (f.offset < c2sRx && f.offset + |f.payload| > c2sRx) {
        var ok := Fail(link);
        return io.(sendOk := ok);
      }
      if f.offset < c2sRx {
        var ok := link.Send(Ack(0, 0, ClientToServer, c2sRx));
        if !ok {
          var tail := Fail(link);
          io := io.(sendOk := false, tailOk := tail);
        }
        return;
      }
      io := TakeClientData(link, f);
    }

    /** `handleClientFin`, and the error handling of `run` behind it. */
    method HandleClientFin(link: Link, f: Frame) returns (io: Io)
      requires f.Fin? && Reading(link)
      modifies this, target`closes, link`sent, link`failures
      ensures var o := M.HandleFin(old(State()), id, link.conn, link.epoch, f, io);
              State() == o.session && link.sent == old(link.sent) + o.sent
      ensures link.failures == old(link.failures) + Failures(io) && target.stalls == old(target.stalls)
              + if io.writeErr then 1 else 0
    {
      io := FINE;
      var late := f.offset < c2sRx || (f.offset == c2sRx && c2sFin);
      if f.dir != ClientToServer || (!late && f.offset != c2sRx) {
        var ok := Fail(link);
        return io.(sendOk := ok);
      }
      if !late {
        c2sFin := true;
        target.CloseWrite();
      }
      var ok := link.Send(Ack(0, 0, ClientToServer, c2sRx));
      if !ok {
        var tail := Fail(link);
        io := io.(sendOk := false, tailOk := tail);
      }
    }

    /** One round of `run` on a frame that was read. The connection object is the
        one its hello made, so it carries the epoch under which it became active. */
    method Receive(link: Link, f: Frame) returns (io: Io)
      requires link.session == id && (active == Some(link.conn) ==> link.epoch == epoch)
      ensures f.Ping? ==>
              State() == old(State()) && link.sent == old(link.sent) + if io.sendOk then [Pong(f.nonce)] else []
      modifies this, target, link`sent, link`failures, link`shut, registry
      ensures Released() && HungUp(link, closed && !old(closed))
      ensures var o := M.Receive(old(State()), id, link.conn, link.epoch, f, io);
              State() == o.session && link.sent == old(link.sent) + o.sent
      ensures link.failures == old(link.failures) + Failures(io) && target.stalls == old(target.stalls)
              + if io.writeErr then 1 else 0
    {
      io := FINE;
      if f.Ping? {
        var ok := link.Send(Pong(f.nonce));
        return io.(sendOk := ok);
      }
      if closed || active != Some(link.conn) || f.Session() != id || f.Epoch() != epoch {
        return;
      }
      io := Dispatch(link, f);
    }

    /** The part of `run` behind its filter. */
    method Dispatch(link: Link, f: Frame) returns (io: Io)
      requires M.IsActive(State(), id, link.conn, f) && Reading(link) && !f.Ping?
      modifies this, target, link`sent, link`failures, link`shut, registry
      ensures Released() && HungUp(link, closed && !old(closed))
      ensures var o := M.Receive(old(State()), id, link.conn, link.epoch, f, io);
              State() == o.session && link.sent == old(link.sent) + o.sent
      ensures link.failures == old(link.failures) + Failures(io) && target.stalls == old(target.stalls)
              + if io.writeErr then 1 else 0
    {
      io := FINE;
      if f.Data? {
        io := HandleClientData(link, f);
      } else if f.Fin? {
        io := HandleClientFin(link, f);
      } else if f.Close? {
        var ok := CloseTerminal(link);
        io := io.(sendOk := ok);
      } else if f.Ack? {
        io := HandleAck(link, f);
      } else {
        var sent := Fail(link);
        io := io.(sendOk := sent);
      }
    }

    /** An ack, and the error handling of `run` behind it. */
    method HandleAck(link: Link, f: Frame) returns (io: Io)
      requires M.IsActive(State(), id, link.conn, f) && Reading(link) && f.Ack?
      modifies this, link`sent, link`failures
      ensures var o := M.Receive(old(State()), id, link.conn, link.epoch, f, io);
              State() == o.session && link.sent == old(link.sent) + o.sent
      ensures link.failures == old(link.failures) + Failures(io) && !io.writeErr && closed == old(closed)
    {
      io := FINE;
      var ok := false;
      if f.dir == ServerToClient {
        ok := AdvanceS2CAck(f.received);
      }
      if !ok {
        var sent := Fail(link);
        io := io.(sendOk := sent);
      }
    }

    /** The critical section of `resume`: on success a new connection object with
        the next epoch. `previous` is the connection object that was active, whose
        WebSocket is closed then. */
    method Admit(hello: Frame, expired: bool, conn: Conn, previous: Link) returns (link: Link?, io: Io)
      requires hello.Hello?
      requires active.Some? ==> previous.conn == active.value && previous.epoch == epoch && previous.session == id
      modifies this, previous`sent, previous`failures, previous`shut, target`shut, registry
      ensures Released() && HungUp(previous, link != null || (closed && !old(closed)))
      ensures previous.failures == old(previous.failures) + Failures(io) && (link != null ==> link.failures == 0)
      ensures match M.Resume(old(State()), id, conn, hello, expired, io)
              case Refused => link == null && State() == old(State()) && previous.sent == old(previous.sent)
              case Expired(o) => link == null && State() == o.session && previous.sent == old(previous.sent) + o.sent
              case Resumed(s, _, _) =>
                && link != null && fresh(link) && link.conn == conn && link.session == id && link.epoch == s.epoch
                && State() == s && link.sent == [] && previous.sent == old(previous.sent)
    {
      io := FINE;
      if closed {
        return null, io;
      }
      if disconnected && expired {
        var ok := CloseTerminal(previous);
        return null, io.(sendOk := ok);
      }
      if hello.c2sRx > c2sRx {
        return null, io;
      }
      var ok := AdvanceS2CAck(hello.s2cRx);
      if !ok {
        return null, io;
      }
      link := Replace(conn, previous);
    }

    /** The next epoch on a new connection, in place of the one before. */
    method Replace(conn: Conn, previous: Link) returns (link: Link)
      modifies this`epoch, this`active, this`disconnected, previous`shut
      ensures State() == old(State()).(epoch := old(epoch) + 1, active := Some(conn), disconnected := false)
      ensures fresh(link) && link.conn == conn && link.session == id && link.epoch == epoch
      ensures link.sent == [] && link.failures == 0 && HungUp(previous, true)
    {
      if active.Some? {
        previous.Close();
      }
      epoch := epoch + 1;
      active := Some(conn);
      disconnected := false;
      link := new Link(conn, id, epoch);
    }

    /** What `resume` sends behind it: the accept, the buffered bytes and the fin.
        A failed send takes the connection away again, except for the fin. */
    method SendReplay(link: Link) returns (ok: bool)
      requires Reading(link) && link.sent == [] && !closed
      modifies this, link`sent, link`failures
      ensures var all := [Stamp(Accept(id, old(epoch), old(c2sRx), old(s2cAck)), id, old(epoch))]
              + M.Replay(old(State()), id, old(epoch));
              && State() == (if ok then old(State()) else M.Disconnect(old(State()), link.conn))
              && (ok ==> if link.failures == old(link.failures) then link.sent == all
                         else old(s2cFin) && link.sent == all[..|all| - 1] && link.failures == old(link.failures) + 1)
              && (!ok ==> link.failures == old(link.failures) + 1 && link.sent < all)
    {
      ghost var all := [Stamp(Accept(id, epoch, c2sRx, s2cAck), id, epoch)] + M.Replay(State(), id, epoch);
      ok := link.Send(Accept(id, epoch, c2sRx, s2cAck));
      if !ok {
        Disconnect(link.conn);
        return;
      }
      assert all[1..] == M.Replay(State(), id, epoch);
      ok := SendBuffered(link);
      if !ok {
        ghost var k :| 0 <= k < |all| - 1 && link.sent == [all[0]] + all[1..][..k];
        assert all[..k + 1] == [all[0]] + all[1..][..k];
      }
    }

    /** The buffered bytes, then the fin; only the fin may fail without consequence. */
    method SendBuffered(link: Link) returns (ok: bool)
      requires Reading(link) && !closed
      modifies this, link`sent, link`failures
      ensures var replay := M.Replay(old(State()), id, old(epoch));
              && State() == (if ok then old(State()) else M.Disconnect(old(State()), link.conn))
              && link.failures == old(link.failures) + (if ok && link.sent == old(link.sent) + replay then 0 else 1)
              && (ok ==> link.sent == old(link.sent) + replay
                         || (old(s2cFin) && link.sent == old(link.sent) + replay[..|replay| - 1]))
              && (!ok ==> exists k | 0 <= k < |replay| :: link.sent == old(link.sent) + replay[..k])
    {
      ghost var before := link.sent;
      ghost var chunks := Chunks(id, epoch, ServerToClient, s2cBufFrom, s2cBuf);
      ghost var replay := M.Replay(State(), id, epoch);
      assert replay[..|chunks|] == chunks;
      ok := SendDataChunks(link, 0, ServerToClient, s2cBufFrom, s2cBuf);
      if !ok {
        ghost var k :| 0 <= k < |chunks| && link.sent == old(link.sent) + chunks[..k];
        assert replay[..k] == chunks[..k];
        Disconnect(link.conn);
        return;
      }
      assert link.sent == before + chunks;
      if s2cFin {
        var sent := link.Send(Fin(0, 0, ServerToClient, s2cNext));
        assert replay == chunks + [Stamp(Fin(0, 0, ServerToClient, s2cNext), id, epoch)];
        assert link.sent == if sent then before + replay else before + chunks;
        assert before + replay != before + chunks by {
          assert |before + replay| == |before + chunks| + 1;
        }
      }
    }

    /** `resume`. */
    method Resume(hello: Frame, expired: bool, conn: Conn, previous: Link) returns (link: Link?, ok: bool, io: Io)
      requires hello.Hello?
      requires active.Some? ==> previous.conn == active.value && previous.epoch == epoch && previous.session == id
      modifies this, previous`sent, previous`failures, previous`shut, target`shut, registry
      ensures Released() && HungUp(previous, link != null || (closed && !old(closed)))
      ensures ok ==> link != null
      ensures match M.Resume(old(State()), id, conn, hello, expired, io)
              case Refused => link == null && State() == old(State())
              case Expired(o) => link == null && State() == o.session
              case Resumed(s, accept, replay) =>
                && link != null && fresh(link) && link.conn == conn && link.session == id && link.epoch == s.epoch
                && State() == (if ok then s else M.Disconnect(s, conn))
                && (ok ==> if link.failures == 0 then link.sent == [accept] + replay
                           else s.s2cFin && link.sent == ([accept] + replay)[..|replay|] && link.failures == 1)
                && (!ok ==> link.failures == 1 && link.sent < [accept] + replay)
    {
      ok := false;
      link, io := Admit(hello, expired, conn, previous);
      if link != null {
        ok := SendReplay(link);
      }
    }

    /** `readTarget` got bytes: they join the buffer, and go out if a connection is active. */
    method TargetRead(p: seq<byte>, last: bool, link: Link) returns (ok: bool)
      requires active.Some? ==> link.conn == active.value && link.epoch == epoch && link.session == id
      modifies this, link`sent, link`failures
      ensures var o := M.TargetRead(old(State()), id, p, last);
              && State() == (if ok then o.session else M.Disconnect(o.session, link.conn))
              && link.sent == old(link.sent) + (if ok then o.sent else [])
              && link.failures == old(link.failures) + Failed(ok)
    {
      var offset := s2cNext;
      s2cNext := s2cNext + |p|;
      s2cBuf := s2cBuf + p;
      targetRead := targetRead + p;
      pump := if last then M.Draining else M.Waiting;
      ok := true;
      if active.Some? {
        ok := link.Send(Data(0, 0, ServerToClient, offset, p));
        if !ok {
          Disconnect(link.conn);
        }
      }
    }

    /** `readTarget` got an error or the end of the stream: the fin goes out if a
        connection is active, and the session ends at once. */
    method TargetEnd(link: Link) returns (finOk: bool, closeOk: bool)
      requires active.Some? ==> link.conn == active.value && link.epoch == epoch && link.session == id
      modifies this, link`sent, link`failures, link`shut, target`shut, registry
      ensures Released() && HungUp(link, closed && !old(closed))
      ensures var o := M.TargetEnd(old(State()), id);
              var p := M.CloseTerminal(o.session, id, closeOk);
              && State() == p.session && link.sent == old(link.sent) + (if finOk then o.sent else []) + p.sent
              && link.failures == old(link.failures) + Failed(finOk) + Failed(closeOk)
    {
      s2cFin := true;
      pump := M.Stopped;
      finOk := true;
      if active.Some? {
        finOk := link.Send(Fin(0, 0, ServerToClient, s2cNext));
      }
      closeOk := CloseTerminal(link);
    }
  }
}
