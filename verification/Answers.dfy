/** What either end does with one frame, and what the server does with a hello, field
    by field and frame by frame. */
module Answers {
  import opened Wire
  import opened Stream
  import M = ClientModel
  import S = ServerModel

  /** A frame that goes out if it can be sent. */
  function Sent1(f: Frame, ok: bool): seq<Frame> {
    if ok then [f] else []
  }

  // ---- the server ----

  /** What holds between a session and the connection object it reads from. */
  ghost predicate Reads(s: S.Session, sid: Sid, c: Conn, epoch: nat) {
    sid != 0 && s.epoch >= 1 && epoch >= 1 && (s.active == Some(c) ==> epoch == s.epoch)
  }

  /** Pings are always answered; pongs, errors and hellos, and whatever comes from a
      connection that is not active or does not carry session and epoch, do nothing. */
  lemma ServerIgnores(s: S.Session, sid: Sid, c: Conn, epoch: nat, f: Frame, io: Io)
    requires Reads(s, sid, c, epoch)
    ensures var o := S.Receive(s, sid, c, epoch, f, io);
            && (f.Ping? ==> o.session == s && o.sent == Sent1(Pong(f.nonce), io.sendOk))
            && (f.Pong? || f.Error? || f.Hello? ==> o.session == s && o.sent == [])
            && (!f.Ping? && (s.closed || s.active != Some(c)) ==> o.session == s && o.sent == [])
            && (f.Data? || f.Ack? || f.Fin? || f.Close? || f.Accept? ==>
                  f.session != sid || f.epoch != s.epoch ==> o.session == s && o.sent == [])
  {
  }

  lemma ServerTakesData(s: S.Session, sid: Sid, c: Conn, epoch: nat, f: Frame, io: Io)
    requires Reads(s, sid, c, epoch) && !s.closed && s.active == Some(c)
    requires f.Data? && f.session == sid && f.epoch == s.epoch
    ensures var o := S.Receive(s, sid, c, epoch, f, io);
            var gone := s.(active := None, disconnected := true);
            var end := f.offset + |f.payload|;
            && (f.dir != ClientToServer || f.offset > s.rx || (f.offset < s.rx && end > s.rx) ==>
                  o.session == gone && o.sent == Sent1(Error, io.sendOk))
            && (f.dir == ClientToServer && f.offset < s.rx && end <= s.rx ==>
                  if io.sendOk then o.session == s && o.sent == [Ack(sid, epoch, ClientToServer, s.rx)]
                  else o.session == gone && o.sent == Sent1(Error, io.tailOk))
            && (f.dir == ClientToServer && f.offset == s.rx ==>
                  var n := if io.writeErr && io.written < |f.payload| then io.written else |f.payload|;
                  var t := s.(rx := s.rx + n, targetWritten := s.targetWritten + f.payload[..n]);
                  var ack := Sent1(Ack(sid, epoch, ClientToServer, s.rx + n), io.sendOk);
                  if io.writeErr then
                    o.session == t.(closed := true, active := None)
                    && o.sent == ack + Sent1(Close(sid, epoch), io.tailOk)
                  else o.session == t && o.sent == ack)
  {
  }

  lemma ServerTakesFin(s: S.Session, sid: Sid, c: Conn, epoch: nat, f: Frame, io: Io)
    requires Reads(s, sid, c, epoch) && !s.closed && s.active == Some(c)
    requires f.Fin? && f.session == sid && f.epoch == s.epoch
    ensures var o := S.Receive(s, sid, c, epoch, f, io);
            var late := f.offset < s.rx || (f.offset == s.rx && s.c2sFin);
            var t := if late then s else s.(c2sFin := true, halfCloses := s.halfCloses + 1);
            if f.dir != ClientToServer || f.offset > s.rx then
              o.session == s.(active := None, disconnected := true) && o.sent == Sent1(Error, io.sendOk)
            else if io.sendOk then o.session == t && o.sent == [Ack(sid, epoch, ClientToServer, s.rx)]
            else o.session == t.(active := None, disconnected := true) && o.sent == Sent1(Error, io.tailOk)
  {
  }

  lemma ServerTakesRest(s: S.Session, sid: Sid, c: Conn, epoch: nat, f: Frame, io: Io)
    requires Reads(s, sid, c, epoch) && !s.closed && s.active == Some(c) && Tracks(s.snd, s.targetRead)
    requires (f.Ack? || f.Close? || f.Accept?) && f.session == sid && f.epoch == s.epoch
    ensures var o := S.Receive(s, sid, c, epoch, f, io);
            && (f.Close? ==>
                  o.session == s.(closed := true, active := None) && o.sent == Sent1(Close(sid, epoch), io.sendOk))
            && (f.Accept? || (f.Ack? && (f.dir != ServerToClient || f.received > |s.targetRead|)) ==>
                  o.session == s.(active := None, disconnected := true) && o.sent == Sent1(Error, io.sendOk))
            && (f.Ack? && f.dir == ServerToClient && f.received <= |s.targetRead| ==>
                  o.session == s.(snd := Trimmed(s.snd, s.targetRead, f.received)) && o.sent == [])
  {
    if f.Ack? && f.received <= |s.targetRead| {
      AdvanceTrims(s.snd, s.targetRead, f.received);
    }
  }

  /** The sender of a stream after an ack of its first `offset` bytes. */
  function Trimmed(s: Sender, stream: seq<byte>, offset: nat): Sender
    requires offset <= |stream|
  {
    if offset < s.ack then s else Sender(|stream|, offset, stream[offset..], offset)
  }

  lemma AdvanceTrims(s: Sender, stream: seq<byte>, offset: nat)
    requires Tracks(s, stream) && offset <= |stream|
    ensures Advance(s, offset) == Moved(Trimmed(s, stream, offset))
  {
    AdvanceTracks(s, stream, offset);
  }

  /** A resume: refused, at the end of its time, or the next epoch with what the
      client has not got yet behind the accept. */
  lemma ServerResumes(s: S.Session, sid: Sid, c: Conn, hello: Frame, expired: bool, io: Io)
    requires hello.Hello? && sid != 0 && Tracks(s.snd, s.targetRead)
    ensures var r := S.Resume(s, sid, c, hello, expired, io);
            var ends := !s.closed && s.disconnected && expired;
            var fits := !s.closed && !ends && hello.c2sRx <= s.rx && hello.s2cRx <= |s.targetRead|;
            && (!ends && !fits ==> r == S.Refused)
            && (ends ==> r.Expired? && r.out.session == s.(closed := true, active := None))
            && (fits ==>
                  var at := if hello.s2cRx < s.snd.ack then s.snd.ack else hello.s2cRx;
                  && r.Resumed? && r.accept == Accept(sid, s.epoch + 1, s.rx, at)
                  && r.session == s.(snd := Trimmed(s.snd, s.targetRead, hello.s2cRx), epoch := s.epoch + 1,
                                     active := Some(c), disconnected := false)
                  && r.replay == Chunks(sid, s.epoch + 1, ServerToClient, at, s.targetRead[at..])
                                 + if s.s2cFin then [Fin(sid, s.epoch + 1, ServerToClient, |s.targetRead|)] else [])
  {
    if hello.s2cRx <= |s.targetRead| {
      AdvanceTrims(s.snd, s.targetRead, hello.s2cRx);
    } else {
      AdvanceTracks(s.snd, s.targetRead, hello.s2cRx);
    }
  }

  // ---- the client ----

  /** Pings are always answered; pongs do nothing; and neither does what comes from
      another connection, carries another epoch, or names another session. */
  lemma ClientIgnores(cl: M.Client, c: Conn, epoch: nat, f: Frame, io: Io)
    requires cl.epoch >= 1
    ensures var o := M.Receive(cl, c, epoch, f, io);
            && (f.Ping? ==> o.client == cl && o.sent == Sent1(Pong(f.nonce), io.sendOk))
            && (f.Pong? || f.Error? || f.Hello? ==> o.client == cl && o.sent == [])
            && (!f.Ping? && cl.active != Some(c) ==> o.client == cl && o.sent == [])
            && (f.Data? || f.Ack? || f.Fin? || f.Close? || f.Accept? ==>
                  f.epoch != cl.epoch || (f.session != 0 && f.session != cl.session) ==> o.client == cl && o.sent == [])
  {
  }

  /** A frame the client takes: on its connection, of its epoch and session. */
  ghost predicate ForClient(cl: M.Client, c: Conn, f: Frame) {
    && cl.epoch >= 1 && cl.active == Some(c) && !cl.finished
    && (f.Data? || f.Ack? || f.Fin? || f.Close? || f.Accept?) && f.epoch == cl.epoch
    && (f.session == 0 || f.session == cl.session)
  }

  lemma ClientTakesData(cl: M.Client, c: Conn, epoch: nat, f: Frame, io: Io)
    requires ForClient(cl, c, f) && f.Data? && epoch >= 1
    ensures var o := M.Receive(cl, c, epoch, f, io);
            var ended := cl.(active := None, finished := true);
            var end := f.offset + |f.payload|;
            && (f.dir != ServerToClient || f.offset > cl.rx || (f.offset < cl.rx && end > cl.rx) ==>
                  o.client == ended && o.sent == Sent1(Error, io.sendOk))
            && (f.dir == ServerToClient && f.offset < cl.rx && end <= cl.rx ==>
                  if io.sendOk then o.client == cl && o.sent == [Ack(cl.session, epoch, ServerToClient, cl.rx)]
                  else o.client == ended && o.sent == Sent1(Error, io.tailOk))
            && (f.dir == ServerToClient && f.offset == cl.rx ==>
                  var n := if io.writeErr && io.written < |f.payload| then io.written else |f.payload|;
                  var t := cl.(rx := cl.rx + n, stdout := cl.stdout + f.payload[..n]);
                  var ack := Sent1(Ack(cl.session, epoch, ServerToClient, cl.rx + n), io.sendOk);
                  if io.writeErr then
                    o.client == t.(active := None, finished := true) && o.sent == ack + Sent1(Error, io.tailOk)
                  else o.client == t && o.sent == ack)
  {
  }

  lemma ClientTakesRest(cl: M.Client, c: Conn, epoch: nat, f: Frame, io: Io)
    requires ForClient(cl, c, f) && !f.Data? && epoch >= 1 && Tracks(cl.snd, cl.stdin)
    ensures var o := M.Receive(cl, c, epoch, f, io);
            var ended := cl.(active := None, finished := true);
            && (f.Close? || f.Accept? ==> o.client == ended && o.sent == [])
            && (f.Fin? ==>
                  if f.dir == ServerToClient && f.offset == cl.rx then
                    o.client == cl.(stdoutClosed := true)
                    && o.sent == Sent1(Ack(cl.session, epoch, ServerToClient, cl.rx), io.sendOk)
                  else o.client == ended && o.sent == [])
            && (f.Ack? ==>
                  if f.dir == ClientToServer && f.received <= |cl.stdin| then
                    o.client == cl.(snd := Trimmed(cl.snd, cl.stdin, f.received)) && o.sent == []
                  else o.client == ended && o.sent == [])
  {
    if f.Ack? {
      if f.received <= |cl.stdin| {
        AdvanceTrims(cl.snd, cl.stdin, f.received);
      } else {
        AdvanceTracks(cl.snd, cl.stdin, f.received);
      }
    }
  }

  /** When an accept is taken, and what it changes. */
  lemma ClientCommits(cl: M.Client, c: Conn, resume: bool, accept: Frame)
    requires accept.Accept? && Tracks(cl.snd, cl.stdin)
    ensures var fits := !cl.finished && (resume ==> accept.session == cl.session) && accept.c2sRx <= |cl.stdin|;
            M.Commit(cl, c, resume, accept)
            == if !fits then None
               else Some(cl.(snd := Trimmed(cl.snd, cl.stdin, accept.c2sRx), active := Some(c),
                             session := accept.session, epoch := accept.epoch))
  {
    if accept.c2sRx <= |cl.stdin| {
      AdvanceTrims(cl.snd, cl.stdin, accept.c2sRx);
    }
  }
}
