/** Every step of the server keeps the global invariant. */
module NetServerSteps {
  import opened Wire
  import opened Stream
  import opened ClientModel
  import S = ServerModel
  import opened Net
  import opened NetInvariant

  // ---- what each server step changes ----

  function Moved(n: Net, sid: Sid, s': S.Session, down: Sent): Net {
    n.(sessions := n.sessions[sid := s'], down := n.down + Packets(down))
  }

  lemma ReceiveShape(n: Net, c: Conn, f: Frame, io: Io)
    requires Enabled(n, ServerReceive(c, f, io))
    ensures var l := n.links[c];
            var o := S.Receive(n.sessions[l.session], l.session, c, l.epoch, f, io);
            Exec(n, ServerReceive(c, f, io)) == Moved(n, l.session, o.session, Sent(c, o.sent))
  {
    assert Packets(NOTHING) == {};
  }

  lemma DisconnectShape(n: Net, c: Conn)
    requires Enabled(n, ServerDisconnect(c))
    ensures var sid := n.links[c].session;
            Exec(n, ServerDisconnect(c)) == Moved(n, sid, S.Disconnect(n.sessions[sid], c), NOTHING)
  {
    assert Packets(NOTHING) == {};
  }

  lemma CloseShape(n: Net, sid: Sid, io: Io)
    requires Enabled(n, ServerClose(sid, io))
    ensures var s := n.sessions[sid];
            var o := S.CloseTerminal(s, sid, io.sendOk);
            Exec(n, ServerClose(sid, io)) == Moved(n, sid, o.session, Sent(ActiveOf(s), o.sent))
  {
    assert Packets(NOTHING) == {};
  }

  lemma ReadyShape(n: Net, sid: Sid)
    requires Enabled(n, TargetReady(sid))
    ensures Exec(n, TargetReady(sid)) == Moved(n, sid, n.sessions[sid].(pump := S.Reading), NOTHING)
  {
    assert Packets(NOTHING) == {};
  }

  lemma ReadShape(n: Net, sid: Sid, p: seq<byte>, end: bool)
    requires Enabled(n, TargetRead(sid, p, end))
    ensures var s := n.sessions[sid];
            var o := S.TargetRead(s, sid, p, end);
            Exec(n, TargetRead(sid, p, end)) == Moved(n, sid, o.session, Sent(ActiveOf(s), o.sent))
  {
    assert Packets(NOTHING) == {};
  }

  lemma EndShape(n: Net, sid: Sid)
    requires Enabled(n, TargetEnd(sid))
    ensures var s := n.sessions[sid];
            var o := S.TargetEnd(s, sid);
            Exec(n, TargetEnd(sid)) == Moved(n, sid, o.session, Sent(ActiveOf(s), o.sent))
  {
    assert Packets(NOTHING) == {};
  }

  /** The four outcomes of a hello. */
  lemma HelloShape(n: Net, c: Conn, f: Frame, newSid: Sid, ok: bool, io: Io)
    requires Enabled(n, ServerHello(c, f, newSid, ok, io))
    ensures var n' := Exec(n, ServerHello(c, f, newSid, ok, io));
            var refusal := Sent(c, S.Reply(Error, 0, 0, io.sendOk));
            if !f.resume then
              n' == if ok then BoundTo(n, c, newSid, S.Fresh1(c), Sent(c, [Accept(newSid, 1, 0, 0)]))
                  else Turned(n, c, refusal)
            else if f.session == 0 || f.session !in n.sessions then n' == Turned(n, c, refusal)
            else
              match S.Resume(n.sessions[f.session], f.session, c, f, !ok, io)
              case Refused => n' == Turned(n, c, refusal)
              case Expired(o) => n' == Turned(Moved(n, f.session, o.session, NOTHING), c, refusal)
              case Resumed(s, accept, replay) => n' == BoundTo(n, c, f.session, s, Sent(c, [accept] + replay))
  {
    assert Packets(NOTHING) == {};
  }

  function Turned(n: Net, c: Conn, down: Sent): Net {
    n.(links := n.links[c := Refused], down := n.down + Packets(down))
  }

  function BoundTo(n: Net, c: Conn, sid: Sid, s: S.Session, down: Sent): Net {
    n.(sessions := n.sessions[sid := s], links := n.links[c := Bound(sid, s.epoch)], down := n.down + Packets(down))
  }

  // ---- steps of a session that is already bound ----

  /** What a step of one session has to show, in terms of that session alone. */
  ghost predicate SessionMove(c: Client, own: bool, s: S.Session, s': S.Session, limit: nat) {
    && SessionOK(s')
    && SessionGrows(s, s')
    && s'.epoch == s.epoch
    && (s'.active.None? || s'.active == s.active)
    && (if own then Agree(c, s') else Orphan(s'))
    && (s'.rx == s.rx || (own && s.epoch <= c.epoch))
    && PumpOK(s', limit)
  }

  lemma MoveKeepsFrozen(c: Client, ss: map<Sid, S.Session>, links: map<Conn, Link>, used: set<Conn>, down: set<Packet>,
                        sid: Sid, s': S.Session, sent: Sent)
    requires FrozenOK(c, ss, down) && DownOK(ss, links, down) && LinksOK(links, ss, used)
    requires sid in ss && (s'.rx == ss[sid].rx || (sid == c.session && ss[sid].epoch <= c.epoch))
    requires forall f | f in sent.frames :: !f.Accept?
    ensures FrozenOK(c, ss[sid := s'], down + Packets(sent))
  {
    forall p | p in down + Packets(sent) && p.frame.Accept? && p.frame.session == c.session && p.frame.epoch > c.epoch
      ensures p.frame.session in ss && p.frame.c2sRx == ss[sid := s'][p.frame.session].rx
    {
      assert p in down && GoodDown(ss, links, p) && LinkOK(links[p.conn], ss);
    }
  }

  lemma MoveKeepsLinks(links: map<Conn, Link>, ss: map<Sid, S.Session>, used: set<Conn>, sid: Sid, s': S.Session)
    requires LinksOK(links, ss, used) && sid in ss
    requires s'.epoch == ss[sid].epoch && (s'.active.None? || s'.active == ss[sid].active)
    ensures LinksOK(links, ss[sid := s'], used)
  {
    forall c | c in links ensures c in used && LinkOK(links[c], ss[sid := s']) {
      assert LinkOK(links[c], ss);
    }
  }

  lemma MoveKeepsTable(c: Client, ss: map<Sid, S.Session>, limit: nat, sid: Sid, s': S.Session)
    requires SessionsOK(c, ss) && PumpsOK(ss, limit) && sid in ss
             && SessionMove(c, sid == c.session, ss[sid], s', limit)
    ensures SessionsOK(c, ss[sid := s']) && PumpsOK(ss[sid := s'], limit)
  {
  }

  lemma SessionMoveKeepsInv(n: Net, sid: Sid, s': S.Session, down: Sent, n': Net)
    requires Inv(n) && sid in n.sessions
             && SessionMove(n.client, sid == n.client.session, n.sessions[sid], s', n.serverLimit)
    requires n' == Moved(n, sid, s', down)
    requires forall f | f in down.frames :: !f.Accept? && GoodDown(n'.sessions, n.links, Packet(down.conn, f))
    ensures Inv(n')
  {
    MoveKeepsFrozen(n.client, n.sessions, n.links, n.used, n.down, sid, s', down);
    MoveKeepsLinks(n.links, n.sessions, n.used, sid, s');
    MoveKeepsTable(n.client, n.sessions, n.serverLimit, sid, s');
    DownGrows(n.sessions, n.links, n.down, n'.sessions, n.links, down);
  }

  /** A frame that passes the server's filter was sent by the client on the
      connection and in the epoch that both ends currently hold. */
  lemma PassedFilter(n: Net, c: Conn, f: Frame)
    requires Inv(n) && c in n.links && n.links[c].Bound? && Packet(c, f) in n.up
    requires n.links[c].session in n.sessions
    requires S.IsActive(n.sessions[n.links[c].session], n.links[c].session, c, f)
    requires f.Data? || f.Ack? || f.Fin?
    ensures n.links[c].session == n.client.session && c in n.conns
    ensures n.conns[c] == n.client.epoch == n.sessions[n.client.session].epoch == n.links[c].epoch
    ensures GoodUp(n.client, n.conns, n.used, Packet(c, f))
  {
    assert GoodUp(n.client, n.conns, n.used, Packet(c, f));
    assert LinkOK(n.links[c], n.sessions);
  }

  /** A data frame that is not fresh, or goes the wrong way. */
  lemma UnwrittenOutcome(s: S.Session, sid: Sid, c: Conn, epoch: nat, f: Frame, io: Io)
    requires f.Data? && (f.dir != ClientToServer || !Judge(s.rx, f.offset, |f.payload|).Fresh?)
    ensures var s' := S.HandleData(s, sid, c, epoch, f, io).session; s' == s || s' == S.Disconnect(s, c)
  {
  }

  function Written(s: S.Session, f: Frame, io: Io): S.Session
    requires f.Data?
  {
    s.(rx := s.rx + Wrote(io, f.payload), targetWritten := s.targetWritten + f.payload[..Wrote(io, f.payload)])
  }

  lemma FreshOutcome(s: S.Session, sid: Sid, c: Conn, epoch: nat, f: Frame, io: Io)
    requires f.Data? && f.dir == ClientToServer && Judge(s.rx, f.offset, |f.payload|).Fresh?
    ensures var s' := S.HandleData(s, sid, c, epoch, f, io).session;
            s' == Written(s, f, io) || s' == S.CloseTerminal(Written(s, f, io), sid, io.tailOk).session
  {
  }

  /** The outcomes of a data frame: nothing written, or the payload written as far
      as the target took it; and then perhaps the connection or the session is over. */
  lemma DataOutcome(s: S.Session, sid: Sid, c: Conn, epoch: nat, f: Frame, io: Io)
    requires f.Data?
    ensures var s' := S.HandleData(s, sid, c, epoch, f, io).session;
            || s' == s || s' == S.Disconnect(s, c)
            || (f.dir == ClientToServer && Judge(s.rx, f.offset, |f.payload|).Fresh?
                && (s' == Written(s, f, io) || s' == S.CloseTerminal(Written(s, f, io), sid, io.tailOk).session))
  {
    if f.dir == ClientToServer && Judge(s.rx, f.offset, |f.payload|).Fresh? {
      FreshOutcome(s, sid, c, epoch, f, io);
    } else {
      UnwrittenOutcome(s, sid, c, epoch, f, io);
    }
  }

  lemma MovesCompose(cl: Client, own: bool, a: S.Session, b: S.Session, c: S.Session, limit: nat)
    requires SessionMove(cl, own, a, b, limit) && SessionMove(cl, own, b, c, limit)
    ensures SessionMove(cl, own, a, c, limit)
  {
  }

  lemma WrittenMove(cl: Client, limit: nat, s: S.Session, f: Frame, io: Io)
    requires f.Data? && f.offset == s.rx && Piece(cl.stdin, f.offset, f.payload)
    requires SessionOK(s) && Agree(cl, s) && s.epoch == cl.epoch && PumpOK(s, limit)
    requires s.c2sFin ==> f.payload == []
    ensures SessionMove(cl, true, s, Written(s, f, io), limit)
  {
    FreshKeepsPrefix(cl.stdin, s.targetWritten, f.payload, Wrote(io, f.payload));
  }

  lemma DataMove(cl: Client, conns: map<Conn, nat>, used: set<Conn>, limit: nat, s: S.Session, sid: Sid, c: Conn,
                 epoch: nat, f: Frame, io: Io)
    requires f.Data? && GoodUp(cl, conns, used, Packet(c, f))
    requires SessionOK(s) && Agree(cl, s) && s.epoch == cl.epoch && PumpOK(s, limit)
    ensures SessionMove(cl, true, s, S.HandleData(s, sid, c, epoch, f, io).session, limit)
  {
    if Judge(s.rx, f.offset, |f.payload|).Fresh? {
      FreshOutcome(s, sid, c, epoch, f, io);
      WrittenMove(cl, limit, s, f, io);
      LossMove(cl, true, Written(s, f, io), sid, c, io.(sendOk := io.tailOk), limit);
      MovesCompose(cl, true, s, Written(s, f, io), S.CloseTerminal(Written(s, f, io), sid, io.tailOk).session, limit);
    } else {
      UnwrittenOutcome(s, sid, c, epoch, f, io);
      LossMove(cl, true, s, sid, c, io, limit);
    }
  }

  /** Against this client the server never refuses an ack. */
  lemma AckMove(cl: Client, conns: map<Conn, nat>, used: set<Conn>, limit: nat, s: S.Session, c: Conn, f: Frame)
    requires f.Ack? && GoodUp(cl, conns, used, Packet(c, f))
    requires SessionOK(s) && ClientOK(cl) && Agree(cl, s) && PumpOK(s, limit)
    ensures f.dir == ServerToClient && Advance(s.snd, f.received).Moved?
    ensures SessionMove(cl, true, s, s.(snd := Advance(s.snd, f.received).sender), limit)
  {
    AdvanceTracks(s.snd, s.targetRead, f.received);
  }

  lemma ReceiveMoveOwn(cl: Client, conns: map<Conn, nat>, used: set<Conn>, limit: nat, s: S.Session, sid: Sid, c: Conn,
                       epoch: nat, f: Frame, io: Io)
    requires (f.Data? || f.Ack? || f.Fin?) && GoodUp(cl, conns, used, Packet(c, f))
    requires SessionOK(s) && ClientOK(cl) && Agree(cl, s) && s.epoch == cl.epoch && PumpOK(s, limit)
    requires S.IsActive(s, sid, c, f)
    ensures SessionMove(cl, true, s, S.Receive(s, sid, c, epoch, f, io).session, limit)
  {
    if f.Data? {
      DataMove(cl, conns, used, limit, s, sid, c, epoch, f, io);
    } else if f.Ack? {
      AckMove(cl, conns, used, limit, s, c, f);
    }
  }

  lemma ReceiveMoveOther(cl: Client, own: bool, limit: nat, s: S.Session, sid: Sid, c: Conn, epoch: nat, f: Frame,
                         io: Io)
    requires SessionOK(s) && (if own then Agree(cl, s) else Orphan(s)) && PumpOK(s, limit)
    requires !S.IsActive(s, sid, c, f) || !(f.Data? || f.Ack? || f.Fin?)
    ensures SessionMove(cl, own, s, S.Receive(s, sid, c, epoch, f, io).session, limit)
  {
  }

  lemma ReceiveMove(n: Net, c: Conn, f: Frame, io: Io)
    requires Inv(n) && Enabled(n, ServerReceive(c, f, io))
    ensures var l := n.links[c];
            SessionMove(n.client, l.session == n.client.session, n.sessions[l.session],
                        S.Receive(n.sessions[l.session], l.session, c, l.epoch, f, io).session, n.serverLimit)
  {
    var l := n.links[c];
    var s := n.sessions[l.session];
    if S.IsActive(s, l.session, c, f) && (f.Data? || f.Ack? || f.Fin?) {
      PassedFilter(n, c, f);
      ReceiveMoveOwn(n.client, n.conns, n.used, n.serverLimit, s, l.session, c, l.epoch, f, io);
    } else {
      ReceiveMoveOther(n.client, l.session == n.client.session, n.serverLimit, s, l.session, c, l.epoch, f, io);
    }
  }

  /** Every reply of the server is an error, a pong, a close, or an ack of
      exactly what has been written by then. */
  lemma ReceiveReplies(s: S.Session, sid: Sid, c: Conn, epoch: nat, f: Frame, io: Io, g: Frame)
    requires g in S.Receive(s, sid, c, epoch, f, io).sent
    requires s.active == Some(c) ==> epoch == s.epoch
    requires sid != 0 && epoch != 0
    ensures g.Error? || (f.Ping? && g == Pong(f.nonce)) || g == Close(sid, epoch)
            || g == Ack(sid, epoch, ClientToServer, S.Receive(s, sid, c, epoch, f, io).session.rx)
  {
    if S.IsActive(s, sid, c, f) {
      if f.Data? {
        DataReplies(s, sid, c, epoch, f, io, g);
      } else if f.Fin? {
        FinReplies(s, sid, c, epoch, f, io, g);
      }
    }
  }

  lemma DataReplies(s: S.Session, sid: Sid, c: Conn, epoch: nat, f: Frame, io: Io, g: Frame)
    requires f.Data? && g in S.HandleData(s, sid, c, epoch, f, io).sent
    requires s.active == Some(c) && epoch == s.epoch && sid != 0 && epoch != 0
    ensures g.Error? || g == Close(sid, epoch)
            || g == Ack(sid, epoch, ClientToServer, S.HandleData(s, sid, c, epoch, f, io).session.rx)
  {
    if f.dir == ClientToServer && Judge(s.rx, f.offset, |f.payload|).Fresh? {
      FreshReplies(s, sid, c, epoch, f, io, g);
    }
  }

  lemma FreshReplies(s: S.Session, sid: Sid, c: Conn, epoch: nat, f: Frame, io: Io, g: Frame)
    requires f.Data? && f.dir == ClientToServer && Judge(s.rx, f.offset, |f.payload|).Fresh?
    requires g in S.HandleData(s, sid, c, epoch, f, io).sent
    requires s.active == Some(c) && epoch == s.epoch && sid != 0 && epoch != 0
    ensures g == Close(sid, epoch)
            || g == Ack(sid, epoch, ClientToServer, S.HandleData(s, sid, c, epoch, f, io).session.rx)
  {
  }

  lemma FinReplies(s: S.Session, sid: Sid, c: Conn, epoch: nat, f: Frame, io: Io, g: Frame)
    requires f.Fin? && g in S.HandleFin(s, sid, c, epoch, f, io).sent && sid != 0 && epoch != 0
    ensures g.Error? || g == Ack(sid, epoch, ClientToServer, S.HandleFin(s, sid, c, epoch, f, io).session.rx)
  {
  }

  lemma ReceiveRepliesGood(s: S.Session, sid: Sid, c: Conn, epoch: nat, f: Frame, io: Io, ss: map<Sid, S.Session>,
                           links: map<Conn, Link>)
    requires s.active == Some(c) ==> epoch == s.epoch
    requires sid != 0 && epoch != 0 && c in links && links[c] == Bound(sid, epoch)
    requires sid in ss && ss[sid] == S.Receive(s, sid, c, epoch, f, io).session
    ensures forall g | g in S.Receive(s, sid, c, epoch, f, io).sent :: !g.Accept? && GoodDown(ss, links, Packet(c, g))
  {
    forall g | g in S.Receive(s, sid, c, epoch, f, io).sent
      ensures !g.Accept? && GoodDown(ss, links, Packet(c, g))
    {
      ReceiveReplies(s, sid, c, epoch, f, io, g);
    }
  }

  lemma ServerReceiveKeepsInv(n: Net, c: Conn, f: Frame, io: Io, o: S.Out)
    requires Inv(n) && Enabled(n, ServerReceive(c, f, io))
    requires o == S.Receive(n.sessions[n.links[c].session], n.links[c].session, c, n.links[c].epoch, f, io)
    ensures Inv(Moved(n, n.links[c].session, o.session, Sent(c, o.sent)))
  {
    var l := n.links[c];
    ReceiveMove(n, c, f, io);
    assert LinkOK(l, n.sessions);
    ReceiveRepliesGood(n.sessions[l.session], l.session, c, l.epoch, f, io, n.sessions[l.session := o.session],
                       n.links);
    SessionMoveKeepsInv(n, l.session, o.session, Sent(c, o.sent), Moved(n, l.session, o.session, Sent(c, o.sent)));
  }

  /** Losing or closing a connection moves no byte. */
  lemma LossMove(cl: Client, own: bool, s: S.Session, sid: Sid, c: Conn, io: Io, limit: nat)
    requires SessionOK(s) && (if own then Agree(cl, s) else Orphan(s)) && PumpOK(s, limit)
    ensures SessionMove(cl, own, s, S.Disconnect(s, c), limit)
    ensures SessionMove(cl, own, s, S.CloseTerminal(s, sid, io.sendOk).session, limit)
  {
  }

  lemma PumpMove(cl: Client, own: bool, s: S.Session, sid: Sid, limit: nat)
    requires SessionOK(s) && (if own then Agree(cl, s) else Orphan(s)) && PumpOK(s, limit)
    ensures s.pump.Waiting? && |s.snd.buf| < limit ==> SessionMove(cl, own, s, s.(pump := S.Reading), limit)
    ensures s.pump.Reading? || s.pump.Draining? ==> SessionMove(cl, own, s, S.TargetEnd(s, sid).session, limit)
  {
  }

  lemma ServerDisconnectKeepsInv(n: Net, c: Conn, sid: Sid)
    requires Inv(n) && sid in n.sessions
    ensures Inv(Moved(n, sid, S.Disconnect(n.sessions[sid], c), NOTHING))
  {
    var s := n.sessions[sid];
    LossMove(n.client, sid == n.client.session, s, sid, c, FINE, n.serverLimit);
    SessionMoveKeepsInv(n, sid, S.Disconnect(s, c), NOTHING, Moved(n, sid, S.Disconnect(s, c), NOTHING));
  }

  /** A session moves and puts frames on the connection that is active. */
  lemma ActiveMoveKeepsInv(n: Net, sid: Sid, s': S.Session, frames: seq<Frame>, n': Net)
    requires Inv(n) && sid in n.sessions
             && SessionMove(n.client, sid == n.client.session, n.sessions[sid], s', n.serverLimit)
    requires n' == Moved(n, sid, s', Sent(ActiveOf(n.sessions[sid]), frames))
    requires frames != [] ==> n.sessions[sid].active.Some?
    requires forall g | g in frames :: OwnFrame(sid, s', g)
    ensures Inv(n')
  {
    var s := n.sessions[sid];
    if frames != [] {
      ActiveFramesGood(n.links, n.sessions, n.used, sid, s', frames);
    }
    SessionMoveKeepsInv(n, sid, s', Sent(ActiveOf(s), frames), n');
  }

  ghost predicate OwnFrame(sid: Sid, s: S.Session, g: Frame) {
    || g == Close(sid, s.epoch)
    || (g.Data? && g == Data(sid, s.epoch, ServerToClient, g.offset, g.payload)
        && Piece(s.targetRead, g.offset, g.payload))
    || (g == Fin(sid, s.epoch, ServerToClient, |s.targetRead|) && s.s2cFin)
  }

  lemma ActiveFramesGood(links: map<Conn, Link>, ss: map<Sid, S.Session>, used: set<Conn>, sid: Sid, s': S.Session,
                         frames: seq<Frame>)
    requires LinksOK(links, ss, used) && sid in ss && ss[sid].active.Some? && s'.epoch == ss[sid].epoch
    requires forall g | g in frames :: OwnFrame(sid, s', g)
    ensures forall g | g in frames :: !g.Accept? && GoodDown(ss[sid := s'], links, Packet(ActiveOf(ss[sid]), g))
  {
  }

  lemma ServerCloseKeepsInv(n: Net, sid: Sid, io: Io)
    requires Inv(n) && sid in n.sessions
    ensures var o := S.CloseTerminal(n.sessions[sid], sid, io.sendOk);
            Inv(Moved(n, sid, o.session, Sent(ActiveOf(n.sessions[sid]), o.sent)))
  {
    var s := n.sessions[sid];
    var o := S.CloseTerminal(s, sid, io.sendOk);
    LossMove(n.client, sid == n.client.session, s, sid, 0, io, n.serverLimit);
    CloseFrames(s, sid, io);
    ActiveMoveKeepsInv(n, sid, o.session, o.sent, Moved(n, sid, o.session, Sent(ActiveOf(s), o.sent)));
  }

  lemma CloseFrames(s: S.Session, sid: Sid, io: Io)
    requires sid != 0 && s.epoch != 0
    ensures var o := S.CloseTerminal(s, sid, io.sendOk);
            (o.sent != [] ==> s.active.Some?) && forall g | g in o.sent :: OwnFrame(sid, o.session, g)
  {
  }

  lemma SilentCloseKeepsInv(n: Net, sid: Sid, io: Io)
    requires Inv(n) && sid in n.sessions
    ensures Inv(Moved(n, sid, S.CloseTerminal(n.sessions[sid], sid, io.sendOk).session, NOTHING))
  {
    var s := n.sessions[sid];
    var s' := S.CloseTerminal(s, sid, io.sendOk).session;
    LossMove(n.client, sid == n.client.session, s, sid, 0, io, n.serverLimit);
    SessionMoveKeepsInv(n, sid, s', NOTHING, Moved(n, sid, s', NOTHING));
  }

  lemma TargetReadyKeepsInv(n: Net, sid: Sid)
    requires Inv(n) && Enabled(n, TargetReady(sid))
    ensures Inv(Moved(n, sid, n.sessions[sid].(pump := S.Reading), NOTHING))
  {
    var s := n.sessions[sid];
    PumpMove(n.client, sid == n.client.session, s, sid, n.serverLimit);
    SessionMoveKeepsInv(n, sid, s.(pump := S.Reading), NOTHING, Moved(n, sid, s.(pump := S.Reading), NOTHING));
  }

  lemma TargetReadMove(cl: Client, own: bool, s: S.Session, sid: Sid, p: seq<byte>, end: bool, limit: nat)
    requires SessionOK(s) && (if own then Agree(cl, s) else Orphan(s))
    requires s.pump.Reading? && PumpOK(s, limit) && |p| <= DATA_CHUNK
    ensures SessionMove(cl, own, s, S.TargetRead(s, sid, p, end).session, limit)
    ensures sid != 0 ==> forall g | g in S.TargetRead(s, sid, p, end).sent ::
            OwnFrame(sid, S.TargetRead(s, sid, p, end).session, g)
  {
    PushTracks(s.snd, s.targetRead, p);
    assert (s.targetRead + p)[|s.targetRead|..|s.targetRead| + |p|] == p;
    assert Piece(s.targetRead + p, s.snd.next, p);
  }

  lemma TargetReadKeepsInv(n: Net, sid: Sid, p: seq<byte>, end: bool, o: S.Out)
    requires Inv(n) && Enabled(n, TargetRead(sid, p, end)) && o == S.TargetRead(n.sessions[sid], sid, p, end)
    ensures Inv(Moved(n, sid, o.session, Sent(ActiveOf(n.sessions[sid]), o.sent)))
  {
    var s := n.sessions[sid];
    TargetReadMove(n.client, sid == n.client.session, s, sid, p, end, n.serverLimit);
    ActiveMoveKeepsInv(n, sid, o.session, o.sent, Moved(n, sid, o.session, Sent(ActiveOf(s), o.sent)));
  }

  lemma TargetEndKeepsInv(n: Net, sid: Sid, o: S.Out)
    requires Inv(n) && Enabled(n, TargetEnd(sid)) && o == S.TargetEnd(n.sessions[sid], sid)
    ensures Inv(Moved(n, sid, o.session, Sent(ActiveOf(n.sessions[sid]), o.sent)))
  {
    var s := n.sessions[sid];
    PumpMove(n.client, sid == n.client.session, s, sid, n.serverLimit);
    EndFrames(s, sid);
    ActiveMoveKeepsInv(n, sid, o.session, o.sent, Moved(n, sid, o.session, Sent(ActiveOf(s), o.sent)));
  }

  lemma EndFrames(s: S.Session, sid: Sid)
    requires sid != 0 && SessionOK(s)
    ensures var o := S.TargetEnd(s, sid);
            (o.sent != [] ==> s.active.Some?) && forall g | g in o.sent :: OwnFrame(sid, o.session, g)
  {
  }

  // ---- hello ----

  lemma RefusedKeepsInv(n: Net, c: Conn, down: Sent, n': Net)
    requires Inv(n) && c !in n.links && c in n.used
    requires n' == Turned(n, c, down)
    requires forall f | f in down.frames :: f.Error? && down.conn == c
    ensures Inv(n')
  {
    DownGrows(n.sessions, n.links, n.down, n.sessions, n'.links, down);
    assert LinksOK(n'.links, n.sessions, n.used);
    assert FrozenOK(n.client, n.sessions, n'.down) by {
      assert forall p | p in n'.down && p.frame.Accept? :: p in n.down;
    }
  }

  /** A connection gets bound to a session whose epoch nobody else carries. */
  lemma BindKeepsLinks(links: map<Conn, Link>, ss: map<Sid, S.Session>, used: set<Conn>, c: Conn, sid: Sid,
                       s': S.Session)
    requires LinksOK(links, ss, used) && c !in links && c in used
    requires s'.epoch >= 1 && (sid in ss ==> s'.epoch == ss[sid].epoch + 1)
    requires s'.active == Some(c)
    ensures LinksOK(links[c := Bound(sid, s'.epoch)], ss[sid := s'], used)
  {
    forall d | d in links ensures d in used && LinkOK(links[d], ss[sid := s']) && links[d] != Bound(sid, s'.epoch) {
      assert LinkOK(links[d], ss);
    }
  }

  lemma BindKeepsFrozen(c: Client, ss: map<Sid, S.Session>, down: set<Packet>, links: map<Conn, Link>, sid: Sid,
                        s': S.Session, sent: Sent)
    requires FrozenOK(c, ss, down) && DownOK(ss, links, down)
    requires sid in ss ==> s'.rx == ss[sid].rx
    requires forall f | f in sent.frames && f.Accept? :: f.session == sid && f.c2sRx == s'.rx
    ensures FrozenOK(c, ss[sid := s'], down + Packets(sent))
  {
    forall p | p in down + Packets(sent) && p.frame.Accept? && p.frame.session == c.session && p.frame.epoch > c.epoch
      ensures p.frame.session in ss[sid := s'] && p.frame.c2sRx == ss[sid := s'][p.frame.session].rx
    {
      if p in down {
        assert GoodDown(ss, links, p);
      }
    }
  }

  lemma BindKeepsHand(h: Handshake, cl: Client, conns: map<Conn, nat>, links: map<Conn, Link>, ss: map<Sid, S.Session>,
                      used: set<Conn>, up: set<Packet>, c: Conn, sid: Sid, s': S.Session)
    requires HandOK(h, cl, conns, links, used, up)
    requires h.conn == c ==> if h.resume then sid == cl.session && s'.epoch > cl.epoch else s'.epoch == 1
    ensures HandOK(h, cl, conns, links[c := Bound(sid, s'.epoch)], used, up)
  {
  }

  lemma BindKeepsRest(cl: Client, conns: map<Conn, nat>, links: map<Conn, Link>, ss: map<Sid, S.Session>, limit: nat,
                      c: Conn, sid: Sid, s': S.Session)
    requires SessionsOK(cl, ss) && PumpsOK(ss, limit) && ConnsOK(cl, conns, links) && c !in links && sid != 0
    requires SessionOK(s') && PumpOK(s', limit)
    requires if sid == cl.session then Agree(cl, s') else Orphan(s')
    ensures SessionsOK(cl, ss[sid := s']) && PumpsOK(ss[sid := s'], limit)
    ensures ConnsOK(cl, conns, links[c := Bound(sid, s'.epoch)])
  {
  }

  /** Binding `c` to session `sid`, new or resumed. */
  lemma BindKeepsInv(n: Net, c: Conn, sid: Sid, s': S.Session, sent: Sent, n': Net)
    requires Inv(n) && c !in n.links && c in n.used && sid != 0
    requires n' == BoundTo(n, c, sid, s', sent)
    requires SessionOK(s') && PumpOK(s', n.serverLimit) && s'.active == Some(c)
    requires sid in n.sessions ==>
             SessionGrows(n.sessions[sid], s') && s'.epoch == n.sessions[sid].epoch + 1 && s'.rx == n.sessions[sid].rx
    requires if sid == n.client.session then sid in n.sessions && Agree(n.client, s') else Orphan(s')
    requires n.hand.Some? && n.hand.value.conn == c ==>
               if n.hand.value.resume then sid == n.client.session else s'.epoch == 1
    requires forall f | f in sent.frames ::
             GoodDown(n'.sessions, n'.links, Packet(sent.conn, f)) &&
             (f.Accept? ==> f.session == sid && f.c2sRx == s'.rx)
    ensures Inv(n')
  {
    BindKeepsLinks(n.links, n.sessions, n.used, c, sid, s');
    BindKeepsFrozen(n.client, n.sessions, n.down, n.links, sid, s', sent);
    DownGrows(n.sessions, n.links, n.down, n'.sessions, n'.links, sent);
    BindKeepsRest(n.client, n.conns, n.links, n.sessions, n.serverLimit, c, sid, s');
    if n.hand.Some? {
      BindKeepsHand(n.hand.value, n.client, n.conns, n.links, n.sessions, n.used, n.up, c, sid, s');
    }
  }

  lemma NewSessionKeepsInv(n: Net, c: Conn, f: Frame, newSid: Sid, ok: bool, io: Io)
    requires Inv(n) && Enabled(n, ServerHello(c, f, newSid, ok, io)) && !f.resume
    ensures Inv(BoundTo(n, c, newSid, S.Fresh1(c), Sent(c, [Accept(newSid, 1, 0, 0)])))
  {
    assert GoodUp(n.client, n.conns, n.used, Packet(c, f));
    var sent := Sent(c, [Accept(newSid, 1, 0, 0)]);
    BindKeepsInv(n, c, newSid, S.Fresh1(c), sent, BoundTo(n, c, newSid, S.Fresh1(c), sent));
  }

  /** A resume hello always finds its offsets inside what the server knows. */
  lemma ResumeAccepts(n: Net, c: Conn, f: Frame)
    requires Inv(n) && Packet(c, f) in n.up && f.Hello? && f.resume
    ensures f.session == n.client.session && f.session != 0 && f.session in n.sessions
    ensures f.c2sRx <= n.sessions[f.session].rx
    ensures Advance(n.sessions[f.session].snd, f.s2cRx).Moved?
    ensures var s := n.sessions[f.session];
            var b := Advance(s.snd, f.s2cRx).sender;
            && Tracks(b, s.targetRead) && |b.buf| <= |s.snd.buf|
            && b.ack == (if f.s2cRx < s.snd.ack then s.snd.ack else f.s2cRx) <= n.client.rx
  {
    assert GoodUp(n.client, n.conns, n.used, Packet(c, f));
    var s := n.sessions[f.session];
    AdvanceTracks(s.snd, s.targetRead, f.s2cRx);
  }

  lemma ReplayIsGood(s: S.Session, sid: Sid, ss: map<Sid, S.Session>, links: map<Conn, Link>, c: Conn)
    requires SessionOK(s) && sid in ss && ss[sid] == s && c in links && links[c] == Bound(sid, s.epoch)
    ensures forall g | g in S.Replay(s, sid, s.epoch) :: !g.Accept? && GoodDown(ss, links, Packet(c, g))
  {
    ChunksArePieces(sid, s.epoch, ServerToClient, s.snd.bufFrom, s.snd.buf, s.targetRead);
  }

  /** The session a resume hello leaves behind, and its accept frame. */
  lemma ResumedSession(cl: Client, s: S.Session, sid: Sid, c: Conn, f: Frame, expired: bool, io: Io, limit: nat)
    requires f.Hello? && SessionOK(s) && ClientOK(cl) && Agree(cl, s) && PumpOK(s, limit) && sid != 0
    requires f.c2sRx <= cl.snd.ack && f.s2cRx <= cl.rx && S.Resume(s, sid, c, f, expired, io).Resumed?
    ensures var r := S.Resume(s, sid, c, f, expired, io);
            var s' := r.session;
            && SessionOK(s') && PumpOK(s', limit) && s'.active == Some(c) && SessionGrows(s, s')
            && s'.epoch == s.epoch + 1 && s'.rx == s.rx && Agree(cl, s')
            && r.accept == Accept(sid, s'.epoch, s'.rx, s'.snd.ack) && r.replay == S.Replay(s', sid, s'.epoch)
  {
    AdvanceTracks(s.snd, s.targetRead, f.s2cRx);
  }

  lemma ResumeKeepsInv(n: Net, c: Conn, f: Frame, newSid: Sid, ok: bool, io: Io, r: S.Resumed)
    requires Inv(n) && Enabled(n, ServerHello(c, f, newSid, ok, io)) && f.resume
    requires f.session in n.sessions && r == S.Resume(n.sessions[f.session], f.session, c, f, !ok, io) && r.Resumed?
    ensures Inv(BoundTo(n, c, f.session, r.session, Sent(c, [r.accept] + r.replay)))
  {
    ResumeAccepts(n, c, f);
    assert GoodUp(n.client, n.conns, n.used, Packet(c, f));
    var sid, s' := f.session, r.session;
    ResumedSession(n.client, n.sessions[sid], sid, c, f, !ok, io, n.serverLimit);
    var sent := Sent(c, [r.accept] + r.replay);
    var n' := BoundTo(n, c, sid, s', sent);
    ReplayIsGood(s', sid, n'.sessions, n'.links, c);
    forall g | g in sent.frames
      ensures GoodDown(n'.sessions, n'.links, Packet(c, g)) && (g.Accept? ==> g == r.accept)
    {
      assert g == r.accept || g in r.replay;
    }
    BindKeepsInv(n, c, sid, s', sent, n');
  }

  lemma ExpiredHelloKeepsInv(n: Net, c: Conn, sid: Sid, io: Io, refusal: Sent)
    requires Inv(n) && sid in n.sessions && c !in n.links && c in n.used
    requires refusal == Sent(c, S.Reply(Error, 0, 0, io.sendOk))
    ensures Inv(Turned(Moved(n, sid, S.CloseTerminal(n.sessions[sid], sid, io.sendOk).session, NOTHING), c, refusal))
  {
    SilentCloseKeepsInv(n, sid, io);
    var mid := Moved(n, sid, S.CloseTerminal(n.sessions[sid], sid, io.sendOk).session, NOTHING);
    RefusedKeepsInv(mid, c, refusal, Turned(mid, c, refusal));
  }

  lemma ResumeHelloKeepsInv(n: Net, c: Conn, f: Frame, newSid: Sid, ok: bool, io: Io, r: S.Resumed)
    requires Inv(n) && Enabled(n, ServerHello(c, f, newSid, ok, io)) && f.resume
    requires f.session in n.sessions && r == S.Resume(n.sessions[f.session], f.session, c, f, !ok, io)
    ensures match r
            case Refused => Inv(Turned(n, c, Sent(c, S.Reply(Error, 0, 0, io.sendOk))))
            case Expired(o) => Inv(Turned(Moved(n, f.session, o.session, NOTHING), c,
                                          Sent(c, S.Reply(Error, 0, 0, io.sendOk))))
            case Resumed(s, accept, replay) => Inv(BoundTo(n, c, f.session, s, Sent(c, [accept] + replay)))
  {
    var refusal := Sent(c, S.Reply(Error, 0, 0, io.sendOk));
    assert GoodUp(n.client, n.conns, n.used, Packet(c, f));
    match r
    case Resumed(_, _, _) => ResumeKeepsInv(n, c, f, newSid, ok, io, r);
    case Expired(o) => ExpiredHelloKeepsInv(n, c, f.session, io, refusal);
    case Refused => RefusedKeepsInv(n, c, refusal, Turned(n, c, refusal));
  }

  lemma FirstHelloKeepsInv(n: Net, c: Conn, f: Frame, newSid: Sid, ok: bool, io: Io)
    requires Inv(n) && Enabled(n, ServerHello(c, f, newSid, ok, io)) && !f.resume
    ensures Inv(BoundTo(n, c, newSid, S.Fresh1(c), Sent(c, [Accept(newSid, 1, 0, 0)])))
    ensures Inv(Turned(n, c, Sent(c, S.Reply(Error, 0, 0, io.sendOk))))
  {
    var refusal := Sent(c, S.Reply(Error, 0, 0, io.sendOk));
    assert GoodUp(n.client, n.conns, n.used, Packet(c, f));
    NewSessionKeepsInv(n, c, f, newSid, ok, io);
    RefusedKeepsInv(n, c, refusal, Turned(n, c, refusal));
  }

  lemma ServerHelloKeepsInv(n: Net, c: Conn, f: Frame, newSid: Sid, ok: bool, io: Io)
    requires Inv(n) && Enabled(n, ServerHello(c, f, newSid, ok, io))
    ensures Inv(Exec(n, ServerHello(c, f, newSid, ok, io)))
  {
    HelloShape(n, c, f, newSid, ok, io);
    if f.resume {
      ResumeAccepts(n, c, f);
      ResumeHelloKeepsInv(n, c, f, newSid, ok, io, S.Resume(n.sessions[f.session], f.session, c, f, !ok, io));
    } else {
      FirstHelloKeepsInv(n, c, f, newSid, ok, io);
    }
  }

  predicate OfServer(step: Step) {
    || step.ServerHello? || step.ServerReceive? || step.ServerDisconnect? || step.ServerClose?
    || step.TargetReady? || step.TargetRead? || step.TargetEnd?
  }

  lemma TargetReadyStepKeepsInv(n: Net, sid: Sid)
    requires Inv(n) && Enabled(n, TargetReady(sid))
    ensures Inv(Exec(n, TargetReady(sid)))
  {
    ReadyShape(n, sid);
    TargetReadyKeepsInv(n, sid);
  }

  lemma TargetReadStepKeepsInv(n: Net, sid: Sid, p: seq<byte>, end: bool)
    requires Inv(n) && Enabled(n, TargetRead(sid, p, end))
    ensures Inv(Exec(n, TargetRead(sid, p, end)))
  {
    ReadShape(n, sid, p, end);
    TargetReadKeepsInv(n, sid, p, end, S.TargetRead(n.sessions[sid], sid, p, end));
  }

  lemma TargetEndStepKeepsInv(n: Net, sid: Sid)
    requires Inv(n) && Enabled(n, TargetEnd(sid))
    ensures Inv(Exec(n, TargetEnd(sid)))
  {
    EndShape(n, sid);
    TargetEndKeepsInv(n, sid, S.TargetEnd(n.sessions[sid], sid));
  }

  lemma TargetStepKeepsInv(n: Net, step: Step)
    requires Inv(n) && Enabled(n, step) && (step.TargetReady? || step.TargetRead? || step.TargetEnd?)
    ensures Inv(Exec(n, step))
  {
    if step.TargetReady? {
      TargetReadyStepKeepsInv(n, step.sid);
    } else if step.TargetRead? {
      TargetReadStepKeepsInv(n, step.sid, step.bytes, step.end);
    } else {
      TargetEndStepKeepsInv(n, step.sid);
    }
  }

  lemma ServerStepKeepsInv(n: Net, step: Step)
    requires Inv(n) && Enabled(n, step) && OfServer(step)
    ensures Inv(Exec(n, step))
  {
    if step.ServerHello? {
      ServerHelloKeepsInv(n, step.conn, step.frame, step.newSid, step.ok, step.io);
    } else if step.ServerReceive? {
      ReceiveStepKeepsInv(n, step.conn, step.frame, step.io);
    } else if step.ServerDisconnect? {
      DisconnectShape(n, step.conn);
      ServerDisconnectKeepsInv(n, step.conn, n.links[step.conn].session);
    } else if step.ServerClose? {
      CloseShape(n, step.sid, step.io);
      ServerCloseKeepsInv(n, step.sid, step.io);
    } else {
      TargetStepKeepsInv(n, step);
    }
  }

  lemma ReceiveStepKeepsInv(n: Net, c: Conn, f: Frame, io: Io)
    requires Inv(n) && Enabled(n, ServerReceive(c, f, io))
    ensures Inv(Exec(n, ServerReceive(c, f, io)))
  {
    ReceiveShape(n, c, f, io);
    var l := n.links[c];
    ServerReceiveKeepsInv(n, c, f, io, S.Receive(n.sessions[l.session], l.session, c, l.epoch, f, io));
  }
}
