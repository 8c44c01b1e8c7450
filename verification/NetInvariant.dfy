/** The global invariant of the protocol, tying both machines, every frame ever
    sent, stale hellos and accepts, and abandoned handshakes together. */
module NetInvariant {
  import opened Wire
  import opened Stream
  import opened ClientModel
  import S = ServerModel
  import opened Net

  ghost predicate ClientOK(c: Client) {
    && Tracks(c.snd, c.stdin)
    && c.rx == |c.stdout|
    && (c.fin ==> c.finAt == |c.stdin|)
    && (c.finished ==> c.active.None?)
    && (c.session == 0 ==> c.active.None? && c.epoch == 0 && c.snd.ack == 0 && c.rx == 0)
  }

  ghost predicate SessionOK(s: S.Session) {
    && Tracks(s.snd, s.targetRead)
    && s.rx == |s.targetWritten|
    && s.epoch >= 1
    && (s.closed ==> s.active.None?)
    && (!s.closed ==> (s.disconnected <==> s.active.None?))
    && s.halfCloses == (if s.c2sFin then 1 else 0)
    && (s.s2cFin <==> s.pump.Stopped?)
  }

  /** How the client and its own session stand to each other. */
  ghost predicate Agree(c: Client, s: S.Session) {
    && s.targetWritten <= c.stdin
    && c.snd.ack <= s.rx
    && c.stdout <= s.targetRead
    && s.snd.ack <= c.rx
    && c.epoch <= s.epoch
    && (s.c2sFin ==> c.fin && s.rx == |c.stdin|)
    && (c.stdoutClosed ==> s.s2cFin && c.rx == |s.targetRead|)
  }

  /** A session the client never committed to is untouched. */
  ghost predicate Orphan(s: S.Session) {
    s.rx == 0 && s.snd.ack == 0 && !s.c2sFin
  }

  ghost predicate SessionsOK(c: Client, sessions: map<Sid, S.Session>) {
    && (c.session != 0 ==> c.session in sessions)
    && (forall sid | sid in sessions ::
          sid != 0 && SessionOK(sessions[sid])
          && (if sid == c.session then Agree(c, sessions[sid]) else Orphan(sessions[sid])))
  }

  ghost predicate ConnsOK(c: Client, conns: map<Conn, nat>, links: map<Conn, Link>) {
    && (c.session == 0 ==> conns == map[])
    && (forall d | d in conns ::
          && d in links && links[d] == Bound(c.session, conns[d])
          && 1 <= conns[d] <= c.epoch)
    && (c.active.Some? ==> c.active.value in conns && conns[c.active.value] == c.epoch)
  }

  ghost predicate ReaderOK(c: Client, reader: Reader, conns: map<Conn, nat>, limit: nat) {
    && limit > 0
    && (reader.Picked? || reader.Ready? ==> reader.conn in conns)
    && (reader.Ready? ==> |c.snd.buf| < limit)
    && (c.fin <==> reader.Done?)
    && |c.snd.buf| <= limit - 1 + DATA_CHUNK
    && (c.stdoutClosed ==> c.session != 0)
    && (c.session == 0 ==> c.stdin == [])
  }

  ghost predicate PumpsOK(sessions: map<Sid, S.Session>, limit: nat) {
    && limit > 0
    && forall sid | sid in sessions :: PumpOK(sessions[sid], limit)
  }

  ghost predicate PumpOK(s: S.Session, limit: nat) {
    && (s.pump.Reading? ==> |s.snd.buf| < limit)
    && |s.snd.buf| <= limit - 1 + DATA_CHUNK
  }

  ghost predicate LinkOK(link: Link, sessions: map<Sid, S.Session>) {
    link.Bound? ==> link.session in sessions && 1 <= link.epoch <= sessions[link.session].epoch
  }

  ghost predicate LinksOK(links: map<Conn, Link>, sessions: map<Sid, S.Session>, used: set<Conn>) {
    && (forall c | c in links :: c in used && LinkOK(links[c], sessions))
    && (forall c, d | c in links && d in links && links[c].Bound? && links[c] == links[d] :: c == d)
    && (forall sid | sid in sessions && sessions[sid].active.Some? ::
          var c := sessions[sid].active.value;
          c in links && links[c] == Bound(sid, sessions[sid].epoch))
  }

  ghost predicate HandOK(h: Handshake, c: Client, conns: map<Conn, nat>, links: map<Conn, Link>, used: set<Conn>,
                         up: set<Packet>) {
    && h.conn in used && h.conn !in conns
    && (h.resume <==> c.session != 0)
    && h.s2cRx <= c.rx
    && (h.cold ==> c.active.None? && h.s2cRx == c.rx)
    && (forall p | p in up && p.conn == h.conn && p.frame.Hello? ::
          p.frame.resume == h.resume && p.frame.s2cRx == h.s2cRx)
    && (h.conn in links && links[h.conn].Bound? ==>
          if h.resume then links[h.conn].session == c.session && links[h.conn].epoch > c.epoch
          else links[h.conn].epoch == 1)
  }

  /** What is true of every frame the client ever sent. */
  ghost predicate GoodUp(c: Client, conns: map<Conn, nat>, used: set<Conn>, p: Packet) {
    var f := p.frame;
    && p.conn in used
    && (match f
        case Hello(resume, session, c2sRx, s2cRx) =>
          && (resume ==> session == c.session && session != 0)
          && c2sRx <= c.snd.ack && s2cRx <= c.rx
        case Accept(_, _, _, _) => false
        case Close(_, _) => false
        case Data(session, epoch, dir, offset, payload) =>
          && p.conn in conns && epoch == conns[p.conn] && session == c.session
          && dir == ClientToServer && Piece(c.stdin, offset, payload)
        case Ack(session, epoch, dir, received) =>
          && p.conn in conns && epoch == conns[p.conn] && session == c.session
          && dir == ServerToClient && received <= c.rx
        case Fin(session, epoch, dir, offset) =>
          && p.conn in conns && epoch == conns[p.conn] && session == c.session
          && dir == ClientToServer && c.fin && offset == c.finAt
        case _ => true)
  }

  /** What is true of every frame the server ever sent. */
  ghost predicate GoodDown(sessions: map<Sid, S.Session>, links: map<Conn, Link>, p: Packet) {
    var f := p.frame;
    && p.conn in links
    && !f.Hello?
    && (!f.Unstamped() ==>
          && links[p.conn] == Bound(f.Session(), f.Epoch())
          && f.Session() in sessions
          && var s := sessions[f.Session()];
             match f
             case Accept(_, _, c2sRx, s2cRx) => c2sRx <= s.rx && s2cRx <= s.snd.ack
             case Data(_, _, dir, offset, payload) => dir == ServerToClient && Piece(s.targetRead, offset, payload)
             case Ack(_, _, dir, received) => dir == ClientToServer && received <= s.rx
             case Fin(_, _, dir, offset) => dir == ServerToClient && s.s2cFin && offset == |s.targetRead|
             case _ => true)
  }

  ghost predicate UpOK(c: Client, conns: map<Conn, nat>, used: set<Conn>, up: set<Packet>) {
    forall p | p in up :: GoodUp(c, conns, used, p)
  }

  ghost predicate DownOK(sessions: map<Sid, S.Session>, links: map<Conn, Link>, down: set<Packet>) {
    forall p | p in down :: GoodDown(sessions, links, p)
  }

  /** Fencing: as long as the client has not committed an epoch, the receive
      offset its accept reported is still the session's receive offset. */
  ghost predicate FrozenOK(c: Client, sessions: map<Sid, S.Session>, down: set<Packet>) {
    forall p | p in down && p.frame.Accept? && p.frame.session == c.session && p.frame.epoch > c.epoch ::
      p.frame.session in sessions && p.frame.c2sRx == sessions[p.frame.session].rx
  }

  ghost predicate Inv(n: Net) {
    && ClientOK(n.client)
    && SessionsOK(n.client, n.sessions)
    && ConnsOK(n.client, n.conns, n.links)
    && ReaderOK(n.client, n.reader, n.conns, n.clientLimit)
    && PumpsOK(n.sessions, n.serverLimit)
    && LinksOK(n.links, n.sessions, n.used)
    && (n.hand.Some? ==> HandOK(n.hand.value, n.client, n.conns, n.links, n.used, n.up))
    && UpOK(n.client, n.conns, n.used, n.up)
    && DownOK(n.sessions, n.links, n.down)
    && FrozenOK(n.client, n.sessions, n.down)
  }

  // ---- growth: what no step takes back ----

  ghost predicate ClientGrows(c: Client, c': Client) {
    && c.stdin <= c'.stdin
    && c.snd.ack <= c'.snd.ack
    && c.rx <= c'.rx
    && (c.session != 0 ==> c'.session == c.session)
    && (c.fin ==> c'.fin && c'.finAt == c.finAt)
  }

  ghost predicate SessionGrows(s: S.Session, s': S.Session) {
    && s.targetRead <= s'.targetRead
    && s.rx <= s'.rx
    && s.snd.ack <= s'.snd.ack
    && s.epoch <= s'.epoch
    && (s.s2cFin ==> s'.s2cFin && s'.targetRead == s.targetRead)
  }

  lemma GoodUpGrows(c: Client, conns: map<Conn, nat>, used: set<Conn>, c': Client, conns': map<Conn, nat>,
                    used': set<Conn>, p: Packet)
    requires GoodUp(c, conns, used, p)
    requires ClientGrows(c, c') && used <= used'
    requires c.session == 0 ==> conns == map[]
    requires forall d | d in conns :: d in conns' && conns'[d] == conns[d]
    ensures GoodUp(c', conns', used', p)
  {
    if p.frame.Data? {
      PieceOfLonger(c.stdin, c'.stdin, p.frame.offset, p.frame.payload);
    }
  }

  lemma GoodDownGrows(ss: map<Sid, S.Session>, links: map<Conn, Link>, ss': map<Sid, S.Session>,
                      links': map<Conn, Link>, p: Packet)
    requires GoodDown(ss, links, p)
    requires forall d | d in links :: d in links' && links'[d] == links[d]
    requires forall sid | sid in ss :: sid in ss' && SessionGrows(ss[sid], ss'[sid])
    ensures GoodDown(ss', links', p)
  {
    if p.frame.Data? {
      PieceOfLonger(ss[p.frame.session].targetRead, ss'[p.frame.session].targetRead, p.frame.offset, p.frame.payload);
    }
  }

  /** `UpOK` survives a step that only grows the parts it speaks about and
      whose own frames are good. */
  lemma UpGrows(c: Client, conns: map<Conn, nat>, used: set<Conn>, up: set<Packet>,
                c': Client, conns': map<Conn, nat>, used': set<Conn>, sent: Sent)
    requires UpOK(c, conns, used, up)
    requires ClientGrows(c, c') && used <= used'
    requires c.session == 0 ==> conns == map[]
    requires forall d | d in conns :: d in conns' && conns'[d] == conns[d]
    requires forall f | f in sent.frames :: GoodUp(c', conns', used', Packet(sent.conn, f))
    ensures UpOK(c', conns', used', up + Packets(sent))
  {
    forall p | p in up ensures GoodUp(c', conns', used', p) {
      GoodUpGrows(c, conns, used, c', conns', used', p);
    }
  }

  lemma DownGrows(ss: map<Sid, S.Session>, links: map<Conn, Link>, down: set<Packet>,
                  ss': map<Sid, S.Session>, links': map<Conn, Link>, sent: Sent)
    requires DownOK(ss, links, down)
    requires forall d | d in links :: d in links' && links'[d] == links[d]
    requires forall sid | sid in ss :: sid in ss' && SessionGrows(ss[sid], ss'[sid])
    requires forall f | f in sent.frames :: GoodDown(ss', links', Packet(sent.conn, f))
    ensures DownOK(ss', links', down + Packets(sent))
  {
    forall p | p in down ensures GoodDown(ss', links', p) {
      GoodDownGrows(ss, links, ss', links', p);
    }
  }
}
