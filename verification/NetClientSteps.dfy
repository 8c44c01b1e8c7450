/** Every step of the client keeps the global invariant. */
module NetClientSteps {
  import opened Wire
  import opened Stream
  import opened ClientModel
  import S = ServerModel
  import opened Net
  import opened NetInvariant

  // ---- what each client step changes ----

  /** Steps that leave the handshake and the set of connections alone. */
  function Turn(n: Net, c': Client, reader': Reader, up: Sent): Net {
    n.(client := c', reader := reader', up := n.up + Packets(up))
  }

  lemma ReplayShape(n: Net, c: Conn)
    requires Enabled(n, ReplayClient(c))
    ensures Exec(n, ReplayClient(c)) == Turn(n, n.client, n.reader, Sent(c, Replay(n.client, n.conns[c])))
  {
    assert Packets(NOTHING) == {};
  }

  lemma DropShape(n: Net, c: Conn)
    ensures Exec(n, DropActive(c)) == Turn(n, Drop(n.client, c), n.reader, NOTHING)
    ensures Exec(n, FinishClient) == Turn(n, Finish(n.client), n.reader, NOTHING)
  {
    assert Packets(NOTHING) == {};
  }

  lemma ReceiveShape(n: Net, c: Conn, f: Frame, io: Io)
    requires Enabled(n, ClientReceive(c, f, io))
    ensures var o := Receive(n.client, c, n.conns[c], f, io);
            Exec(n, ClientReceive(c, f, io)) == Turn(n, o.client, n.reader, Sent(c, o.sent))
  {
    assert Packets(NOTHING) == {};
  }

  lemma PickShape(n: Net)
    ensures Enabled(n, StdinPick) ==> Exec(n, StdinPick) == Turn(n, n.client, Picked(n.client.active.value), NOTHING)
    ensures Enabled(n, StdinReady) ==> Exec(n, StdinReady) == Turn(n, n.client, Ready(n.reader.conn), NOTHING)
    ensures Enabled(n, StdinEnd) ==> Exec(n, StdinEnd) == Turn(n, MarkFin(n.client), Done, NOTHING)
  {
    assert Packets(NOTHING) == {};
  }

  lemma ReadShape(n: Net, p: seq<byte>, last: bool)
    requires Enabled(n, StdinRead(p, last))
    ensures var c := n.reader.conn;
            Exec(n, StdinRead(p, last))
            == Turn(n, AppendBytes(n.client, p), if last then Last else Idle,
                    Sent(c, [Stamp(Data(n.client.session, 0, ClientToServer, n.client.snd.next, p), 0, n.conns[c])]))
  {
    assert Packets(NOTHING) == {};
  }

  lemma SendShape(n: Net, c: Conn, nonce: nat)
    ensures Enabled(n, SendFin(c)) ==>
              Exec(n, SendFin(c))
              == Turn(n, n.client, n.reader,
                      Sent(c, [Stamp(Fin(n.client.session, 0, ClientToServer, n.client.finAt), 0, n.conns[c])]))
    ensures Enabled(n, SendPing(c, nonce)) ==>
              Exec(n, SendPing(c, nonce)) == Turn(n, n.client, n.reader, Sent(c, [Ping(nonce)]))
  {
    assert Packets(NOTHING) == {};
  }

  function Hand(n: Net, c: Conn): Handshake {
    Handshake(c, n.client.session != 0, n.client.snd.ack, n.client.rx, n.client.active.None?)
  }

  function Opened(n: Net, c: Conn): Net {
    var h := Hand(n, c);
    n.(hand := Some(h), used := n.used + {c},
       up := n.up + Packets(Sent(c, [Hello(h.resume, n.client.session, h.c2sAck, h.s2cRx)])))
  }

  lemma StartShape(n: Net, c: Conn)
    ensures Enabled(n, StartHandshake(c)) ==> Exec(n, StartHandshake(c)) == Opened(n, c)
    ensures Enabled(n, AbandonHandshake) ==> Exec(n, AbandonHandshake) == n.(hand := None)
  {
    assert Packets(NOTHING) == {};
  }

  lemma CommitShape(n: Net, f: Frame)
    requires Enabled(n, CommitHandshake(f))
    ensures var h := n.hand.value;
            Exec(n, CommitHandshake(f))
            == match Commit(n.client, h.conn, h.resume, f)
               case None => n.(hand := None)
               case Some(c') => n.(hand := None, client := c', conns := n.conns[h.conn := f.epoch])
  {
    assert Packets(NOTHING) == {};
  }

  // ---- steps that leave the handshake alone ----

  /** What such a step has to show, in terms of the client and its session alone. */
  ghost predicate ClientMove(c: Client, c': Client) {
    && ClientOK(c')
    && ClientGrows(c, c')
    && c'.session == c.session && c'.epoch == c.epoch
    && (c'.active.None? || c'.active == c.active)
    && (c'.rx == c.rx || c.active.Some?)
    && (c.active.None? ==> c'.stdoutClosed == c.stdoutClosed)
  }

  lemma MoveKeepsSessions(c: Client, c': Client, ss: map<Sid, S.Session>)
    requires SessionsOK(c, ss) && c'.session == c.session
    requires c.session != 0 && c.session in ss ==> Agree(c', ss[c.session])
    ensures SessionsOK(c', ss)
  {
  }

  lemma MoveKeepsHand(h: Handshake, c: Client, c': Client, conns: map<Conn, nat>, links: map<Conn, Link>,
                      used: set<Conn>, up: set<Packet>, sent: Sent)
    requires HandOK(h, c, conns, links, used, up)
    requires c'.session == c.session && c'.epoch == c.epoch && c.rx <= c'.rx
    requires c'.active.None? || c'.active == c.active
    requires c'.rx == c.rx || c.active.Some?
    requires forall f | f in sent.frames :: !f.Hello?
    ensures HandOK(h, c', conns, links, used, up + Packets(sent))
  {
  }

  lemma ClientMoveKeepsInv(n: Net, c': Client, reader': Reader, up: Sent, n': Net)
    requires Inv(n) && ClientMove(n.client, c') && n' == Turn(n, c', reader', up)
    requires n.client.session != 0 && n.client.session in n.sessions ==> Agree(c', n.sessions[n.client.session])
    requires ReaderOK(c', reader', n.conns, n.clientLimit)
    requires forall f | f in up.frames :: !f.Hello? && GoodUp(c', n.conns, n.used, Packet(up.conn, f))
    ensures Inv(n')
  {
    MoveKeepsSessions(n.client, c', n.sessions);
    UpGrows(n.client, n.conns, n.used, n.up, c', n.conns, n.used, up);
    if n.hand.Some? {
      MoveKeepsHand(n.hand.value, n.client, c', n.conns, n.links, n.used, n.up, up);
    }
  }

  lemma StampedGood(c: Client, conns: map<Conn, nat>, links: map<Conn, Link>, ss: map<Sid, S.Session>, used: set<Conn>,
                    d: Conn)
    requires ConnsOK(c, conns, links) && LinksOK(links, ss, used) && d in conns
    ensures d in used && conns[d] >= 1 && c.session != 0
  {
  }

  /** A frame that passes the client's filter was sent by the client's own
      session in the epoch the client holds. */
  lemma PassedFilter(n: Net, c: Conn, f: Frame)
    requires Inv(n) && Enabled(n, ClientReceive(c, f, FINE)) && Current(n.client, c, f)
    requires f.Data? || f.Ack? || f.Fin?
    ensures f.Session() == n.client.session && n.client.session != 0 && n.client.session in n.sessions
    ensures GoodDown(n.sessions, n.links, Packet(c, f)) && Agree(n.client, n.sessions[n.client.session])
  {
    assert GoodDown(n.sessions, n.links, Packet(c, f));
  }

  lemma DataMove(c: Client, s: S.Session, ss: map<Sid, S.Session>, links: map<Conn, Link>, d: Conn, epoch: nat,
                 f: Frame, io: Io)
    requires ClientOK(c) && SessionOK(s) && Agree(c, s) && c.active.Some? && c.session != 0
    requires f.Data? && f.session in ss && ss[f.session] == s && GoodDown(ss, links, Packet(d, f)) && f.epoch != 0
    ensures var c' := HandleData(c, epoch, f, io).client; ClientMove(c, c') && Agree(c', s)
    ensures var c' := HandleData(c, epoch, f, io).client; c'.snd == c.snd && c'.fin == c.fin && c'.stdin == c.stdin
  {
    if Judge(c.rx, f.offset, |f.payload|).Fresh? {
      FreshKeepsPrefix(s.targetRead, c.stdout, f.payload, Wrote(io, f.payload));
    }
  }

  /** Against this server the client never refuses an ack. */
  lemma AckMove(c: Client, s: S.Session, ss: map<Sid, S.Session>, links: map<Conn, Link>, d: Conn, f: Frame)
    requires ClientOK(c) && SessionOK(s) && Agree(c, s) && c.session != 0
    requires f.Ack? && f.session in ss && ss[f.session] == s && GoodDown(ss, links, Packet(d, f))
    ensures f.dir == ClientToServer && Advance(c.snd, f.received).Moved?
    ensures var c' := c.(snd := Advance(c.snd, f.received).sender);
            ClientMove(c, c') && Agree(c', s) && |c'.snd.buf| <= |c.snd.buf|
  {
    AdvanceTracks(c.snd, c.stdin, f.received);
  }

  lemma ReceiveMove(n: Net, c: Conn, f: Frame, io: Io)
    requires Inv(n) && Enabled(n, ClientReceive(c, f, io))
    ensures var c' := Receive(n.client, c, n.conns[c], f, io).client;
            && ClientMove(n.client, c')
            && (n.client.session != 0 && n.client.session in n.sessions ==> Agree(c', n.sessions[n.client.session]))
            && |c'.snd.buf| <= |n.client.snd.buf| && c'.fin == n.client.fin && c'.stdin == n.client.stdin
  {
    if Current(n.client, c, f) && (f.Data? || f.Ack? || f.Fin?) {
      PassedFilter(n, c, f);
      var s := n.sessions[n.client.session];
      if f.Data? {
        DataMove(n.client, s, n.sessions, n.links, c, n.conns[c], f, io);
      } else if f.Ack? {
        AckMove(n.client, s, n.sessions, n.links, c, f);
      } else {
        FinMove(n.client, s, n.sessions, n.links, c, n.conns[c], f, io);
      }
    } else {
      OtherMove(n.client, c, n.conns[c], f, io);
    }
  }

  lemma FinMove(c: Client, s: S.Session, ss: map<Sid, S.Session>, links: map<Conn, Link>, d: Conn, epoch: nat, f: Frame,
                io: Io)
    requires ClientOK(c) && SessionOK(s) && Agree(c, s) && c.active.Some? && c.session != 0
    requires f.Fin? && f.session in ss && ss[f.session] == s && GoodDown(ss, links, Packet(d, f))
    ensures var c' := HandleFin(c, epoch, f, io).client;
            ClientMove(c, c') && Agree(c', s) && c'.snd == c.snd && c'.fin == c.fin && c'.stdin == c.stdin
  {
  }

  lemma OtherMove(c: Client, d: Conn, epoch: nat, f: Frame, io: Io)
    requires ClientOK(c)
    requires !Current(c, d, f) || !(f.Data? || f.Ack? || f.Fin?)
    ensures var c' := Receive(c, d, epoch, f, io).client;
            && ClientMove(c, c') && c'.snd == c.snd && c'.fin == c.fin && c'.stdin == c.stdin
            && (forall s :: Agree(c, s) ==> Agree(c', s))
  {
  }

  /** Every reply of the client is an error, a pong, or an ack of exactly what
      stdout has taken by then. */
  lemma ReceiveReplies(c: Client, d: Conn, epoch: nat, f: Frame, io: Io, g: Frame)
    requires g in Receive(c, d, epoch, f, io).sent && c.session != 0 && epoch != 0
    ensures g.Error? || (f.Ping? && g == Pong(f.nonce))
            || g == Ack(c.session, epoch, ServerToClient, Receive(c, d, epoch, f, io).client.rx)
  {
  }

  lemma RepliesGood(c: Client, conns: map<Conn, nat>, used: set<Conn>, d: Conn, f: Frame, io: Io, o: Out)
    requires d in conns && d in used && conns[d] >= 1 && c.session != 0
    requires o == Receive(c, d, conns[d], f, io) && o.client.session == c.session
    ensures forall g | g in o.sent :: !g.Hello? && GoodUp(o.client, conns, used, Packet(d, g))
  {
    forall g | g in o.sent ensures !g.Hello? && GoodUp(o.client, conns, used, Packet(d, g)) {
      ReceiveReplies(c, d, conns[d], f, io, g);
    }
  }

  lemma ClientReceiveKeepsInv(n: Net, c: Conn, f: Frame, io: Io, o: Out)
    requires Inv(n) && Enabled(n, ClientReceive(c, f, io)) && o == Receive(n.client, c, n.conns[c], f, io)
    ensures Inv(Turn(n, o.client, n.reader, Sent(c, o.sent)))
  {
    ReceiveMove(n, c, f, io);
    StampedGood(n.client, n.conns, n.links, n.sessions, n.used, c);
    RepliesGood(n.client, n.conns, n.used, c, f, io, o);
    ClientMoveKeepsInv(n, o.client, n.reader, Sent(c, o.sent), Turn(n, o.client, n.reader, Sent(c, o.sent)));
  }

  lemma LossMove(c: Client, d: Conn)
    requires ClientOK(c)
    ensures ClientMove(c, c) && ClientMove(c, Drop(c, d)) && ClientMove(c, Finish(c)) 
    ensures c.fin || ClientMove(c, MarkFin(c))
    ensures forall s :: Agree(c, s) ==> Agree(Drop(c, d), s) && Agree(Finish(c), s) && Agree(MarkFin(c), s)
  {
  }

  lemma ClientDropKeepsInv(n: Net, c: Conn)
    requires Inv(n)
    ensures Inv(Turn(n, Drop(n.client, c), n.reader, NOTHING)) && Inv(Turn(n, Finish(n.client), n.reader, NOTHING))
  {
    LossKeepsInv(n, c, Drop(n.client, c));
    LossKeepsInv(n, c, Finish(n.client));
  }

  lemma LossKeepsInv(n: Net, c: Conn, c': Client)
    requires Inv(n) && (c' == Drop(n.client, c) || c' == Finish(n.client))
    ensures Inv(Turn(n, c', n.reader, NOTHING))
  {
    LossMove(n.client, c);
    ClientMoveKeepsInv(n, c', n.reader, NOTHING, Turn(n, c', n.reader, NOTHING));
  }

  lemma ReplayGood(c: Client, conns: map<Conn, nat>, used: set<Conn>, d: Conn)
    requires ClientOK(c) && d in conns && d in used && c.session != 0
    ensures forall f | f in Replay(c, conns[d]) :: !f.Hello? && GoodUp(c, conns, used, Packet(d, f))
  {
    ChunksArePieces(c.session, conns[d], ClientToServer, c.snd.bufFrom, c.snd.buf, c.stdin);
  }

  lemma ReplayKeepsInv(n: Net, c: Conn)
    requires Inv(n) && c in n.conns
    ensures Inv(Turn(n, n.client, n.reader, Sent(c, Replay(n.client, n.conns[c]))))
  {
    StampedGood(n.client, n.conns, n.links, n.sessions, n.used, c);
    LossMove(n.client, c);
    ReplayGood(n.client, n.conns, n.used, c);
    ClientMoveKeepsInv(n, n.client, n.reader, Sent(c, Replay(n.client, n.conns[c])),
                       Turn(n, n.client, n.reader, Sent(c, Replay(n.client, n.conns[c]))));
  }

  lemma SendKeepsInv(n: Net, c: Conn, f: Frame)
    requires Inv(n) && c in n.conns
    requires f.Ping? || (f == Fin(n.client.session, n.conns[c], ClientToServer, n.client.finAt) && n.client.fin)
    ensures Inv(Turn(n, n.client, n.reader, Sent(c, [f])))
  {
    StampedGood(n.client, n.conns, n.links, n.sessions, n.used, c);
    LossMove(n.client, c);
    ClientMoveKeepsInv(n, n.client, n.reader, Sent(c, [f]), Turn(n, n.client, n.reader, Sent(c, [f])));
  }

  lemma StdinKeepsInv(n: Net, step: Step)
    requires Inv(n) && Enabled(n, step) && (step.StdinPick? || step.StdinReady? || step.StdinEnd?)
    ensures Inv(Exec(n, step))
  {
    PickShape(n);
    LossMove(n.client, 0);
    var c' := if step.StdinEnd? then MarkFin(n.client) else n.client;
    var r' := if step.StdinEnd? then Done else if step.StdinPick? then Picked(n.client.active.value)
        else Ready(n.reader.conn);
    ClientMoveKeepsInv(n, c', r', NOTHING, Turn(n, c', r', NOTHING));
  }

  lemma AppendMove(c: Client, p: seq<byte>)
    requires ClientOK(c) && !c.fin
    ensures ClientMove(c, AppendBytes(c, p))
    ensures Piece(AppendBytes(c, p).stdin, c.snd.next, p)
    ensures forall s :: Agree(c, s) ==> Agree(AppendBytes(c, p), s)
  {
    PushTracks(c.snd, c.stdin, p);
    assert (c.stdin + p)[|c.stdin|..|c.stdin| + |p|] == p;
  }

  lemma StdinReadKeepsInv(n: Net, p: seq<byte>, last: bool, r': Reader, f: Frame)
    requires Inv(n) && Enabled(n, StdinRead(p, last)) && r' == (if last then Last else Idle)
    requires f == Data(n.client.session, n.conns[n.reader.conn], ClientToServer, n.client.snd.next, p)
    ensures Inv(Turn(n, AppendBytes(n.client, p), r', Sent(n.reader.conn, [f])))
  {
    AppendMove(n.client, p);
    StampedGood(n.client, n.conns, n.links, n.sessions, n.used, n.reader.conn);
    ClientMoveKeepsInv(n, AppendBytes(n.client, p), r', Sent(n.reader.conn, [f]),
                       Turn(n, AppendBytes(n.client, p), r', Sent(n.reader.conn, [f])));
  }

  // ---- handshakes ----

  lemma StartKeepsInv(n: Net, c: Conn)
    requires Inv(n) && Enabled(n, StartHandshake(c))
    ensures Inv(Opened(n, c))
  {
    var h := Hand(n, c);
    var sent := Sent(c, [Hello(h.resume, n.client.session, h.c2sAck, h.s2cRx)]);
    StartKeepsHand(n.client, n.conns, n.links, n.sessions, n.used, n.up, h, sent);
    UpGrows(n.client, n.conns, n.used, n.up, n.client, n.conns, n.used + {c}, sent);
    assert LinksOK(n.links, n.sessions, n.used + {c});
  }

  lemma StartKeepsHand(c: Client, conns: map<Conn, nat>, links: map<Conn, Link>, ss: map<Sid, S.Session>,
                       used: set<Conn>, up: set<Packet>, h: Handshake, sent: Sent)
    requires UpOK(c, conns, used, up) && ConnsOK(c, conns, links) && LinksOK(links, ss, used) && h.conn !in used
    requires h == Handshake(h.conn, c.session != 0, c.snd.ack, c.rx, c.active.None?)
    requires sent == Sent(h.conn, [Hello(h.resume, c.session, h.c2sAck, h.s2cRx)])
    ensures HandOK(h, c, conns, links, used + {h.conn}, up + Packets(sent))
  {
    forall p | p in up ensures p.conn != h.conn {
      assert GoodUp(c, conns, used, p);
    }
  }

  /** What `commitActivation` finds: the accept names the right session, its
      offset lies between the client's ack and the end of its stream, and it is
      exactly the server's receive offset. */
  lemma AcceptFits(n: Net, f: Frame)
    requires Inv(n) && Enabled(n, CommitHandshake(f))
    ensures f.session in n.sessions && f.session != 0
    ensures n.links[n.hand.value.conn] == Bound(f.session, f.epoch)
    ensures n.hand.value.resume ==> f.session == n.client.session && f.epoch > n.client.epoch
    ensures !n.hand.value.resume ==> n.client.session == 0 && f.epoch == 1
    ensures f.c2sRx == n.sessions[f.session].rx && n.client.snd.ack <= f.c2sRx <= n.client.snd.next
    ensures 1 <= f.epoch <= n.sessions[f.session].epoch
  {
    var c := n.hand.value.conn;
    assert GoodDown(n.sessions, n.links, Packet(c, f));
    assert LinkOK(n.links[c], n.sessions);
    if n.hand.value.resume {
      assert Agree(n.client, n.sessions[f.session]);
    } else {
      assert Orphan(n.sessions[f.session]);
    }
  }

  /** The state a commit leaves: the buffer starts exactly at the server's receive offset. */
  lemma CommitMove(c: Client, conn: Conn, resume: bool, f: Frame, s: S.Session)
    requires ClientOK(c) && !c.finished && f.Accept? && f.session != 0 && f.epoch >= 1
    requires resume ==> f.session == c.session
    requires c.snd.ack <= f.c2sRx <= c.snd.next && f.c2sRx == s.rx
    ensures Commit(c, conn, resume, f).Some?
    ensures var c' := Commit(c, conn, resume, f).value;
            && ClientOK(c') && c'.snd.bufFrom == s.rx && |c'.snd.buf| <= |c.snd.buf|
            && c' == c.(snd := c'.snd, active := Some(conn), session := f.session, epoch := f.epoch)
            && c'.snd.ack == s.rx
  {
    AdvanceTracks(c.snd, c.stdin, f.c2sRx);
  }

  lemma CommitKeepsSessions(c: Client, c': Client, ss: map<Sid, S.Session>, f: Frame)
    requires ClientOK(c) && SessionsOK(c, ss) && f.Accept? && f.session in ss && c'.session == f.session
    requires c.session == 0 || c.session == f.session
    requires c' == c.(snd := c'.snd, active := c'.active, session := f.session, epoch := f.epoch)
    requires c'.snd.ack == ss[f.session].rx && f.epoch <= ss[f.session].epoch
    requires c.session == 0 ==> !c.stdoutClosed
    ensures SessionsOK(c', ss)
  {
    assert SessionOK(ss[f.session]);
    if c.session == 0 {
      assert Orphan(ss[f.session]);
      assert Agree(c', ss[f.session]);
    } else {
      assert Agree(c, ss[f.session]);
      assert Agree(c', ss[f.session]);
    }
  }

  lemma CommitKeepsConns(c: Client, c': Client, conns: map<Conn, nat>, links: map<Conn, Link>, conn: Conn, f: Frame)
    requires ConnsOK(c, conns, links) && f.Accept? && conn !in conns && conn in links
    requires links[conn] == Bound(f.session, f.epoch) && 1 <= f.epoch && c.epoch <= f.epoch && f.session != 0
    requires c.session == 0 || c.session == f.session
    requires c' == c.(snd := c'.snd, active := Some(conn), session := f.session, epoch := f.epoch)
    ensures ConnsOK(c', conns[conn := f.epoch], links)
  {
  }

  lemma CommitKeepsFrozen(c: Client, c': Client, ss: map<Sid, S.Session>, links: map<Conn, Link>, down: set<Packet>)
    requires FrozenOK(c, ss, down) && SessionsOK(c, ss) && SessionsOK(c', ss) && DownOK(ss, links, down)
    requires c.session == 0 || c.session == c'.session
    requires c.epoch <= c'.epoch
    requires c.session == 0 ==> forall sid | sid in ss :: ss[sid].rx == 0
    ensures FrozenOK(c', ss, down)
  {
    forall p | p in down && p.frame.Accept? && p.frame.session == c'.session && p.frame.epoch > c'.epoch
      ensures p.frame.session in ss && p.frame.c2sRx == ss[p.frame.session].rx
    {
      assert GoodDown(ss, links, p);
    }
  }

  lemma CommitKeepsInv(n: Net, f: Frame, c': Client)
    requires Inv(n) && Enabled(n, CommitHandshake(f))
    requires Commit(n.client, n.hand.value.conn, n.hand.value.resume, f) == Some(c')
    ensures Inv(n.(hand := None, client := c', conns := n.conns[n.hand.value.conn := f.epoch]))
  {
    var h := n.hand.value;
    AcceptFits(n, f);
    CommitMove(n.client, h.conn, h.resume, f, n.sessions[f.session]);
    assert n.client.session == 0 ==> n.client.epoch == 0 && !n.client.stdoutClosed;
    CommitKeepsSessions(n.client, c', n.sessions, f);
    CommitKeepsConns(n.client, c', n.conns, n.links, h.conn, f);
    assert n.client.session == 0 ==> forall sid | sid in n.sessions :: Orphan(n.sessions[sid]);
    CommitKeepsFrozen(n.client, c', n.sessions, n.links, n.down);
    UpGrows(n.client, n.conns, n.used, n.up, c', n.conns[h.conn := f.epoch], n.used, NOTHING);
    assert n.up + Packets(NOTHING) == n.up;
    assert ReaderOK(c', n.reader, n.conns[h.conn := f.epoch], n.clientLimit);
  }

  lemma HandshakeKeepsInv(n: Net, step: Step)
    requires Inv(n) && Enabled(n, step) && (step.StartHandshake? || step.AbandonHandshake? || step.CommitHandshake?)
    ensures Inv(Exec(n, step))
  {
    match step
    case StartHandshake(c) =>
      StartShape(n, c);
      StartKeepsInv(n, c);
    case AbandonHandshake =>
      StartShape(n, 0);
    case CommitHandshake(f) =>
      CommitShape(n, f);
      var r := Commit(n.client, n.hand.value.conn, n.hand.value.resume, f);
      if r.Some? {
        CommitKeepsInv(n, f, r.value);
      }
  }

  lemma ReplayStepKeepsInv(n: Net, c: Conn)
    requires Inv(n) && Enabled(n, ReplayClient(c))
    ensures Inv(Exec(n, ReplayClient(c)))
  {
    ReplayShape(n, c);
    ReplayKeepsInv(n, c);
  }

  lemma StdinReadStepKeepsInv(n: Net, p: seq<byte>, last: bool)
    requires Inv(n) && Enabled(n, StdinRead(p, last))
    ensures Inv(Exec(n, StdinRead(p, last)))
  {
    var f := Data(n.client.session, n.conns[n.reader.conn], ClientToServer, n.client.snd.next, p);
    ChunkStamp(n, p, f);
    ReadShape(n, p, last);
    StdinReadKeepsInv(n, p, last, if last then Last else Idle, f);
  }

  lemma ChunkStamp(n: Net, p: seq<byte>, f: Frame)
    requires Inv(n) && n.reader.Ready? && n.reader.conn in n.conns
    requires f == Data(n.client.session, n.conns[n.reader.conn], ClientToServer, n.client.snd.next, p)
    ensures Stamp(Data(n.client.session, 0, ClientToServer, n.client.snd.next, p), 0, n.conns[n.reader.conn]) == f
  {
    StampedGood(n.client, n.conns, n.links, n.sessions, n.used, n.reader.conn);
  }

  lemma SendStepKeepsInv(n: Net, step: Step)
    requires Inv(n) && Enabled(n, step) && (step.SendFin? || step.SendPing?)
    ensures Inv(Exec(n, step))
  {
    var c := step.conn;
    StampedGood(n.client, n.conns, n.links, n.sessions, n.used, c);
    if step.SendFin? {
      SendShape(n, c, 0);
      SendKeepsInv(n, c, Fin(n.client.session, n.conns[c], ClientToServer, n.client.finAt));
    } else {
      SendShape(n, c, step.nonce);
      SendKeepsInv(n, c, Ping(step.nonce));
    }
  }

  lemma ClientDropStepKeepsInv(n: Net, step: Step)
    requires Inv(n) && Enabled(n, step) && (step.DropActive? || step.FinishClient?)
    ensures Inv(Exec(n, step))
  {
    var c := if step.DropActive? then step.conn else 0;
    DropShape(n, c);
    ClientDropKeepsInv(n, c);
  }

  predicate OfClient(step: Step) {
    || step.StartHandshake? || step.AbandonHandshake? || step.CommitHandshake? || step.ReplayClient?
    || step.DropActive? || step.FinishClient? || step.ClientReceive? || step.StdinPick? || step.StdinReady?
    || step.StdinRead? || step.StdinEnd? || step.SendFin? || step.SendPing?
  }

  lemma ClientStepKeepsInv(n: Net, step: Step)
    requires Inv(n) && Enabled(n, step) && OfClient(step)
    ensures Inv(Exec(n, step))
  {
    if step.ReplayClient? {
      ReplayStepKeepsInv(n, step.conn);
    } else if step.StdinRead? {
      StdinReadStepKeepsInv(n, step.chunk, step.last);
    } else if step.SendFin? || step.SendPing? {
      SendStepKeepsInv(n, step);
    } else if step.DropActive? || step.FinishClient? {
      ClientDropStepKeepsInv(n, step);
    } else if step.ClientReceive? {
      ReceiveShape(n, step.conn, step.frame, step.io);
      ClientReceiveKeepsInv(n, step.conn, step.frame, step.io,
                            Receive(n.client, step.conn, n.conns[step.conn], step.frame, step.io));
    } else if step.StdinPick? || step.StdinReady? || step.StdinEnd? {
      StdinKeepsInv(n, step);
    } else {
      HandshakeKeepsInv(n, step);
    }
  }
}
