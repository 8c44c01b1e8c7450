/** Client-to-server resynchronisation. */
module FifoUpstream {
  import opened Wire
  import opened Stream
  import opened ClientModel
  import S = ServerModel
  import opened Net
  import opened NetInvariant
  import opened Reading
  import opened Fifo
  import opened FifoRefinement
  import C = NetClientSteps
  import V = NetServerSteps
  import F = NetFencing

  /** `c` is the connection the server reads and the client has committed to. */
  ghost predicate Live(n: Net, c: Conn) {
    n.client.session in n.sessions && n.sessions[n.client.session].active == Some(c) && c in n.conns
  }

  /** A queue the server can read to its end without an error, and unless it was
      cut, up to the last byte the client read. */
  ghost predicate InStep(q: seq<Frame>, rx: nat, next: nat, cut: bool) {
    Walk(q, rx).Some? && (!cut ==> Walk(q, rx).value == next)
  }

  ghost predicate UpSync(s: Fifo) {
    forall c | Live(s.net, c) ::
      InStep(Queue(s.upQ, c), s.net.sessions[s.net.client.session].rx, s.net.client.snd.next, c in s.cut)
  }

  /** `stdinLoop` sends what it just read on a connection it picked before another
      one was committed, and the server already reads that other one. */
  ghost predicate StaleRead(s: Fifo, m: Move) {
    && m.Do? && m.step.StdinRead?
    && exists c :: Live(s.net, c) && c !in s.cut && s.net.reader.Ready? && s.net.reader.conn != c
  }

  // ---- what the client puts on a queue ----

  /** The frames a step of the client's own loops adds to the queue of `c`. */
  lemma PlainUp(n: Net, step: Step)
    requires Enabled(n, step) && !step.StdinRead? && !step.SendFin? && !step.ReplayClient?
    ensures forall f | f in Effect(n, step).up.frames :: Plain(f)
  {
  }

  lemma NextStays(n: Net, step: Step)
    requires Enabled(n, step) && C.OfClient(step) && !step.StdinRead? && !step.CommitHandshake?
    ensures Exec(n, step).client.snd.next == n.client.snd.next
    ensures Exec(n, step).client.session == n.client.session
  {
    if step.ClientReceive? {
      C.ReceiveShape(n, step.conn, step.frame, step.io);
      ReceiveKeepsNext(n.client, step.conn, n.conns[step.conn], step.frame, step.io);
    } else {
      OtherKeepsNext(n, step);
    }
  }

  lemma OtherKeepsNext(n: Net, step: Step)
    requires Enabled(n, step) && C.OfClient(step) && !step.StdinRead? && !step.CommitHandshake? && !step.ClientReceive?
    ensures Exec(n, step).client.snd.next == n.client.snd.next
    ensures Exec(n, step).client.session == n.client.session
  {
  }

  lemma ReceiveKeepsNext(c: Client, conn: Conn, epoch: nat, f: Frame, io: Io)
    ensures Receive(c, conn, epoch, f, io).client.snd.next == c.snd.next
    ensures Receive(c, conn, epoch, f, io).client.session == c.session
  {
  }

  lemma PutPlain(q: map<Conn, seq<Frame>>, sent: Sent, cuts: set<Conn>, c: Conn, rx: nat, next: nat)
    requires InStep(Queue(q, c), rx, next, c in cuts)
    requires forall f | f in sent.frames :: Plain(f)
    ensures InStep(Queue(Put(q, sent, cuts), c), rx, next, c in cuts)
  {
    if sent.conn == c && c !in cuts {
      WalkConcat(Queue(q, c), sent.frames, rx);
      WalkPlain(sent.frames, Walk(Queue(q, c), rx).value);
    }
  }

  // ---- client steps ----

  lemma ClientStepKeepsSync(s: Fifo, step: Step)
    requires Inv(s.net) && UpSync(s) && CanMove(s, Do(step)) && C.OfClient(step)
    requires !step.StdinRead? && !step.SendFin?
    ensures UpSync(Apply(s, Do(step)))
  {
    var s' := Apply(s, Do(step));
    NextStays(s.net, step);
    F.ConnsStay(s.net, step);
    PlainUp(s.net, step);
    F.ClientKeepsSessions(s.net, step);
    forall c | Live(s'.net, c)
      ensures InStep(Queue(s'.upQ, c), s'.net.sessions[s'.net.client.session].rx, s'.net.client.snd.next, c in s'.cut)
    {
      PutPlain(s.upQ, Effect(s.net, step).up, s.cut, c, s.net.sessions[s.net.client.session].rx, s.net.client.snd.next);
    }
  }

  /** Adding one fresh data frame, or the fin, at the end of a queue in step. */
  lemma PutAtEnd(q: seq<Frame>, f: Frame, rx: nat, next: nat)
    requires InStep(q, rx, next, false)
    requires (f.Data? || f.Fin?) && f.offset == next
    ensures InStep(q + [f], rx, next + if f.Data? then |f.payload| else 0, false)
  {
    WalkConcat(q, [f], rx);
  }

  lemma SendFinKeepsSync(s: Fifo, c0: Conn)
    requires Inv(s.net) && UpSync(s) && CanMove(s, Do(SendFin(c0)))
    ensures UpSync(Apply(s, Do(SendFin(c0))))
  {
    var s' := Apply(s, Do(SendFin(c0)));
    var f := Stamp(Fin(s.net.client.session, 0, ClientToServer, s.net.client.finAt), 0, s.net.conns[c0]);
    SendFinEffect(s, c0, f);
    forall c | Live(s'.net, c)
      ensures InStep(Queue(s'.upQ, c), s'.net.sessions[s'.net.client.session].rx, s'.net.client.snd.next, c in s'.cut)
    {
      if c == c0 && c !in s.cut {
        PutAtEnd(Queue(s.upQ, c), f, s.net.sessions[s.net.client.session].rx, s.net.client.snd.next);
      }
    }
  }

  lemma SendFinEffect(s: Fifo, c0: Conn, f: Frame)
    requires CanMove(s, Do(SendFin(c0)))
             && f == Stamp(Fin(s.net.client.session, 0, ClientToServer, s.net.client.finAt), 0, s.net.conns[c0])
    ensures var s' := Apply(s, Do(SendFin(c0)));
            && s'.net == s.net.(up := s'.net.up, down := s'.net.down) && s'.cut == s.cut
            && forall c :: Queue(s'.upQ, c) == Queue(s.upQ, c) + if c == c0 && c !in s.cut then [f] else []
  {
  }

  lemma ReadEffect(n: Net, p: seq<byte>, last: bool)
    requires Enabled(n, StdinRead(p, last))
    ensures var n' := Exec(n, StdinRead(p, last));
            && n'.client.snd.next == n.client.snd.next + |p| && n'.client.session == n.client.session
            && n'.conns == n.conns && n'.sessions == n.sessions
    ensures Effect(n, StdinRead(p, last)).up
            == Sent(n.reader.conn, [Stamp(Data(n.client.session, 0, ClientToServer, n.client.snd.next, p), 0,
                                          n.conns[n.reader.conn])])
  {
    C.ReadShape(n, p, last);
  }

  /** Sending a fresh chunk keeps the ends in step exactly when it does not go to
      a stale connection. */
  lemma StdinReadKeepsSyncIff(s: Fifo, p: seq<byte>, last: bool)
    requires Inv(s.net) && UpSync(s) && CanMove(s, Do(StdinRead(p, last)))
    ensures UpSync(Apply(s, Do(StdinRead(p, last)))) <==> !StaleRead(s, Do(StdinRead(p, last)))
  {
    var n := s.net;
    var s' := Apply(s, Do(StdinRead(p, last)));
    var c0 := n.reader.conn;
    ReadEffect(n, p, last);
    var f := Stamp(Data(n.client.session, 0, ClientToServer, n.client.snd.next, p), 0, n.conns[c0]);
    assert s'.upQ == Put(s.upQ, Sent(c0, [f]), s.cut);
    forall c | Live(n, c)
      ensures Live(s'.net, c)
      ensures InStep(Queue(s'.upQ, c), s'.net.sessions[s'.net.client.session].rx, s'.net.client.snd.next, c in s'.cut)
              <==> (c == c0 || c in s.cut)
    {
      if c == c0 && c !in s.cut {
        PutAtEnd(Queue(s.upQ, c), f, n.sessions[n.client.session].rx, n.client.snd.next);
      } else {
        assert Queue(s'.upQ, c) == Queue(s.upQ, c);
      }
    }
    assert forall c :: Live(s'.net, c) <==> Live(n, c);
  }

  // ---- server steps ----

  /** A data frame that the server reads without giving the connection up is
      skipped, or written as a whole. */
  lemma DataOrGone(s: S.Session, sid: Sid, c: Conn, f: Frame, io: Io)
    requires f.Data? && s.active == Some(c) && !s.closed
    ensures var s' := S.HandleData(s, sid, c, s.epoch, f, io).session;
            s'.active == Some(c) ==>
              || (Judge(s.rx, f.offset, |f.payload|).Duplicate? && s'.rx == s.rx)
              || (Judge(s.rx, f.offset, |f.payload|).Fresh? && s'.rx == s.rx + |f.payload|)
  {
  }

  /** The server reads the frame at the head of its active connection: unless it
      gives the connection up, the rest of the queue is in step again. */
  lemma HeadKeepsStep(cl: Client, conns: map<Conn, nat>, used: set<Conn>, s: S.Session, sid: Sid, c: Conn,
                      q: seq<Frame>, io: Io, next: nat, cut: bool)
    requires q != [] && InStep(q, s.rx, next, cut)
    requires s.active == Some(c) && !s.closed && c in conns && conns[c] == s.epoch && sid == cl.session
    requires GoodUp(cl, conns, used, Packet(c, q[0]))
    ensures var s' := S.Receive(s, sid, c, s.epoch, q[0], io).session;
            s'.active == Some(c) ==> InStep(q[1..], s'.rx, next, cut)
  {
    if q[0].Data? {
      DataOrGone(s, sid, c, q[0], io);
      assert S.IsActive(s, sid, c, q[0]);
    } else {
      F.SessionReceiveDelta(s, sid, c, s.epoch, q[0], io);
    }
  }

  lemma ReadFrame(s: Fifo, c0: Conn, f: Frame, io: Io)
    requires CanMove(s, Do(ServerReceive(c0, f, io)))
    ensures var s' := Apply(s, Do(ServerReceive(c0, f, io)));
            && s'.net.client == s.net.client && s'.net.conns == s.net.conns && s'.cut == s.cut
            && (forall c :: Queue(s'.upQ, c) == if c == c0 then Queue(s.upQ, c)[1..] else Queue(s.upQ, c))
  {
    var step := ServerReceive(c0, f, io);
    F.ServerKeepsClient(s.net, step);
    F.ConnsStay(s.net, step);
    NoUp(s.net, step);
  }

  lemma ServerReceiveKeepsSync(s: Fifo, c0: Conn, f: Frame, io: Io)
    requires Inv(s.net) && QueuesOK(s) && UpSync(s) && CanMove(s, Do(ServerReceive(c0, f, io)))
    ensures UpSync(Apply(s, Do(ServerReceive(c0, f, io))))
  {
    var s' := Apply(s, Do(ServerReceive(c0, f, io)));
    ReadFrame(s, c0, f, io);
    forall c | Live(s'.net, c)
      ensures InStep(Queue(s'.upQ, c), s'.net.sessions[s'.net.client.session].rx, s'.net.client.snd.next, c in s'.cut)
    {
      F.AfterStep(s.net, ServerReceive(c0, f, io), s.net.client.session);
      ServerReadsOne(s, c0, f, io, c);
    }
  }

  lemma ServerReadsOne(s: Fifo, c0: Conn, f: Frame, io: Io, c: Conn)
    requires Inv(s.net) && QueuesOK(s) && UpSync(s) && Enabled(s.net, ServerReceive(c0, f, io)) && HeadIs(s.upQ, c0, f)
    requires s.net.client.session in s.net.sessions && c in s.net.conns
    requires F.SessionAfter(s.net, ServerReceive(c0, f, io), s.net.client.session).active == Some(c)
    ensures InStep(if c == c0 then Queue(s.upQ, c)[1..] else Queue(s.upQ, c),
                   F.SessionAfter(s.net, ServerReceive(c0, f, io), s.net.client.session).rx, s.net.client.snd.next,
                       c in s.cut)
  {
    var n := s.net;
    var sid := n.client.session;
    ReceiveKeepsActive(n, c0, f, io, sid, c);
    assert Live(n, c);
    if c == c0 {
      assert GoodUp(n.client, n.conns, n.used, Packet(c, f));
      HeadKeepsStep(n.client, n.conns, n.used, n.sessions[sid], sid, c, Queue(s.upQ, c), io, n.client.snd.next,
                    c in s.cut);
    }
  }

  lemma ReceiveKeepsActive(n: Net, c0: Conn, f: Frame, io: Io, sid: Sid, c: Conn)
    requires Inv(n) && Enabled(n, ServerReceive(c0, f, io)) && sid in n.sessions && c in n.conns
             && sid == n.client.session
    requires F.SessionAfter(n, ServerReceive(c0, f, io), sid).active == Some(c)
    ensures n.sessions[sid].active == Some(c) && !n.sessions[sid].closed
    ensures n.conns[c] == n.sessions[sid].epoch && n.links[c] == Bound(sid, n.sessions[sid].epoch)
  {
    assert SessionOK(n.sessions[sid]);
    F.SessionReceiveDelta(n.sessions[sid], sid, c0, n.links[c0].epoch, f, io);
  }

  /** Server steps that do not read the active connection: either the session
      stays as it was for this purpose, or it has no committed active connection. */
  lemma OtherServerStepKeepsSync(s: Fifo, step: Step)
    requires Inv(s.net) && UpSync(s) && CanMove(s, Do(step)) && V.OfServer(step) && !step.ServerReceive?
    ensures UpSync(Apply(s, Do(step)))
  {
    var s' := Apply(s, Do(step));
    ServerLeavesUp(s, step);
    forall c | Live(s'.net, c) ensures Carries(s, s', c) {
      ClientSessionOld(s.net, step);
      F.AfterStep(s.net, step, s.net.client.session);
      OtherKeepsLive(s.net, step, c);
    }
    CarriedSync(s, s');
  }

  /** Connection `c` was live before, with the same queue and the same receive offset. */
  ghost predicate Carries(s: Fifo, s': Fifo, c: Conn) {
    && Live(s.net, c) && s'.net.client.session in s'.net.sessions
    && s'.net.sessions[s'.net.client.session].rx == s.net.sessions[s.net.client.session].rx
    && Queue(s'.upQ, c) == Queue(s.upQ, c)
  }

  lemma CarriedSync(s: Fifo, s': Fifo)
    requires UpSync(s) && s'.net.client == s.net.client && s'.cut == s.cut
    requires forall c | Live(s'.net, c) :: Carries(s, s', c)
    ensures UpSync(s')
  {
  }

  lemma ServerLeavesUp(s: Fifo, step: Step)
    requires CanMove(s, Do(step)) && V.OfServer(step) && !step.ServerReceive?
    ensures var s' := Apply(s, Do(step));
            && s'.net == Exec(s.net, step) && s'.net.client == s.net.client && s'.net.conns == s.net.conns
                && s'.cut == s.cut
            && forall c | !step.ServerHello? || c != step.conn :: Queue(s'.upQ, c) == Queue(s.upQ, c)
  {
    F.ServerKeepsClient(s.net, step);
    F.ConnsStay(s.net, step);
    NoUp(s.net, step);
  }

  lemma NoUp(n: Net, step: Step)
    requires Enabled(n, step) && V.OfServer(step)
    ensures Effect(n, step).up == NOTHING
  {
  }

  lemma ClientSessionOld(n: Net, step: Step)
    requires Inv(n) && Enabled(n, step) && n.conns != map[]
    ensures n.client.session in n.sessions
  {
  }

  lemma OtherKeepsLive(n: Net, step: Step, c: Conn)
    requires Inv(n) && Enabled(n, step) && V.OfServer(step) && !step.ServerReceive?
    requires n.client.session in n.sessions && c in n.conns
    requires F.SessionAfter(n, step, n.client.session).active == Some(c)
    ensures n.sessions[n.client.session].active == Some(c)
    ensures F.SessionAfter(n, step, n.client.session).rx == n.sessions[n.client.session].rx
    ensures step.ServerHello? ==> step.conn != c
  {
  }

  // ---- commit ----

  /** Whatever happened before, a commit with its replay brings the connection
      into step: the buffer starts at the server's receive offset, and the
      replay runs from there to the last byte read, and on to the fin. */
  lemma CommitGivesSync(s: Fifo, f: Frame)
    requires Inv(s.net) && QueuesOK(s) && CanMove(s, CommitAndReplay(f)) && !s.net.client.finished
    ensures UpSync(Apply(s, CommitAndReplay(f)))
  {
    var n := s.net;
    var c0 := n.hand.value.conn;
    var s' := Apply(s, CommitAndReplay(f));
    var c' := CommittedClient(n, f);
    CommitFrame(s, f, c');
    NothingBeforeCommit(s);
    forall c | Live(s'.net, c)
      ensures InStep(Queue(s'.upQ, c), s'.net.sessions[s'.net.client.session].rx, s'.net.client.snd.next, c in s'.cut)
    {
      OnlyNewIsLive(n, f, c);
      ReplayInStep(c', Queue(s.upQ, c0), f.epoch, n.sessions[f.session].rx, c0 in s.cut);
    }
  }

  lemma CommittedClient(n: Net, f: Frame) returns (c': Client)
    requires Inv(n) && Enabled(n, CommitHandshake(f)) && !n.client.finished
    ensures Commit(n.client, n.hand.value.conn, n.hand.value.resume, f) == Some(c')
    ensures ClientOK(c') && c'.session == f.session && f.session in n.sessions
            && c'.snd.bufFrom == n.sessions[f.session].rx
  {
    C.AcceptFits(n, f);
    C.CommitMove(n.client, n.hand.value.conn, n.hand.value.resume, f, n.sessions[f.session]);
    c' := Commit(n.client, n.hand.value.conn, n.hand.value.resume, f).value;
  }

  /** What a successful commit with its replay changes at the level of queues. */
  lemma CommitFrame(s: Fifo, f: Frame, c': Client)
    requires CanMove(s, CommitAndReplay(f))
    requires Commit(s.net.client, s.net.hand.value.conn, s.net.hand.value.resume, f) == Some(c')
    ensures var s' := Apply(s, CommitAndReplay(f));
            var c := s.net.hand.value.conn;
            && s'.net.client == c' && s'.net.sessions == s.net.sessions && s'.net.conns == s.net.conns[c := f.epoch]
            && s'.cut == s.cut
            && Queue(s'.upQ, c) == if c in s.cut then Queue(s.upQ, c) else Queue(s.upQ, c) + Replay(c', f.epoch)
  {
    C.CommitShape(s.net, f);
    ReplayWire(Exec(s.net, CommitHandshake(f)), s.net.hand.value.conn);
  }

  /** Before its connection is committed, the client puts no data on it. */
  lemma NothingBeforeCommit(s: Fifo)
    requires Inv(s.net) && QueuesOK(s) && s.net.hand.Some?
    ensures forall g | g in Queue(s.upQ, s.net.hand.value.conn) :: Plain(g)
  {
    var c := s.net.hand.value.conn;
    forall g | g in Queue(s.upQ, c) ensures Plain(g) {
      assert GoodUp(s.net.client, s.net.conns, s.net.used, Packet(c, g));
    }
  }

  lemma OnlyNewIsLive(n: Net, f: Frame, c: Conn)
    requires Inv(n) && Enabled(n, CommitHandshake(f))
    requires f.session in n.sessions && n.sessions[f.session].active == Some(c)
    requires c in n.conns || c == n.hand.value.conn
    ensures c == n.hand.value.conn
  {
    C.AcceptFits(n, f);
    assert ConnsOK(n.client, n.conns, n.links) && LinksOK(n.links, n.sessions, n.used);
  }

  lemma ReplayInStep(c: Client, q: seq<Frame>, epoch: nat, rx: nat, cut: bool)
    requires ClientOK(c) && c.snd.bufFrom == rx && forall f | f in q :: Plain(f)
    ensures InStep(if cut then q else q + Replay(c, epoch), rx, c.snd.next, cut)
  {
    WalkPlain(q, rx);
    var chunks := Chunks(c.session, epoch, ClientToServer, c.snd.bufFrom, c.snd.buf);
    WalkConcat(q, Replay(c, epoch), rx);
    WalkChunks(c.session, epoch, ClientToServer, c.snd.bufFrom, c.snd.buf);
    WalkConcat(chunks, if c.fin then [Fin(c.session, epoch, ClientToServer, c.finAt)] else [], rx);
  }

  lemma DeadCommitKeepsSync(s: Fifo, f: Frame)
    requires Inv(s.net) && UpSync(s) && CanMove(s, CommitAndReplay(f)) && s.net.client.finished
    ensures UpSync(Apply(s, CommitAndReplay(f)))
  {
    C.CommitShape(s.net, f);
  }

  lemma CutKeepsSync(s: Fifo, c: Conn, k: nat, l: nat)
    requires UpSync(s) && CanMove(s, Cut(c, k, l))
    ensures UpSync(Apply(s, Cut(c, k, l)))
  {
    if Live(s.net, c) {
      WalkPrefix(Queue(s.upQ, c), k, s.net.sessions[s.net.client.session].rx);
    }
  }

  /** Once a chunk went elsewhere, the next chunk on the live connection leaves a
      gap: somewhere in its queue the server meets an offset above its own. */
  lemma NextReadLeavesGap(s: Fifo, p: seq<byte>, last: bool, c: Conn)
    requires CanMove(s, Do(StdinRead(p, last))) && Live(s.net, c) && c !in s.cut && s.net.reader.conn == c
    requires var rx := s.net.sessions[s.net.client.session].rx;
             Walk(Queue(s.upQ, c), rx).Some? && Walk(Queue(s.upQ, c), rx).value < s.net.client.snd.next
    ensures var s' := Apply(s, Do(StdinRead(p, last)));
            Walk(Queue(s'.upQ, c), s.net.sessions[s.net.client.session].rx) == None
  {
    ReadEffect(s.net, p, last);
    var f := Stamp(Data(s.net.client.session, 0, ClientToServer, s.net.client.snd.next, p), 0, s.net.conns[c]);
    WalkConcat(Queue(s.upQ, c), [f], s.net.sessions[s.net.client.session].rx);
  }

  /** Every move except a stale read keeps the two ends in step. */
  lemma MoveKeepsSync(s: Fifo, m: Move)
    requires Inv(s.net) && QueuesOK(s) && UpSync(s) && CanMove(s, m) && !StaleRead(s, m)
    ensures UpSync(Apply(s, m))
  {
    match m
    case Cut(c, k, l) => CutKeepsSync(s, c, k, l);
    case CommitAndReplay(f) =>
      if s.net.client.finished { DeadCommitKeepsSync(s, f); } else { CommitGivesSync(s, f); }
    case Do(step) =>
      if step.StdinRead? {
        StdinReadKeepsSyncIff(s, step.chunk, step.last);
      } else if step.SendFin? {
        SendFinKeepsSync(s, step.conn);
      } else if C.OfClient(step) {
        ClientStepKeepsSync(s, step);
      } else if step.ServerReceive? {
        ServerReceiveKeepsSync(s, step.conn, step.frame, step.io);
      } else {
        OtherServerStepKeepsSync(s, step);
      }
  }
}
