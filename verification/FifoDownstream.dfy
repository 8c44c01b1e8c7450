/** Server-to-client resynchronisation. */
module FifoDownstream {
  import opened Wire
  import opened Stream
  import opened ClientModel
  import S = ServerModel
  import opened Net
  import opened NetInvariant
  import opened Reading
  import opened Fifo
  import opened FifoRefinement
  import C = NetClientSteps
  import V = NetServerSteps
  import F = NetFencing

  /** A queue the client can read to its end without an error; if the session
      still sends on the connection and nothing was cut, the end is the last byte
      read from the target. */
  ghost predicate WalkIn(q: seq<Frame>, rx: nat, s: S.Session, c: Conn, cut: bool) {
    Walk(q, rx).Some? && (s.active == Some(c) && !cut ==> Walk(q, rx).value == s.snd.next)
  }

  ghost predicate ChainIn(q: seq<Frame>, from: nat, s: S.Session, c: Conn, cut: bool) {
    Chain(q, from).Some? && (s.active == Some(c) && !cut ==> Chain(q, from).value == s.snd.next)
  }

  ghost predicate DownSync(s: Fifo) {
    s.net.client.active.Some? && s.net.client.session in s.net.sessions ==>
      var c := s.net.client.active.value;
      WalkIn(Queue(s.downQ, c), s.net.client.rx, s.net.sessions[s.net.client.session], c, c in s.cut)
  }

  /** What waits for a client that has not committed yet: one unbroken chain that
      starts at or behind its receive offset, and exactly there if no connection
      was active when the handshake began. */
  ghost predicate HandSync(s: Fifo) {
    s.net.hand.Some? && s.net.hand.value.conn in s.net.links && s.net.links[s.net.hand.value.conn].Bound? ==>
      var c := s.net.hand.value.conn;
      && s.net.links[c].session in s.net.sessions
      && c in s.replayFrom && s.replayFrom[c] <= s.net.client.rx
      && (s.net.hand.value.cold ==> s.replayFrom[c] == s.net.client.rx)
      && ChainIn(Queue(s.downQ, c), s.replayFrom[c], s.net.sessions[s.net.links[c].session], c, c in s.cut)
  }

  /** The client commits while a frame of the replay straddles its receive offset. */
  ghost predicate StraddlingCommit(s: Fifo, m: Move) {
    m.CommitAndReplay? && s.net.hand.Some?
    && exists f :: f in Queue(s.downQ, s.net.hand.value.conn) && Straddles(f, s.net.client.rx)
  }

  // ---- queues ----

  /** The session stays as it was for a reader, or stops sending to it. */
  ghost predicate Quieter(s: S.Session, s': S.Session) {
    (s'.active.None? || s'.active == s.active) && s'.snd.next == s.snd.next
  }

  lemma PutPlain(q: map<Conn, seq<Frame>>, sent: Sent, cuts: set<Conn>, c: Conn, at: nat, s: S.Session, s': S.Session)
    requires forall f | f in sent.frames :: Plain(f)
    requires Quieter(s, s') || s'.active != Some(c)
    ensures WalkIn(Queue(q, c), at, s, c, c in cuts) ==> WalkIn(Queue(Put(q, sent, cuts), c), at, s', c, c in cuts)
    ensures ChainIn(Queue(q, c), at, s, c, c in cuts) ==> ChainIn(Queue(Put(q, sent, cuts), c), at, s', c, c in cuts)
  {
    if sent.conn == c && c !in cuts {
      if Walk(Queue(q, c), at).Some? {
        WalkConcat(Queue(q, c), sent.frames, at);
        WalkPlain(sent.frames, Walk(Queue(q, c), at).value);
      }
      if Chain(Queue(q, c), at).Some? {
        ChainConcat(Queue(q, c), sent.frames, at);
        ChainPlain(sent.frames, Chain(Queue(q, c), at).value);
      }
    }
  }

  /** `readTarget` adds the next frame of the stream to the active connection. */
  lemma PutNext(q: map<Conn, seq<Frame>>, sent: Sent, f: Frame, cuts: set<Conn>, c: Conn, at: nat, s: S.Session,
                s': S.Session)
    requires (f.Data? || f.Fin?) && f.offset == s.snd.next
    requires s'.active == s.active && s'.snd.next == s.snd.next + if f.Data? then |f.payload| else 0
    requires if s.active.Some? then sent == Sent(s.active.value, [f]) else sent.frames == []
    requires f.Data? ==> forall g | g in Queue(q, c) :: !g.Fin?
    ensures WalkIn(Queue(q, c), at, s, c, c in cuts) ==> WalkIn(Queue(Put(q, sent, cuts), c), at, s', c, c in cuts)
    ensures ChainIn(Queue(q, c), at, s, c, c in cuts) ==> ChainIn(Queue(Put(q, sent, cuts), c), at, s', c, c in cuts)
  {
    if s.active == Some(c) && c !in cuts {
      WalkConcat(Queue(q, c), [f], at);
      if Chain(Queue(q, c), at).Some? {
        ChainConcat(Queue(q, c), [f], at);
      }
    } else {
      assert Queue(q, c) + [] == Queue(q, c);
    }
  }

  /** No fin waits on a session's connection before the target has ended. */
  lemma NoFinYet(s: Fifo, c: Conn, sid: Sid)
    requires Inv(s.net) && QueuesOK(s) && c in s.net.links && s.net.links[c].Bound? && s.net.links[c].session == sid
    requires sid in s.net.sessions && !s.net.sessions[sid].s2cFin
    ensures forall f | f in Queue(s.downQ, c) :: !f.Fin?
  {
    forall f | f in Queue(s.downQ, c) ensures !f.Fin? {
      assert GoodDown(s.net.sessions, s.net.links, Packet(c, f));
    }
  }

  // ---- what the steps leave alone ----

  lemma NoDown(n: Net, step: Step)
    requires Enabled(n, step) && C.OfClient(step)
    ensures Effect(n, step).down == NOTHING
  {
  }

  lemma LinksOnly(n: Net, step: Step)
    requires Enabled(n, step) && !step.ServerHello?
    ensures Exec(n, step).links == n.links
  {
  }

  lemma HandStays(n: Net, step: Step)
    requires Enabled(n, step) && !step.StartHandshake? && !step.AbandonHandshake? && !step.CommitHandshake?
    ensures Exec(n, step).hand == n.hand
  {
  }

  // ---- client steps ----

  lemma ClientStepKeepsDown(s: Fifo, step: Step)
    requires Inv(s.net) && CanMove(s, Do(step)) && C.OfClient(step) && !step.ClientReceive?
    ensures DownSync(s) ==> DownSync(Apply(s, Do(step)))
    ensures HandSync(s) ==> HandSync(Apply(s, Do(step)))
  {
    ClientLeavesDown(s, step);
    ClientLeavesRest(s.net, step);
    HandMoves(s.net, step);
    NothingNewDown(s, Apply(s, Do(step)));
  }

  lemma ClientLeavesDown(s: Fifo, step: Step)
    requires CanMove(s, Do(step)) && C.OfClient(step) && !step.ClientReceive?
    ensures var s' := Apply(s, Do(step));
            && s'.net == Exec(s.net, step) && s'.cut == s.cut && s'.replayFrom == s.replayFrom
            && forall c :: Queue(s'.downQ, c) == Queue(s.downQ, c)
  {
    NoDown(s.net, step);
  }

  lemma ClientLeavesRest(n: Net, step: Step)
    requires Enabled(n, step) && C.OfClient(step) && !step.ClientReceive? && !step.CommitHandshake?
    ensures var n' := Exec(n, step);
            && n'.links == n.links && n'.sessions == n.sessions
            && n'.client.rx == n.client.rx && n'.client.session == n.client.session
            && (n'.client.active.None? || n'.client.active == n.client.active)
  {
    LinksOnly(n, step);
    F.ClientKeepsSessions(n, step);
    F.ClientFencing(n, step);
  }

  /** A client step keeps the handshake, drops it, or opens one on a new connection. */
  lemma HandMoves(n: Net, step: Step)
    requires Inv(n) && Enabled(n, step) && C.OfClient(step) && !step.ClientReceive? && !step.CommitHandshake?
    ensures var n' := Exec(n, step);
            n'.hand == n.hand || n'.hand.None? || n'.hand.value.conn !in n.links
  {
    if step.StartHandshake? {
      C.StartShape(n, step.conn);
    } else if step.AbandonHandshake? {
      C.StartShape(n, 0);
    } else {
      HandStays(n, step);
    }
  }

  /** What a client step that reads nothing leaves as it was, and what follows. */
  lemma NothingNewDown(s: Fifo, s': Fifo)
    requires s'.net.links == s.net.links && s'.net.sessions == s.net.sessions && s'.cut == s.cut
             && s'.replayFrom == s.replayFrom
    requires s'.net.client.rx == s.net.client.rx && s'.net.client.session == s.net.client.session
    requires s'.net.client.active.None? || s'.net.client.active == s.net.client.active
    requires s'.net.hand == s.net.hand || s'.net.hand.None? || s'.net.hand.value.conn !in s.net.links
    requires forall c :: Queue(s'.downQ, c) == Queue(s.downQ, c)
    ensures DownSync(s) ==> DownSync(s')
    ensures HandSync(s) ==> HandSync(s')
  {
  }

  /** The client reads the frame at the head of its active connection: unless it
      finishes, the rest of the queue is in step again. */
  lemma HeadKeepsStep(cl: Client, ss: map<Sid, S.Session>, links: map<Conn, Link>, c: Conn, epoch: nat, q: seq<Frame>,
                      io: Io, s: S.Session, cut: bool)
    requires q != [] && WalkIn(q, cl.rx, s, c, cut)
    requires cl.active == Some(c) && !cl.finished && epoch == cl.epoch && c in links
             && links[c] == Bound(cl.session, cl.epoch)
    requires GoodDown(ss, links, Packet(c, q[0]))
    ensures var c' := Receive(cl, c, epoch, q[0], io).client;
            c'.active == Some(c) ==> WalkIn(q[1..], c'.rx, s, c, cut)
  {
  }

  /** What reading one frame changes at the level of queues. */
  lemma ReceiveFrame(s: Fifo, c0: Conn, f: Frame, io: Io)
    requires CanMove(s, Do(ClientReceive(c0, f, io)))
    ensures var s' := Apply(s, Do(ClientReceive(c0, f, io)));
            && s'.net == C.Turn(s.net, Receive(s.net.client, c0, s.net.conns[c0], f, io).client, s.net.reader,
                                Sent(c0, Receive(s.net.client, c0, s.net.conns[c0], f, io).sent))
            && s'.cut == s.cut && s'.replayFrom == s.replayFrom
            && forall c :: Queue(s'.downQ, c) == if c == c0 then Queue(s.downQ, c)[1..] else Queue(s.downQ, c)
  {
    NoDown(s.net, ClientReceive(c0, f, io));
    C.ReceiveShape(s.net, c0, f, io);
  }

  lemma ReadKeepsDownSync(s: Fifo, c0: Conn, f: Frame, io: Io, c': Client, s': Fifo)
    requires Inv(s.net) && QueuesOK(s) && DownSync(s) && c0 in s.net.conns && HeadIs(s.downQ, c0, f)
    requires c' == Receive(s.net.client, c0, s.net.conns[c0], f, io).client && F.ClientDelta(s.net.client, c', c0, f)
    requires s'.net.client == c' && s'.net.sessions == s.net.sessions && s'.cut == s.cut
    requires forall c :: Queue(s'.downQ, c) == if c == c0 then Queue(s.downQ, c)[1..] else Queue(s.downQ, c)
    ensures DownSync(s')
  {
    var n := s.net;
    if c'.active.Some? && n.client.session in n.sessions {
      var c := n.client.active.value;
      if c == c0 {
        assert GoodDown(n.sessions, n.links, Packet(c, f));
        HeadKeepsStep(n.client, n.sessions, n.links, c, n.conns[c], Queue(s.downQ, c), io, n.sessions[n.client.session],
                      c in s.cut);
      }
    }
  }

  lemma ClientReceiveKeepsDown(s: Fifo, c0: Conn, f: Frame, io: Io)
    requires Inv(s.net) && QueuesOK(s) && DownSync(s) && CanMove(s, Do(ClientReceive(c0, f, io)))
    ensures DownSync(Apply(s, Do(ClientReceive(c0, f, io))))
  {
    ReceiveFrame(s, c0, f, io);
    F.ReceiveDelta(s.net.client, c0, s.net.conns[c0], f, io);
    ReadKeepsDownSync(s, c0, f, io, Receive(s.net.client, c0, s.net.conns[c0], f, io).client,
                      Apply(s, Do(ClientReceive(c0, f, io))));
  }

  lemma ClientReceiveKeepsHand(s: Fifo, c0: Conn, f: Frame, io: Io)
    requires Inv(s.net) && HandSync(s) && CanMove(s, Do(ClientReceive(c0, f, io)))
    ensures HandSync(Apply(s, Do(ClientReceive(c0, f, io))))
  {
    ReceiveFrame(s, c0, f, io);
    if s.net.hand.Some? {
      RxOfHand(s.net, ClientReceive(c0, f, io));
    }
  }

  /** A frame read during a handshake moves the client only if the handshake began
      with an active connection, and never back. */
  lemma RxOfHand(n: Net, step: Step)
    requires Inv(n) && n.hand.Some? && Enabled(n, step) && step.ClientReceive?
    ensures n.hand.value.conn != step.conn
    ensures n.client.rx <= Exec(n, step).client.rx
    ensures n.hand.value.cold ==> Exec(n, step).client.rx == n.client.rx
  {
    C.ReceiveShape(n, step.conn, step.frame, step.io);
    C.ReceiveMove(n, step.conn, step.frame, step.io);
    assert HandOK(n.hand.value, n.client, n.conns, n.links, n.used, n.up);
  }

  // ---- server steps ----

  /** A server step that is no hello, seen from one connection bound to one session. */
  ghost predicate FedBy(q: map<Conn, seq<Frame>>, sent: Sent, cuts: set<Conn>, c: Conn, s: S.Session, s': S.Session) {
    forall at: nat ::
      && (WalkIn(Queue(q, c), at, s, c, c in cuts) ==> WalkIn(Queue(Put(q, sent, cuts), c), at, s', c, c in cuts))
      && (ChainIn(Queue(q, c), at, s, c, c in cuts) ==> ChainIn(Queue(Put(q, sent, cuts), c), at, s', c, c in cuts))
  }

  /** What the target pump of a session puts on the wire. */
  function PumpFrame(se: S.Session, sid: Sid, step: Step): Frame
    requires step.TargetRead? || step.TargetEnd?
  {
    if step.TargetRead? then Stamp(Data(0, 0, ServerToClient, se.snd.next, step.bytes), sid, se.epoch)
    else Stamp(Fin(0, 0, ServerToClient, se.snd.next), sid, se.epoch)
  }

  lemma PumpEffect(n: Net, step: Step)
    requires Enabled(n, step) && (step.TargetRead? || step.TargetEnd?)
    ensures var se := n.sessions[step.sid];
            Effect(n, step).down == Sent(ActiveOf(se), if se.active.Some? then [PumpFrame(se, step.sid, step)] else [])
  {
  }

  lemma TargetFeeds(s: Fifo, step: Step, c: Conn, sid: Sid)
    requires Inv(s.net) && QueuesOK(s) && Enabled(s.net, step) && (step.TargetRead? || step.TargetEnd?)
    requires c in s.net.links && s.net.links[c].Bound? && s.net.links[c].session == sid && sid in s.net.sessions
    ensures FedBy(s.downQ, Effect(s.net, step).down, s.cut, c, s.net.sessions[sid], F.SessionAfter(s.net, step, sid))
  {
    var sent := Effect(s.net, step).down;
    PumpEffect(s.net, step);
    if step.sid == sid {
      OwnTargetFeeds(s, step, c, sent);
    } else {
      PumpElsewhere(s.net, step, sid);
      OtherSessionsConn(s.net, step.sid, c, sid);
      NotFed(s.downQ, sent, s.cut, c, s.net.sessions[sid]);
    }
  }

  lemma OwnTargetFeeds(s: Fifo, step: Step, c: Conn, sent: Sent)
    requires Inv(s.net) && QueuesOK(s) && Enabled(s.net, step) && (step.TargetRead? || step.TargetEnd?)
    requires c in s.net.links && s.net.links[c].Bound? && s.net.links[c].session == step.sid
    requires var se := s.net.sessions[step.sid];
             sent == Sent(ActiveOf(se), if se.active.Some? then [PumpFrame(se, step.sid, step)] else [])
    ensures FedBy(s.downQ, sent, s.cut, c, s.net.sessions[step.sid], F.SessionAfter(s.net, step, step.sid))
  {
    PumpAfter(s.net, step);
    NothingBehindFin(s, c, step.sid);
    PumpFeeds(s.downQ, sent, PumpFrame(s.net.sessions[step.sid], step.sid, step), s.cut, c,
              s.net.sessions[step.sid], F.SessionAfter(s.net, step, step.sid));
  }

  /** While a pump still reads, its session has sent no fin. */
  lemma NothingBehindFin(s: Fifo, c: Conn, sid: Sid)
    requires Inv(s.net) && QueuesOK(s) && c in s.net.links && s.net.links[c].Bound? && s.net.links[c].session == sid
    requires sid in s.net.sessions
    ensures s.net.sessions[sid].pump.Reading? ==> forall f | f in Queue(s.downQ, c) :: !f.Fin?
  {
    assert SessionOK(s.net.sessions[sid]);
    if !s.net.sessions[sid].s2cFin {
      NoFinYet(s, c, sid);
    }
  }

  lemma PumpAfter(n: Net, step: Step)
    requires Enabled(n, step) && (step.TargetRead? || step.TargetEnd?)
    ensures var se, se' := n.sessions[step.sid], F.SessionAfter(n, step, step.sid);
            && se'.active == se.active
            && se'.snd.next == se.snd.next + if step.TargetRead? then |step.bytes| else 0
  {
  }

  lemma PumpFeeds(q: map<Conn, seq<Frame>>, sent: Sent, f: Frame, cuts: set<Conn>, c: Conn, s: S.Session, s': S.Session)
    requires (f.Data? || f.Fin?) && f.offset == s.snd.next
    requires s'.active == s.active && s'.snd.next == s.snd.next + if f.Data? then |f.payload| else 0
    requires if s.active.Some? then sent == Sent(s.active.value, [f]) else sent.frames == []
    requires f.Data? ==> forall g | g in Queue(q, c) :: !g.Fin?
    ensures FedBy(q, sent, cuts, c, s, s')
  {
    forall at: nat {
      PutNext(q, sent, f, cuts, c, at, s, s');
    }
  }

  lemma PumpElsewhere(n: Net, step: Step, sid: Sid)
    requires Enabled(n, step) && (step.TargetRead? || step.TargetEnd?) && step.sid != sid && sid in n.sessions
    ensures F.SessionAfter(n, step, sid) == n.sessions[sid]
  {
  }

  lemma NotFed(q: map<Conn, seq<Frame>>, sent: Sent, cuts: set<Conn>, c: Conn, s: S.Session)
    requires sent.frames != [] ==> sent.conn != c
    ensures FedBy(q, sent, cuts, c, s, s)
  {
    assert Queue(Put(q, sent, cuts), c) == Queue(q, c);
  }

  lemma OtherSessionsConn(n: Net, sid: Sid, c: Conn, own: Sid)
    requires Inv(n) && sid in n.sessions && c in n.links && n.links[c].Bound? && n.links[c].session == own != sid
    ensures n.sessions[sid].active != Some(c)
  {
  }

  lemma PlainDown(n: Net, step: Step)
    requires Enabled(n, step) && (step.ServerReceive? || step.ServerDisconnect? || step.ServerClose?
                                  || step.TargetReady?)
    ensures forall f | f in Effect(n, step).down.frames :: Plain(f)
  {
    if step.ServerReceive? {
      RepliesArePlain(n, step.conn, step.frame, step.io);
    } else {
      LossIsPlain(n, step);
    }
  }

  lemma RepliesArePlain(n: Net, c: Conn, f: Frame, io: Io)
    requires Enabled(n, ServerReceive(c, f, io))
    ensures forall g | g in Effect(n, ServerReceive(c, f, io)).down.frames :: Plain(g)
  {
    var l := n.links[c];
    assert Effect(n, ServerReceive(c, f, io)).down.frames
           == S.Receive(n.sessions[l.session], l.session, c, l.epoch, f, io).sent;
    RepliesPlain(n.sessions[l.session], l.session, c, l.epoch, f, io);
  }

  lemma RepliesPlain(s: S.Session, sid: Sid, c: Conn, epoch: nat, f: Frame, io: Io)
    ensures forall g | g in S.Receive(s, sid, c, epoch, f, io).sent :: Plain(g)
  {
  }

  lemma LossIsPlain(n: Net, step: Step)
    requires Enabled(n, step) && (step.ServerDisconnect? || step.ServerClose? || step.TargetReady?)
    ensures forall f | f in Effect(n, step).down.frames :: Plain(f)
  {
  }

  lemma QuietAfter(n: Net, step: Step, sid: Sid)
    requires Enabled(n, step) && sid in n.sessions
    requires step.ServerReceive? || step.ServerDisconnect? || step.ServerClose? || step.TargetReady?
    ensures Quieter(n.sessions[sid], F.SessionAfter(n, step, sid))
  {
    if step.ServerReceive? {
      F.SessionReceiveDelta(n.sessions[sid], sid, step.conn, n.links[step.conn].epoch, step.frame, step.io);
    }
  }

  lemma PlainFeeds(s: Fifo, step: Step, c: Conn, sid: Sid)
    requires CanMove(s, Do(step)) && sid in s.net.sessions
    requires step.ServerReceive? || step.ServerDisconnect? || step.ServerClose? || step.TargetReady?
    ensures FedBy(s.downQ, Effect(s.net, step).down, s.cut, c, s.net.sessions[sid], F.SessionAfter(s.net, step, sid))
  {
    PlainDown(s.net, step);
    QuietAfter(s.net, step, sid);
    forall at: nat {
      PutPlain(s.downQ, Effect(s.net, step).down, s.cut, c, at, s.net.sessions[sid], F.SessionAfter(s.net, step, sid));
    }
  }

  lemma ServerStepKeepsDown(s: Fifo, step: Step)
    requires Inv(s.net) && QueuesOK(s) && CanMove(s, Do(step)) && V.OfServer(step) && !step.ServerHello?
    ensures DownSync(s) ==> DownSync(Apply(s, Do(step)))
    ensures HandSync(s) ==> HandSync(Apply(s, Do(step)))
  {
    var n := s.net;
    var s' := Apply(s, Do(step));
    F.ServerKeepsClient(n, step);
    LinksOnly(n, step);
    HandStays(n, step);
    assert s'.downQ == Put(s.downQ, Effect(n, step).down, s.cut);
    if n.client.active.Some? && n.client.session in n.sessions {
      Feeds(s, step, n.client.active.value, n.client.session);
    }
    if n.hand.Some? && n.hand.value.conn in n.links && n.links[n.hand.value.conn].Bound? {
      Feeds(s, step, n.hand.value.conn, n.links[n.hand.value.conn].session);
    }
  }

  lemma Feeds(s: Fifo, step: Step, c: Conn, sid: Sid)
    requires Inv(s.net) && QueuesOK(s) && CanMove(s, Do(step)) && V.OfServer(step) && !step.ServerHello?
    requires c in s.net.links && s.net.links[c].Bound? && s.net.links[c].session == sid && sid in s.net.sessions
    ensures sid in Exec(s.net, step).sessions
    ensures FedBy(s.downQ, Effect(s.net, step).down, s.cut, c, s.net.sessions[sid], Exec(s.net, step).sessions[sid])
  {
    F.AfterStep(s.net, step, sid);
    if step.TargetRead? || step.TargetEnd? {
      TargetFeeds(s, step, c, sid);
    } else {
      PlainFeeds(s, step, c, sid);
    }
  }

  // ---- hello ----

  /** The queue of a connection that just resumed: accept, replay and fin. */
  lemma ResumeChain(s: S.Session, sid: Sid, c: Conn, accept: Frame, cut: bool)
    requires SessionOK(s) && accept.Accept?
    ensures ChainIn([accept] + S.Replay(s, sid, s.epoch), s.snd.bufFrom, s, c, cut)
  {
    var chunks := Chunks(sid, s.epoch, ServerToClient, s.snd.bufFrom, s.snd.buf);
    var fin := if s.s2cFin then [Fin(sid, s.epoch, ServerToClient, s.snd.next)] else [];
    ChainChunks(sid, s.epoch, ServerToClient, s.snd.bufFrom, s.snd.buf);
    ChainConcat(chunks, fin, s.snd.bufFrom);
    assert ([accept] + S.Replay(s, sid, s.epoch))[1..] == chunks + fin;
  }

  lemma QueuedMeansBound(s: Fifo, c: Conn)
    requires Inv(s.net) && QueuesOK(s) && Queue(s.downQ, c) != []
    ensures c in s.net.links
  {
    assert GoodDown(s.net.sessions, s.net.links, Packet(c, Queue(s.downQ, c)[0]));
  }

  lemma UnboundQueueIsEmpty(s: Fifo, c: Conn)
    requires Inv(s.net) && QueuesOK(s) && c !in s.net.links
    ensures Queue(s.downQ, c) == []
  {
    if Queue(s.downQ, c) != [] {
      QueuedMeansBound(s, c);
    }
  }

  /** Where the replay of a handshake starts: never above what the client has,
      and exactly there if no connection was active when it began. */
  lemma ReplayStart(n: Net, c: Conn, f: Frame, newSid: Sid, ok: bool, io: Io)
    requires Inv(n) && Enabled(n, ServerHello(c, f, newSid, ok, io)) && f.resume
    requires f.session in n.sessions && S.Resume(n.sessions[f.session], f.session, c, f, !ok, io).Resumed?
    ensures var from := S.Resume(n.sessions[f.session], f.session, c, f, !ok, io).session.snd.bufFrom;
            && from <= n.client.rx
            && (n.hand.Some? && n.hand.value.conn == c && n.hand.value.cold ==> from == n.client.rx)
  {
    V.ResumeAccepts(n, c, f);
    if n.hand.Some? && n.hand.value.conn == c && n.hand.value.cold {
      assert HandOK(n.hand.value, n.client, n.conns, n.links, n.used, n.up);
      assert Agree(n.client, n.sessions[f.session]);
      assert f.s2cRx == n.client.rx;
    }
  }

  lemma ResumedIsOK(n: Net, c: Conn, f: Frame, newSid: Sid, ok: bool, io: Io)
    requires Inv(n) && Enabled(n, ServerHello(c, f, newSid, ok, io)) && f.resume
    requires f.session in n.sessions && S.Resume(n.sessions[f.session], f.session, c, f, !ok, io).Resumed?
    ensures var r := S.Resume(n.sessions[f.session], f.session, c, f, !ok, io);
            SessionOK(r.session) && r.session.active == Some(c) && r.accept.Accept?
                && r.replay == S.Replay(r.session, f.session, r.session.epoch)
  {
    V.ResumeAccepts(n, c, f);
    assert GoodUp(n.client, n.conns, n.used, Packet(c, f));
    V.ResumedSession(n.client, n.sessions[f.session], f.session, c, f, !ok, io, n.serverLimit);
  }

  /** What a connection that a hello just bound looks like to the client. */
  ghost predicate FreshlyBound(s: Fifo, c: Conn, rx: nat, cold: bool) {
    && c in s.net.links && s.net.links[c].Bound? && s.net.links[c].session in s.net.sessions
    && c in s.replayFrom && s.replayFrom[c] <= rx && (cold ==> s.replayFrom[c] == rx)
    && ChainIn(Queue(s.downQ, c), s.replayFrom[c], s.net.sessions[s.net.links[c].session], c, c in s.cut)
  }

  ghost predicate ColdHand(n: Net, c: Conn) {
    n.hand.Some? && n.hand.value.conn == c && n.hand.value.cold
  }

  /** The queues after a hello: the frames go to the connection it arrived on. */
  lemma HelloQueue(s: Fifo, step: Step)
    requires Inv(s.net) && QueuesOK(s) && CanMove(s, Do(step)) && step.ServerHello?
    ensures var down := Effect(s.net, step).down;
            down.conn == step.conn &&
            Queue(Apply(s, Do(step)).downQ, step.conn) == if step.conn in s.cut then [] else down.frames
  {
    UnboundQueueIsEmpty(s, step.conn);
    HelloSends(s.net, step.conn, step.frame, step.newSid, step.ok, step.io);
  }

  lemma FirstHelloChain(s: Fifo, c: Conn, f: Frame, newSid: Sid, io: Io)
    requires Inv(s.net) && QueuesOK(s) && CanMove(s, Do(ServerHello(c, f, newSid, true, io))) && !f.resume
    ensures FreshlyBound(Apply(s, Do(ServerHello(c, f, newSid, true, io))), c, 0, true)
  {
    var accept := Accept(newSid, 1, 0, 0);
    var s' := Apply(s, Do(ServerHello(c, f, newSid, true, io)));
    HelloQueue(s, ServerHello(c, f, newSid, true, io));
    HelloSends(s.net, c, f, newSid, true, io);
    FirstHelloBinds(s, c, f, newSid, io);
    assert [accept] + S.Replay(S.Fresh1(c), newSid, 1) == [accept];
    BoundWithReplay(s', c, newSid, S.Fresh1(c), accept, 0, true);
  }

  lemma BoundWithReplay(s': Fifo, c: Conn, sid: Sid, se: S.Session, accept: Frame, rx: nat, cold: bool)
    requires SessionOK(se) && accept.Accept? && sid in s'.net.sessions && s'.net.sessions[sid] == se
    requires c in s'.net.links && s'.net.links[c] == Bound(sid, se.epoch)
    requires c in s'.replayFrom && s'.replayFrom[c] == se.snd.bufFrom <= rx && (cold ==> se.snd.bufFrom == rx)
    requires if c in s'.cut then Queue(s'.downQ, c) == []
             else Queue(s'.downQ, c) == [accept] + S.Replay(se, sid, se.epoch)
    ensures FreshlyBound(s', c, rx, cold)
  {
    ResumeChain(se, sid, c, accept, c in s'.cut);
  }

  lemma FirstHelloBinds(s: Fifo, c: Conn, f: Frame, newSid: Sid, io: Io)
    requires CanMove(s, Do(ServerHello(c, f, newSid, true, io))) && !f.resume
    ensures var s' := Apply(s, Do(ServerHello(c, f, newSid, true, io)));
            && c in s'.net.links && s'.net.links[c] == Bound(newSid, 1) && s'.cut == s.cut
            && newSid in s'.net.sessions && s'.net.sessions[newSid] == S.Fresh1(c)
            && c in s'.replayFrom && s'.replayFrom[c] == 0
  {
    V.HelloShape(s.net, c, f, newSid, true, io);
  }

  lemma ResumeHelloChain(s: Fifo, c: Conn, f: Frame, newSid: Sid, ok: bool, io: Io, r: S.Resumed)
    requires Inv(s.net) && QueuesOK(s) && CanMove(s, Do(ServerHello(c, f, newSid, ok, io))) && f.resume
    requires f.session != 0 && f.session in s.net.sessions
             && r == S.Resume(s.net.sessions[f.session], f.session, c, f, !ok, io) && r.Resumed?
    ensures FreshlyBound(Apply(s, Do(ServerHello(c, f, newSid, ok, io))), c, s.net.client.rx, ColdHand(s.net, c))
  {
    HelloQueue(s, ServerHello(c, f, newSid, ok, io));
    V.HelloShape(s.net, c, f, newSid, ok, io);
    HelloSends(s.net, c, f, newSid, ok, io);
    ReplayStart(s.net, c, f, newSid, ok, io);
    ResumedIsOK(s.net, c, f, newSid, ok, io);
    ResumeChain(r.session, f.session, c, r.accept, c in s.cut);
  }

  /** What a hello does to the connection it arrives on. */
  lemma HelloChain(s: Fifo, c: Conn, f: Frame, newSid: Sid, ok: bool, io: Io)
    requires Inv(s.net) && QueuesOK(s) && CanMove(s, Do(ServerHello(c, f, newSid, ok, io)))
    requires s.net.hand.Some? && s.net.hand.value.conn == c
    ensures var s' := Apply(s, Do(ServerHello(c, f, newSid, ok, io)));
            c in s'.net.links && s'.net.links[c].Bound? ==> FreshlyBound(s', c, s.net.client.rx, s.net.hand.value.cold)
  {
    var n := s.net;
    FirstHelloFits(n, c, f);
    if !f.resume && ok {
      FirstHelloChain(s, c, f, newSid, io);
    } else if f.resume && f.session != 0 && f.session in n.sessions
        && S.Resume(n.sessions[f.session], f.session, c, f, !ok, io).Resumed? {
      ResumeHelloChain(s, c, f, newSid, ok, io, S.Resume(n.sessions[f.session], f.session, c, f, !ok, io));
    } else {
      V.HelloShape(n, c, f, newSid, ok, io);
    }
  }

  lemma FirstHelloFits(n: Net, c: Conn, f: Frame)
    requires Inv(n) && Packet(c, f) in n.up && f.Hello?
    ensures n.hand.Some? && n.hand.value.conn == c && !f.resume ==> n.client.rx == 0
  {
    if n.hand.Some? && n.hand.value.conn == c {
      assert HandOK(n.hand.value, n.client, n.conns, n.links, n.used, n.up);
    }
  }

  lemma HelloSends(n: Net, c: Conn, f: Frame, newSid: Sid, ok: bool, io: Io)
    requires Enabled(n, ServerHello(c, f, newSid, ok, io))
    ensures var r := Effect(n, ServerHello(c, f, newSid, ok, io));
            && r.up == NOTHING && r.down.conn == c
            && (!f.resume && ok ==> r.down.frames == [Accept(newSid, 1, 0, 0)])
            && (f.resume && f.session != 0 && f.session in n.sessions
                && S.Resume(n.sessions[f.session], f.session, c, f, !ok, io).Resumed? ==>
                  var q := S.Resume(n.sessions[f.session], f.session, c, f, !ok, io);
                  r.down.frames == [q.accept] + q.replay)
  {
  }

  /** What a hello leaves alone at the level of queues. */
  ghost predicate HelloFrame(s: Fifo, c: Conn, s': Fifo) {
    && s'.net.client == s.net.client && s'.net.hand == s.net.hand && s'.cut == s.cut
    && c in s'.net.links && s'.net.links == s.net.links[c := s'.net.links[c]]
    && (forall d | d != c :: Queue(s'.downQ, d) == Queue(s.downQ, d))
    && (forall d | d != c && d in s.replayFrom :: d in s'.replayFrom && s'.replayFrom[d] == s.replayFrom[d])
  }

  lemma HelloHasFrame(s: Fifo, step: Step)
    requires CanMove(s, Do(step)) && step.ServerHello?
    ensures HelloFrame(s, step.conn, Apply(s, Do(step)))
  {
    F.ServerKeepsClient(s.net, step);
    HandStays(s.net, step);
    HelloSends(s.net, step.conn, step.frame, step.newSid, step.ok, step.io);
    HelloLinks(s.net, step.conn, step.frame, step.newSid, step.ok, step.io);
  }

  /** To a connection other than its own, a hello can only end the session's sending. */
  ghost predicate SeenFrom(d: Conn, sid: Sid, ss: map<Sid, S.Session>, ss': map<Sid, S.Session>)
    requires sid in ss
  {
    sid in ss' && (ss'[sid].active == Some(d) ==> ss[sid].active == Some(d) && ss'[sid].snd.next == ss[sid].snd.next)
  }

  lemma HelloFrameKeepsDown(s: Fifo, c: Conn, s': Fifo)
    requires DownSync(s) && HelloFrame(s, c, s')
    requires s.net.client.active.Some? ==>
               (s.net.client.session in s.net.sessions && s.net.client.active != Some(c)
                && SeenFrom(s.net.client.active.value, s.net.client.session, s.net.sessions, s'.net.sessions))
    ensures DownSync(s')
  {
  }

  lemma HelloFrameKeepsHand(s: Fifo, c: Conn, s': Fifo)
    requires HandSync(s) && HelloFrame(s, c, s') && s.net.hand.Some? && s.net.hand.value.conn != c
    requires var d := s.net.hand.value.conn;
             d in s.net.links && s.net.links[d].Bound? ==>
               s.net.links[d].session in s.net.sessions
                   && SeenFrom(d, s.net.links[d].session, s.net.sessions, s'.net.sessions)
    ensures HandSync(s')
  {
  }

  lemma HelloKeepsDownSync(s: Fifo, step: Step)
    requires Inv(s.net) && DownSync(s) && CanMove(s, Do(step)) && step.ServerHello?
    ensures DownSync(Apply(s, Do(step)))
  {
    HelloHasFrame(s, step);
    if s.net.client.active.Some? {
      OthersSeeHello(s.net, step, s.net.client.active.value, s.net.client.session);
    }
    HelloFrameKeepsDown(s, step.conn, Apply(s, Do(step)));
  }

  lemma OwnHelloKeepsHand(s: Fifo, step: Step)
    requires Inv(s.net) && QueuesOK(s) && CanMove(s, Do(step)) && step.ServerHello?
    requires s.net.hand.Some? && s.net.hand.value.conn == step.conn
    ensures HandSync(Apply(s, Do(step)))
  {
    HelloHasFrame(s, step);
    HelloChain(s, step.conn, step.frame, step.newSid, step.ok, step.io);
    BoundGivesHand(Apply(s, Do(step)), step.conn);
  }

  lemma BoundGivesHand(s: Fifo, c: Conn)
    requires s.net.hand.Some? && s.net.hand.value.conn == c
    requires c in s.net.links && s.net.links[c].Bound? ==> FreshlyBound(s, c, s.net.client.rx, s.net.hand.value.cold)
    ensures HandSync(s)
  {
  }

  lemma OtherHelloKeepsHand(s: Fifo, step: Step)
    requires Inv(s.net) && HandSync(s) && CanMove(s, Do(step)) && step.ServerHello?
    requires s.net.hand.Some? && s.net.hand.value.conn != step.conn
    ensures HandSync(Apply(s, Do(step)))
  {
    HelloHasFrame(s, step);
    var d := s.net.hand.value.conn;
    if d in s.net.links && s.net.links[d].Bound? {
      OthersSeeHello(s.net, step, d, s.net.links[d].session);
    }
    HelloFrameKeepsHand(s, step.conn, Apply(s, Do(step)));
  }

  lemma HelloKeepsHandSync(s: Fifo, step: Step)
    requires Inv(s.net) && QueuesOK(s) && HandSync(s) && CanMove(s, Do(step)) && step.ServerHello?
    ensures HandSync(Apply(s, Do(step)))
  {
    if s.net.hand.Some? && s.net.hand.value.conn == step.conn {
      OwnHelloKeepsHand(s, step);
    } else if s.net.hand.Some? {
      OtherHelloKeepsHand(s, step);
    } else {
      HandStays(s.net, step);
    }
  }

  lemma HelloLinks(n: Net, c: Conn, f: Frame, newSid: Sid, ok: bool, io: Io)
    requires Enabled(n, ServerHello(c, f, newSid, ok, io))
    ensures var n' := Exec(n, ServerHello(c, f, newSid, ok, io));
            c in n'.links && n'.links == n.links[c := n'.links[c]]
  {
    V.HelloShape(n, c, f, newSid, ok, io);
  }

  lemma OthersSeeHello(n: Net, step: Step, d: Conn, sid: Sid)
    requires Inv(n) && Enabled(n, step) && step.ServerHello?
    requires d in n.links && n.links[d].Bound? && n.links[d].session == sid
    ensures d != step.conn && sid in n.sessions && SeenFrom(d, sid, n.sessions, Exec(n, step).sessions)
  {
    assert LinkOK(n.links[d], n.sessions);
    F.AfterStep(n, step, sid);
  }

  // ---- commit ----

  /** A commit leaves the client in step exactly when no frame waiting on the new
      connection straddles its receive offset. */
  lemma CommitGivesDownIff(s: Fifo, f: Frame)
    requires Inv(s.net) && QueuesOK(s) && HandSync(s) && CanMove(s, CommitAndReplay(f)) && !s.net.client.finished
    ensures DownSync(Apply(s, CommitAndReplay(f))) <==> !StraddlingCommit(s, CommitAndReplay(f))
    ensures HandSync(Apply(s, CommitAndReplay(f)))
    ensures s.net.hand.value.cold ==> !StraddlingCommit(s, CommitAndReplay(f))
  {
    var n := s.net;
    var c := n.hand.value.conn;
    CommitLeavesDown(s, f);
    FinsAhead(s, c, f.session);
    BehindNext(n, f.session);
    AcceptThenChain(Queue(s.downQ, c), s.replayFrom[c], n.client.rx, n.sessions[f.session], c, c in s.cut);
    if n.hand.value.cold {
      NoStraddleAtStart(Queue(s.downQ, c), n.client.rx);
    }
  }

  lemma CommitLeavesDown(s: Fifo, f: Frame)
    requires Inv(s.net) && CanMove(s, CommitAndReplay(f)) && !s.net.client.finished
    ensures f.session in s.net.sessions && s.net.links[s.net.hand.value.conn] == Bound(f.session, f.epoch)
    ensures s.net.client.session == 0 || s.net.client.session == f.session
    ensures var s' := Apply(s, CommitAndReplay(f));
            var c := s.net.hand.value.conn;
            && s'.net.hand.None? && s'.net.sessions == s.net.sessions && s'.cut == s.cut
            && s'.net.client.active == Some(c) && s'.net.client.session == f.session
                && s'.net.client.rx == s.net.client.rx
            && Queue(s'.downQ, c) == Queue(s.downQ, c)[1..]
  {
    var n := s.net;
    C.CommitShape(n, f);
    C.AcceptFits(n, f);
    C.CommitMove(n.client, n.hand.value.conn, n.hand.value.resume, f, n.sessions[f.session]);
    ReplayWire(Exec(n, CommitHandshake(f)), n.hand.value.conn);
  }

  lemma FinsAhead(s: Fifo, c: Conn, sid: Sid)
    requires Inv(s.net) && QueuesOK(s) && c in s.net.links && s.net.links[c].Bound? && s.net.links[c].session == sid
             && sid in s.net.sessions
    requires s.net.client.session == 0 || s.net.client.session == sid
    ensures forall f | f in Queue(s.downQ, c) && f.Fin? :: s.net.client.rx <= f.offset
  {
    BehindNext(s.net, sid);
    forall f | f in Queue(s.downQ, c) && f.Fin? ensures s.net.client.rx <= f.offset {
      assert GoodDown(s.net.sessions, s.net.links, Packet(c, f));
      assert SessionOK(s.net.sessions[sid]);
    }
  }

  lemma BehindNext(n: Net, sid: Sid)
    requires Inv(n) && sid in n.sessions && (n.client.session == 0 || n.client.session == sid)
    ensures n.client.rx <= n.sessions[sid].snd.next
  {
    assert SessionOK(n.sessions[sid]);
  }

  lemma AcceptThenChain(q: seq<Frame>, from: nat, rx: nat, s: S.Session, c: Conn, cut: bool)
    requires q != [] && q[0].Accept? && ChainIn(q, from, s, c, cut) && from <= rx <= s.snd.next
    requires forall f | f in q && f.Fin? :: rx <= f.offset
    ensures WalkIn(q[1..], rx, s, c, cut) <==> forall f | f in q :: !Straddles(f, rx)
  {
    assert q == [q[0]] + q[1..];
    WalkOverChain(q[1..], from, rx);
    assert Chain(q, from) == Chain(q[1..], from);
  }

  lemma DeadCommitKeepsDown(s: Fifo, f: Frame)
    requires Inv(s.net) && CanMove(s, CommitAndReplay(f)) && s.net.client.finished
    ensures DownSync(Apply(s, CommitAndReplay(f))) && HandSync(Apply(s, CommitAndReplay(f)))
  {
    C.CommitShape(s.net, f);
  }

  lemma CutKeepsDown(s: Fifo, c: Conn, k: nat, l: nat)
    requires CanMove(s, Cut(c, k, l))
    ensures DownSync(s) ==> DownSync(Apply(s, Cut(c, k, l)))
    ensures HandSync(s) ==> HandSync(Apply(s, Cut(c, k, l)))
  {
    if DownSync(s) && s.net.client.active == Some(c) && s.net.client.session in s.net.sessions {
      WalkPrefix(Queue(s.downQ, c), l, s.net.client.rx);
    }
    if HandSync(s) && s.net.hand.Some? && s.net.hand.value.conn == c && c in s.net.links && s.net.links[c].Bound? {
      ChainPrefix(Queue(s.downQ, c), l, s.replayFrom[c]);
    }
  }

  /** Every move except a straddling commit keeps the client in step. */
  lemma MoveKeepsDown(s: Fifo, m: Move)
    requires Inv(s.net) && QueuesOK(s) && DownSync(s) && HandSync(s) && CanMove(s, m) && !StraddlingCommit(s, m)
    ensures DownSync(Apply(s, m))
  {
    match m
    case Cut(c, k, l) => CutKeepsDown(s, c, k, l);
    case CommitAndReplay(f) =>
      if s.net.client.finished { DeadCommitKeepsDown(s, f); } else { CommitGivesDownIff(s, f); }
    case Do(step) =>
      if step.ClientReceive? {
        ClientReceiveKeepsDown(s, step.conn, step.frame, step.io);
      } else if C.OfClient(step) {
        ClientStepKeepsDown(s, step);
      } else if step.ServerHello? {
        HelloKeepsDownSync(s, step);
      } else {
        ServerStepKeepsDown(s, step);
      }
  }

  /** Every move keeps the pending handshake's chain. */
  lemma MoveKeepsHand(s: Fifo, m: Move)
    requires Inv(s.net) && QueuesOK(s) && HandSync(s) && CanMove(s, m)
    ensures HandSync(Apply(s, m))
  {
    match m
    case Cut(c, k, l) => CutKeepsDown(s, c, k, l);
    case CommitAndReplay(f) =>
      if s.net.client.finished { DeadCommitKeepsDown(s, f); } else { CommitGivesDownIff(s, f); }
    case Do(step) =>
      if step.ClientReceive? {
        ClientReceiveKeepsHand(s, step.conn, step.frame, step.io);
      } else if C.OfClient(step) {
        ClientStepKeepsDown(s, step);
      } else if step.ServerHello? {
        HelloKeepsHandSync(s, step);
      } else {
        ServerStepKeepsDown(s, step);
      }
  }
}
