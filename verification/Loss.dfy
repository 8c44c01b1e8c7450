/** What can still arrive. A closed session sends nothing any more, so from then on
    the queues decide how far stdout can get; while it is open, everything can
    arrive. */
module Loss {
  import opened Wire
  import opened ClientModel
  import S = ServerModel
  import opened Net
  import opened NetInvariant
  import opened Reading
  import opened Fifo
  import opened FifoRefinement
  import opened FifoPaths
  import opened Outlook
  import T = FifoTheorems
  import D = FifoDownstream
  import F = NetFencing
  import N = NetSafety
  import C = NetClientSteps
  import V = NetServerSteps
  import R = Recovery

  ghost predicate IsClosed(n: Net) {
    n.client.session != 0 && n.client.session in n.sessions && n.sessions[n.client.session].closed
  }

  // ---- what a closed session still sends ----

  ghost predicate NoneOf(frames: seq<Frame>, sid: Sid) {
    forall g | g in frames :: g.Unstamped() || g.Session() != sid
  }

  lemma HelloSendsNone(n: Net, c: Conn, f: Frame, newSid: Sid, ok: bool, io: Io, sid: Sid)
    requires Inv(n) && Enabled(n, ServerHello(c, f, newSid, ok, io)) && sid in n.sessions && n.sessions[sid].closed
    ensures NoneOf(HelloAtServer(n, c, f, newSid, ok, io).down.frames, sid)
  {
    if f.resume && f.session in n.sessions && f.session != sid {
      var r := S.Resume(n.sessions[f.session], f.session, c, f, !ok, io);
      if r.Resumed? {
        ReplaySession(r.session, f.session, r.session.epoch);
      }
    }
  }

  lemma ReplaySession(s: S.Session, sid: Sid, epoch: nat)
    ensures forall g | g in S.Replay(s, sid, epoch) :: g.Session() == sid
  {
    ChainChunks(sid, epoch, ServerToClient, s.snd.bufFrom, s.snd.buf);
  }

  lemma ReceiveSendsNone(n: Net, c: Conn, f: Frame, io: Io, sid: Sid)
    requires Inv(n) && Enabled(n, ServerReceive(c, f, io)) && sid in n.sessions && n.sessions[sid].closed
    ensures NoneOf(Effect(n, ServerReceive(c, f, io)).down.frames, sid)
  {
    var l := n.links[c];
    if l.session != sid {
      assert LinkOK(l, n.sessions);
      forall g | g in S.Receive(n.sessions[l.session], l.session, c, l.epoch, f, io).sent
        ensures g.Unstamped() || g.Session() != sid
      {
        V.ReceiveReplies(n.sessions[l.session], l.session, c, l.epoch, f, io, g);
      }
    }
  }

  lemma OthersSendNone(n: Net, step: Step, sid: Sid)
    requires Inv(n) && Enabled(n, step) && sid in n.sessions && n.sessions[sid].closed
    requires !step.ServerHello? && !step.ServerReceive?
    ensures NoneOf(Effect(n, step).down.frames, sid)
  {
    assert SessionOK(n.sessions[sid]);
    if step.TargetRead? || step.TargetEnd? {
      D.PumpEffect(n, step);
    } else if C.OfClient(step) {
      D.NoDown(n, step);
    } else {
      LossSendsNone(n, step, sid);
    }
  }

  lemma LossSendsNone(n: Net, step: Step, sid: Sid)
    requires Enabled(n, step) && sid in n.sessions && n.sessions[sid].closed && n.sessions[sid].active.None?
    requires step.ServerDisconnect? || step.ServerClose? || step.TargetReady?
    ensures NoneOf(Effect(n, step).down.frames, sid)
  {
  }

  lemma SendsNone(n: Net, step: Step, sid: Sid)
    requires Inv(n) && Enabled(n, step) && sid in n.sessions && n.sessions[sid].closed
    ensures NoneOf(Effect(n, step).down.frames, sid)
  {
    if step.ServerHello? {
      HelloSendsNone(n, step.conn, step.frame, step.newSid, step.ok, step.io, sid);
    } else if step.ServerReceive? {
      ReceiveSendsNone(n, step.conn, step.frame, step.io, sid);
    } else {
      OthersSendNone(n, step, sid);
    }
  }

  // ---- no move brings what was not coming ----

  /** The session stays closed; the target gets nothing more, and stdout loses nothing. */
  ghost predicate Ends(n: Net, n': Net) {
    && IsClosed(n) && IsClosed(n') && n'.client.session == n.client.session
    && n'.sessions[n.client.session].targetWritten == n.sessions[n.client.session].targetWritten
    && n.client.stdout <= n'.client.stdout
  }

  lemma StepEnds(n: Net, step: Step)
    requires Inv(n) && IsClosed(n) && Enabled(n, step)
    ensures Ends(n, Exec(n, step))
  {
    var sid := n.client.session;
    assert SessionOK(n.sessions[sid]);
    F.ServerFencing(n, step, sid);
    F.SessionsLater(n, step, sid);
    F.ClientLater(n, step);
  }

  /** On the connections a client waits on, a closed session leaves only chatter. */
  lemma OnlyChatter(n: Net, n': Net, c: Conn, sent: Sent)
    requires Inv(n') && n'.client == n.client && n'.hand == n.hand && n.client.session != 0
    requires n.client.active == Some(c) || (n.hand.Some? && n.hand.value.conn == c)
    requires sent.conn == c && NoneOf(sent.frames, n.client.session)
    requires forall f | f in sent.frames :: Packet(c, f) in n'.down
    ensures Chatter(sent.frames)
  {
    forall g | g in sent.frames ensures g.Unstamped() {
      assert GoodDown(n'.sessions, n'.links, Packet(c, g));
    }
  }

  /** What a server step adds to a queue. */
  function Added(sent: Sent, cut: set<Conn>, c: Conn): seq<Frame> {
    if sent.conn == c && c !in cut then sent.frames else []
  }

  lemma ServerAdds(s: Fifo, step: Step)
    requires CanMove(s, Do(step)) && V.OfServer(step)
    ensures var s' := Apply(s, Do(step));
            && s'.net == Exec(s.net, step) && s'.net.client == s.net.client && s'.net.hand == s.net.hand
            && forall c :: Queue(s'.downQ, c) == Queue(s.downQ, c) + Added(Effect(s.net, step).down, s.cut, c)
  {
    F.ServerKeepsClient(s.net, step);
    D.HandStays(s.net, step);
  }

  lemma ServerChats(n: Net, step: Step, cut: set<Conn>, c: Conn)
    requires Inv(n) && IsClosed(n) && Enabled(n, step) && V.OfServer(step)
    requires n.client.active == Some(c) || (n.hand.Some? && n.hand.value.conn == c)
    ensures Chatter(Added(Effect(n, step).down, cut, c))
  {
    var sent := Effect(n, step).down;
    SendsNone(n, step, n.client.session);
    if sent.conn == c {
      ServerOnly(n, step);
      N.StepKeepsInv(n, step);
      OnlyChatter(n, Exec(n, step), c, sent);
    }
  }

  lemma ServerOnly(n: Net, step: Step)
    requires Enabled(n, step) && V.OfServer(step)
    ensures Exec(n, step).client == n.client && Exec(n, step).hand == n.hand
    ensures var sent := Effect(n, step).down; forall f | f in sent.frames :: Packet(sent.conn, f) in Exec(n, step).down
  {
    F.ServerKeepsClient(n, step);
    D.HandStays(n, step);
  }

  lemma ServerBack(s: Fifo, step: Step, m: nat)
    requires R.Good(s) && IsClosed(s.net) && CanMove(s, Do(step)) && V.OfServer(step)
    ensures Coming(Apply(s, Do(step)), m) ==> Coming(s, m)
  {
    var n, s', sent := s.net, Apply(s, Do(step)), Effect(s.net, step).down;
    ServerAdds(s, step);
    var j, k := [], [];
    if n.client.active.Some? {
      ServerChats(n, step, s.cut, n.client.active.value);
      j := Added(sent, s.cut, n.client.active.value);
    }
    if n.hand.Some? {
      ServerChats(n, step, s.cut, n.hand.value.conn);
      k := Added(sent, s.cut, n.hand.value.conn);
    }
    if Coming(s', m) {
      BehindWith(s, s', k);
      ComesOfChatter(Ahead(s), j, Behind(s), k, s.net.client.rx, m);
    }
  }

  lemma BehindWith(s: Fifo, s': Fifo, k: seq<Frame>)
    requires s'.net.client == s.net.client && s'.net.hand == s.net.hand && Chatter(k)
    requires s.net.hand.Some? ==>
               var c := s.net.hand.value.conn; Queue(s'.downQ, c) == Queue(s.downQ, c) + k
    ensures Behind(s') == With(Behind(s), k)
  {
    if s.net.hand.Some? {
      var q := Queue(s.downQ, s.net.hand.value.conn);
      if q != [] {
        assert (q + k)[0] == q[0] && (q + k)[1..] == q[1..] + k;
      } else if k != [] {
        assert q + k == k && k[0] in k;
      }
    }
  }

  /** The frame at the head of the active connection's queue. */
  lemma HeadFits(s: Fifo, c: Conn)
    requires R.Good(s) && s.net.client.active == Some(c) && Queue(s.downQ, c) != []
    ensures c in s.net.conns && Packet(c, Queue(s.downQ, c)[0]) in s.net.down
    ensures Fits(s.net.client, c, Queue(s.downQ, c)[0])
  {
    var n, f := s.net, Queue(s.downQ, c)[0];
    assert f in Queue(s.downQ, c);
    assert GoodDown(n.sessions, n.links, Packet(c, f));
    assert ConnsOK(n.client, n.conns, n.links);
    if f.Ack? {
      N.ClientAckFits(n, c, f);
    }
  }

  /** What reading one frame leaves as it was, and what it takes. */
  lemma ReceiveSeen(s: Fifo, c: Conn, f: Frame, io: Io)
    requires CanMove(s, Do(ClientReceive(c, f, io)))
    ensures var s' := Apply(s, Do(ClientReceive(c, f, io)));
            && s'.net.client == Receive(s.net.client, c, s.net.conns[c], f, io).client
            && s'.net.hand == s.net.hand && s'.net.sessions == s.net.sessions
            && forall d :: Queue(s'.downQ, d) == if d == c then Queue(s.downQ, d)[1..] else Queue(s.downQ, d)
  {
    D.ReceiveFrame(s, c, f, io);
  }

  lemma HandIsElsewhere(n: Net, c: Conn)
    requires Inv(n) && c in n.conns
    ensures n.hand.Some? ==> n.hand.value.conn != c
  {
  }

  lemma ReceiveBack(s: Fifo, c: Conn, f: Frame, io: Io, m: nat)
    requires R.Good(s) && CanMove(s, Do(ClientReceive(c, f, io)))
    ensures Coming(Apply(s, Do(ClientReceive(c, f, io))), m) ==> Coming(s, m)
  {
    var n, s' := s.net, Apply(s, Do(ClientReceive(c, f, io)));
    ReceiveSeen(s, c, f, io);
    HandIsElsewhere(n, c);
    if n.client.active == Some(c) {
      HeadFits(s, c);
      HeadBack(s, s', c, io, m);
    } else {
      ElsewhereIsIgnored(n.client, c, n.conns[c], f, io);
    }
  }

  lemma HeadBack(s: Fifo, s': Fifo, c: Conn, io: Io, m: nat)
    requires c in s.net.conns && Queue(s.downQ, c) != [] && Fits(s.net.client, c, Queue(s.downQ, c)[0])
    requires s'.net.client == Receive(s.net.client, c, s.net.conns[c], Queue(s.downQ, c)[0], io).client
    requires s'.net.hand == s.net.hand && (s.net.hand.Some? ==> s.net.hand.value.conn != c)
    requires forall d :: Queue(s'.downQ, d) == if d == c then Queue(s.downQ, d)[1..] else Queue(s.downQ, d)
    ensures Coming(s', m) ==> Coming(s, m)
  {
    AfterRead(s.net.client, c, s.net.conns[c], Queue(s.downQ, c)[0], io);
    if Coming(s', m) {
      ReadBack(s.net.client, c, s.net.conns[c], Queue(s.downQ, c), Behind(s), io, m);
    }
  }

  lemma ElsewhereIsIgnored(cl: Client, c: Conn, epoch: nat, f: Frame, io: Io)
    requires cl.active != Some(c)
    ensures Receive(cl, c, epoch, f, io).client == cl
  {
  }

  lemma ClientBack(s: Fifo, step: Step, m: nat)
    requires R.Good(s) && CanMove(s, Do(step)) && C.OfClient(step) && !step.ClientReceive?
    ensures Coming(Apply(s, Do(step)), m) ==> Coming(s, m)
  {
    var n, s' := s.net, Apply(s, Do(step));
    D.ClientLeavesDown(s, step);
    D.ClientLeavesRest(n, step);
    D.HandMoves(n, step);
    StaysFinished(n, step);
    if s'.net.hand.Some? && s'.net.hand != n.hand {
      NothingOnNew(s, s'.net.hand.value.conn);
    }
    if Coming(s', m) {
      ComesOfMore(Ahead(s'), Behind(s'), Ahead(s), Behind(s), n.client.rx, m);
    }
  }

  lemma StaysFinished(n: Net, step: Step)
    requires Enabled(n, step) && C.OfClient(step) && !step.ClientReceive? && !step.CommitHandshake?
    ensures n.client.finished ==> Exec(n, step).client.finished
  {
  }

  lemma NothingOnNew(s: Fifo, c: Conn)
    requires R.Good(s)
    ensures Queue(s.downQ, c) != [] ==> c in s.net.links
  {
    if Queue(s.downQ, c) != [] {
      assert GoodDown(s.net.sessions, s.net.links, Packet(c, Queue(s.downQ, c)[0]));
    }
  }

  lemma CommitBack(s: Fifo, f: Frame, m: nat)
    requires R.Good(s) && s.net.client.session != 0 && CanMove(s, CommitAndReplay(f))
    ensures Coming(Apply(s, CommitAndReplay(f)), m) ==> Coming(s, m)
    ensures Apply(s, CommitAndReplay(f)).net.sessions == s.net.sessions
    ensures Apply(s, CommitAndReplay(f)).net.client.session == s.net.client.session
    ensures Apply(s, CommitAndReplay(f)).net.client.stdout == s.net.client.stdout
  {
    C.CommitShape(s.net, f);
    if s.net.client.finished {
      assert s.net.hand.value.conn !in s.net.conns;
    } else {
      D.CommitLeavesDown(s, f);
      ReplayWire(Exec(s.net, CommitHandshake(f)), s.net.hand.value.conn);
    }
  }

  lemma CutBack(s: Fifo, c: Conn, k: nat, l: nat, m: nat)
    requires CanMove(s, Cut(c, k, l))
    ensures Coming(Apply(s, Cut(c, k, l)), m) ==> Coming(s, m)
  {
    var s' := Apply(s, Cut(c, k, l));
    if Coming(s', m) {
      assert forall d :: Queue(s'.downQ, d) <= Queue(s.downQ, d);
      ComesOfMore(Ahead(s'), Behind(s'), Ahead(s), Behind(s), s.net.client.rx, m);
    }
  }

  lemma MoveBack(s: Fifo, move: Move, m: nat)
    requires R.Good(s) && IsClosed(s.net) && CanMove(s, move)
    ensures R.Good(Apply(s, move)) && Ends(s.net, Apply(s, move).net)
    ensures Coming(Apply(s, move), m) ==> Coming(s, m)
  {
    R.MoveKeepsGood(s, move);
    match move
    case Do(step) =>
      StepEnds(s.net, step);
      if V.OfServer(step) {
        ServerBack(s, step, m);
      } else if step.ClientReceive? {
        ReceiveBack(s, step.conn, step.frame, step.io, m);
      } else {
        ClientBack(s, step, m);
      }
    case CommitAndReplay(f) => CommitBack(s, f, m);
    case Cut(c, k, l) => CutBack(s, c, k, l, m);
  }

  lemma {:induction false} PathBack(states: seq<Fifo>, moves: seq<Move>, i: nat, m: nat)
    requires Path(states, moves) && i < |states| && R.Good(states[0]) && IsClosed(states[0].net)
    ensures R.Good(states[i]) && Ends(states[0].net, states[i].net)
    ensures Coming(states[i], m) ==> Coming(states[0], m)
  {
    if i > 0 {
      PathBack(states, moves, i - 1, m);
      MoveBack(states[i - 1], moves[i - 1], m);
      EndsOn(states[0].net, states[i - 1].net, states[i].net);
    }
  }

  lemma EndsOn(a: Net, b: Net, c: Net)
    requires Ends(a, b) && Ends(b, c)
    ensures Ends(a, c)
  {
  }

  // ---- what is coming can be had ----

  /** The client's own moves: nothing changes but what it has and waits on. */
  ghost predicate OwnMoves(s: Fifo, s': Fifo) {
    && s'.net.sessions == s.net.sessions && s'.net.client.session == s.net.client.session
    && s'.net.client.stdin == s.net.client.stdin
  }

  lemma HeadIsNext(s: Fifo, c: Conn, io: Io)
    requires R.Good(s) && s.net.client.active == Some(c) && Queue(s.downQ, c) != []
    ensures c in s.net.conns && Fits(s.net.client, c, Queue(s.downQ, c)[0])
    ensures CanMove(s, Do(ClientReceive(c, Queue(s.downQ, c)[0], io)))
  {
    HeadFits(s, c);
  }

  lemma Onward(base: Fifo, s: Fifo, m: Move)
    requires R.Good(s) && Reaches(base, s) && CanMove(s, m)
    ensures R.Good(Apply(s, m)) && Reaches(base, Apply(s, m))
  {
    R.MoveKeepsGood(s, m);
    ReachesFurther(base, s, m);
  }

  lemma TakeHead(base: Fifo, s: Fifo, io: Io) returns (s': Fifo)
    requires R.Good(s) && Reaches(base, s) && Ahead(s) != []
    ensures var c, f := s.net.client.active.value, Ahead(s)[0];
            && Fits(s.net.client, c, f) && c in s.net.conns && R.Good(s') && Reaches(base, s')
            && s'.net.sessions == s.net.sessions && s'.net.hand == s.net.hand
            && s'.net.client == Receive(s.net.client, c, s.net.conns[c], f, io).client
            && Queue(s'.downQ, c) == Ahead(s)[1..]
            && (s.net.hand.Some? ==>
                  var d := s.net.hand.value.conn; d != c && Queue(s'.downQ, d) == Queue(s.downQ, d))
  {
    var c, f := s.net.client.active.value, Ahead(s)[0];
    HeadIsNext(s, c, io);
    var m := Do(ClientReceive(c, f, io));
    s' := Apply(s, m);
    ReceiveSeen(s, c, f, io);
    HandIsElsewhere(s.net, c);
    Onward(base, s, m);
  }

  lemma TakeAccept(base: Fifo, s: Fifo) returns (s': Fifo)
    requires R.Good(s) && Reaches(base, s) && s.net.client.session != 0 && Behind(s).Some?
    ensures R.Good(s') && Reaches(base, s') && OwnMoves(s, s')
    ensures Ahead(s') == Behind(s).value && Behind(s').None? && s'.net.client.rx == s.net.client.rx
  {
    var c := s.net.hand.value.conn;
    var f := Queue(s.downQ, c)[0];
    assert f in Queue(s.downQ, c);
    var m := CommitAndReplay(f);
    s' := Apply(s, m);
    D.CommitLeavesDown(s, f);
    CommitBack(s, f, 0);
    CommitKeepsStdin(s, f);
    Onward(base, s, m);
  }

  lemma CommitKeepsStdin(s: Fifo, f: Frame)
    requires CanMove(s, CommitAndReplay(f))
    ensures Apply(s, CommitAndReplay(f)).net.client.stdin == s.net.client.stdin
  {
    C.CommitShape(s.net, f);
  }

  lemma {:induction false} Brings(base: Fifo, s: Fifo, m: nat) returns (s': Fifo)
    requires R.Good(s) && Reaches(base, s) && s.net.client.session != 0 && Coming(s, m)
    ensures R.Good(s') && Reaches(base, s') && OwnMoves(s, s') && s'.net.client.rx == m
    decreases Behind(s).Some?, |Ahead(s)|
  {
    if s.net.client.rx == m {
      s' := s;
    } else if Behind(s).Some? && Comes(Behind(s).value, None, s.net.client.rx, m) {
      var t := TakeAccept(base, s);
      s' := Brings(base, t, m);
    } else {
      var cl, c, f := s.net.client, s.net.client.active.value, Ahead(s)[0];
      if StopsAt(f, cl.rx, m) {
        s' := TakeHead(base, s, Io(m - cl.rx, true, true, true));
        StopsThere(cl, c, s.net.conns[c], f, m);
      } else {
        var t := TakeHead(base, s, FINE);
        GoesOn(cl, c, s.net.conns[c], f);
        s' := Brings(base, t, m);
      }
    }
  }

  // ---- results ----

  /** How far stdout can get once the session has closed: exactly as far as the queues carry it. */
  lemma StdoutReachesIff(s: Fifo, m: nat)
    requires R.Good(s) && IsClosed(s.net)
    ensures (exists s' :: Reaches(s, s') && |s'.net.client.stdout| == m) <==> Coming(s, m)
  {
    forall s' | Reaches(s, s') && |s'.net.client.stdout| == m ensures Coming(s, m) {
      var states, moves :| Path(states, moves) && states[0] == s && states[|states| - 1] == s';
      PathBack(states, moves, |states| - 1, m);
      assert ClientOK(s'.net.client);
    }
    if Coming(s, m) {
      ReachesItself(s);
      var s' := Brings(s, s, m);
      assert ClientOK(s'.net.client);
    }
  }

  lemma StaysEnded(s: Fifo, s': Fifo)
    requires R.Good(s) && IsClosed(s.net) && Reaches(s, s')
    ensures R.Good(s') && Ends(s.net, s'.net)
  {
    var states, moves :| Path(states, moves) && states[0] == s && states[|states| - 1] == s';
    PathBack(states, moves, |states| - 1, 0);
  }

  /** No data waits for the client on the connections it can still read. */
  ghost predicate NothingWaits(s: Fifo) {
    && (forall f | f in Ahead(s) :: !f.Data?)
    && (Behind(s).Some? ==> forall f | f in Behind(s).value :: !f.Data?)
  }

  /** Then neither sink gets a byte in any continuation, whatever lies on other connections. */
  lemma NothingArrivesAnyMore(s: Fifo, s': Fifo)
    requires R.Good(s) && IsClosed(s.net) && NothingWaits(s) && Reaches(s, s')
    ensures s'.net.client.session == s.net.client.session && s.net.client.session in s'.net.sessions
    ensures s'.net.client.stdout == s.net.client.stdout
    ensures s'.net.sessions[s.net.client.session].targetWritten == s.net.sessions[s.net.client.session].targetWritten
  {
    StaysEnded(s, s');
    StdoutReachesIff(s, |s'.net.client.stdout|);
    ComesOfNothing(Ahead(s), Behind(s), s.net.client.rx, |s'.net.client.stdout|);
    assert ClientOK(s.net.client);
  }

  /** Everything that had been read in `n` is at its sink in `n'`. */
  ghost predicate AllBytesThere(n: Net, n': Net) {
    && n.client.session in n.sessions && n.client.session in n'.sessions
    && n'.sessions[n.client.session].targetWritten == n.client.stdin
    && n'.client.stdout == n.sessions[n.client.session].targetRead
  }

  /** When everything can still arrive: while the session is open; and once it has
      closed, if the target has all of stdin and the queues the client waits on
      carry the rest of what the target said. */
  lemma RecoverableIff(states: seq<Fifo>, moves: seq<Move>, i: nat)
    requires IsFifoRun(states, moves) && i < |states|
    requires states[i].net.client.session != 0 && (states[i].net.client.finished ==> IsClosed(states[i].net))
    ensures var n := states[i].net;
            n.client.session in n.sessions &&
            var se := n.sessions[n.client.session];
            (exists s' :: Reaches(states[i], s') && AllBytesThere(n, s'.net)) <==>
            !se.closed || (se.targetWritten == n.client.stdin && Coming(states[i], |se.targetRead|))
  {
    var s := states[i];
    FifoRunHasInv(states, moves, i);
    assert s.net.client.session in s.net.sessions;
    if !s.net.sessions[s.net.client.session].closed {
      var s' := R.OneReconnectDelivers(states, moves, i);
      assert AllBytesThere(s.net, s'.net);
    } else {
      ClosedRecoverableIff(s);
    }
  }

  lemma ClosedRecoverableIff(s: Fifo)
    requires R.Good(s) && IsClosed(s.net)
    ensures var se := s.net.sessions[s.net.client.session];
            (exists s' :: Reaches(s, s') && AllBytesThere(s.net, s'.net)) <==>
            se.targetWritten == s.net.client.stdin && Coming(s, |se.targetRead|)
  {
    var se := s.net.sessions[s.net.client.session];
    StdoutReachesIff(s, |se.targetRead|);
    forall s' | Reaches(s, s') && AllBytesThere(s.net, s'.net)
      ensures se.targetWritten == s.net.client.stdin && |s'.net.client.stdout| == |se.targetRead|
    {
      StaysEnded(s, s');
    }
    if se.targetWritten == s.net.client.stdin && Coming(s, |se.targetRead|) {
      ReachesItself(s);
      var s' := BringsAll(s);
      assert AllBytesThere(s.net, s'.net);
    }
  }

  lemma BringsAll(s: Fifo) returns (s': Fifo)
    requires R.Good(s) && s.net.client.session != 0 && s.net.client.session in s.net.sessions
    requires Coming(s, |s.net.sessions[s.net.client.session].targetRead|)
    ensures Reaches(s, s') && OwnMoves(s, s')
    ensures s'.net.client.stdout == s.net.sessions[s.net.client.session].targetRead
  {
    ReachesItself(s);
    s' := Brings(s, s, |s.net.sessions[s.net.client.session].targetRead|);
    assert ClientOK(s'.net.client) && Agree(s'.net.client, s'.net.sessions[s'.net.client.session]);
  }

  /** The orderly end: a client in step, with a fin waiting on its connection ahead
      of any close, still gets everything the target said, whether or not the
      session has closed meanwhile. */
  lemma FinBringsAll(states: seq<Fifo>, moves: seq<Move>, i: nat, j: nat, c: Conn, k: nat) returns (s': Fifo)
    requires IsFifoRun(states, moves) && i <= j < |states|
    requires i == 0 || (T.Commits(states[i - 1], moves[i - 1]) && !D.StraddlingCommit(states[i - 1], moves[i - 1]))
    requires forall l | i <= l < j :: !D.StraddlingCommit(states[l], moves[l])
    requires states[j].net.client.active == Some(c)
    requires var q := Queue(states[j].downQ, c);
             k < |q| && q[k].Fin? && forall l | 0 <= l < k :: !q[l].Close? && !q[l].Accept?
    ensures Reaches(states[j], s') && states[j].net.client.session in states[j].net.sessions
    ensures s'.net.client.stdout == states[j].net.sessions[states[j].net.client.session].targetRead
  {
    var s := states[j];
    var q := Queue(s.downQ, c);
    T.DownstreamStaysInStep(states, moves, i, j);
    FifoRunHasInv(states, moves, j);
    forall l | 0 <= l <= k ensures !q[l].Hello? && (q[l].Fin? ==> q[l].offset == EndOfTarget(s.net)) {
      assert q[l] in q && GoodDown(s.net.sessions, s.net.links, Packet(c, q[l]));
    }
    FinComes(q, k, Behind(s), s.net.client.rx);
    s' := BringsAll(s);
  }

  function EndOfTarget(n: Net): nat {
    if n.client.session in n.sessions then |n.sessions[n.client.session].targetRead| else 0
  }
}
