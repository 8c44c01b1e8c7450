/** One reconnect is enough: from any state of any run in which the session is
    still open and the client has not ended, some moves bring every byte that was
    read to its sink, in both directions. */
module Recovery {
  import opened Wire
  import opened Stream
  import opened ClientModel
  import S = ServerModel
  import opened Net
  import opened NetInvariant
  import opened Reading
  import opened Fifo
  import opened FifoRefinement
  import opened FifoPaths
  import V = NetServerSteps
  import N = NetSafety
  import U = FifoUpstream
  import D = FifoDownstream

  ghost predicate Good(s: Fifo) {
    Inv(s.net) && QueuesOK(s)
  }

  lemma MoveKeepsGood(s: Fifo, m: Move)
    requires Good(s) && CanMove(s, m)
    ensures Good(Apply(s, m))
  {
    MoveKeepsInv(s, m);
    MoveKeepsQueues(s, m);
  }

  // ---- the server reads its queue to the end ----

  /** Both ends are on connection `c`, and it is whole. */
  ghost predicate Joined(s: Fifo, c: Conn) {
    && c !in s.cut && s.net.client.active == Some(c) && s.net.client.session != 0
    && s.net.client.session in s.net.sessions
    && s.net.sessions[s.net.client.session].active == Some(c)
  }

  predicate Bears(f: Frame) {
    f.Data? || f.Fin?
  }

  /** What one such frame does to the session: no loss, and an ack. */
  lemma ServerTakes(s: S.Session, sid: Sid, c: Conn, f: Frame)
    requires s.active == Some(c) && !s.closed && Bears(f) && sid != 0 && s.epoch >= 1
    requires f.session == sid && f.epoch == s.epoch && f.dir == ClientToServer
    requires f.Data? ==> Judge(s.rx, f.offset, |f.payload|).Fresh? || Judge(s.rx, f.offset, |f.payload|).Duplicate?
    requires f.Fin? ==> f.offset == s.rx
    ensures var o := S.Receive(s, sid, c, s.epoch, f, FINE);
            && o.session == s.(rx := o.session.rx, targetWritten := o.session.targetWritten, c2sFin := o.session.c2sFin,
                               halfCloses := o.session.halfCloses)
            && o.sent == [Ack(sid, s.epoch, ClientToServer, o.session.rx)]
            && (s.c2sFin || f.Fin? ==> o.session.c2sFin)
  {
  }

  /** Some moves lead from `base` to `s`, where both ends are on `c` and in step. */
  ghost predicate Underway(base: Fifo, s: Fifo, c: Conn) {
    Good(s) && Joined(s, c) && Reaches(base, s) && U.UpSync(s) && D.DownSync(s)
  }

  /** The same, with what the ends and the queues between them hold. */
  ghost predicate On(base: Fifo, s: Fifo, c: Conn, cl: Client, se: S.Session, up: seq<Frame>, down: seq<Frame>) {
    && Underway(base, s, c)
    && s.net.client == cl && s.net.sessions[cl.session] == se && Queue(s.upQ, c) == up && Queue(s.downQ, c) == down
  }

  lemma ServerStaysInStep(s: Fifo, c: Conn, f: Frame)
    requires Good(s) && U.UpSync(s) && D.DownSync(s) && CanMove(s, Do(ServerReceive(c, f, FINE)))
    ensures var s' := Apply(s, Do(ServerReceive(c, f, FINE))); Good(s') && U.UpSync(s') && D.DownSync(s')
  {
    MoveKeepsGood(s, Do(ServerReceive(c, f, FINE)));
    U.ServerReceiveKeepsSync(s, c, f, FINE);
    D.ServerStepKeepsDown(s, ServerReceive(c, f, FINE));
  }

  /** What the head of a joined queue is. */
  lemma HeadUp(s: Fifo, c: Conn)
    requires Good(s) && Joined(s, c) && U.UpSync(s) && Queue(s.upQ, c) != [] && Bears(Queue(s.upQ, c)[0])
    ensures var n, f := s.net, Queue(s.upQ, c)[0];
            var sid := n.client.session;
            var se := n.sessions[sid];
            && c in n.conns && c in n.links && n.links[c] == Bound(sid, se.epoch) && !se.closed && se.epoch >= 1
            && Packet(c, f) in n.up && f.session == sid && f.epoch == se.epoch && f.dir == ClientToServer
            && (f.Data? ==>
                Judge(se.rx, f.offset, |f.payload|).Fresh? ||
                Judge(se.rx, f.offset, |f.payload|).Duplicate?)
            && (f.Fin? ==> f.offset == se.rx)
  {
    var n, f := s.net, Queue(s.upQ, c)[0];
    assert f in Queue(s.upQ, c);
    assert GoodUp(n.client, n.conns, n.used, Packet(c, f));
    assert SessionOK(n.sessions[n.client.session]);
    assert U.Live(n, c);
  }

  lemma ServerReadsHead(base: Fifo, s: Fifo, c: Conn, cl: Client, se: S.Session, up: seq<Frame>, down: seq<Frame>)
    returns (s': Fifo, se': S.Session, a: Frame)
    requires On(base, s, c, cl, se, up, down) && up != [] && Bears(up[0])
    ensures On(base, s', c, cl, se', up[1..], down + [a]) && a.Ack?
    ensures se'.targetRead == se.targetRead && se'.s2cFin == se.s2cFin && (se.c2sFin || up[0].Fin? ==> se'.c2sFin)
  {
    HeadUp(s, c);
    ServerTakes(se, cl.session, c, up[0]);
    var o := S.Receive(se, cl.session, c, se.epoch, up[0], FINE);
    s' := ServerReads(base, s, c, up[0], cl.session, o);
    se', a := o.session, o.sent[0];
  }

  lemma ServerReads(base: Fifo, s: Fifo, c: Conn, f: Frame, sid: Sid, o: S.Out) returns (s': Fifo)
    requires Good(s) && U.UpSync(s) && D.DownSync(s) && Reaches(base, s) && c !in s.cut && HeadIs(s.upQ, c, f)
    requires Enabled(s.net, ServerReceive(c, f, FINE)) && s.net.links[c].session == sid && sid in s.net.sessions
    requires o == S.Receive(s.net.sessions[sid], sid, c, s.net.links[c].epoch, f, FINE)
    ensures Good(s') && U.UpSync(s') && D.DownSync(s') && Reaches(base, s') && c !in s'.cut
    ensures s'.net.client == s.net.client && s'.net.sessions == s.net.sessions[sid := o.session]
    ensures Queue(s'.upQ, c) == Queue(s.upQ, c)[1..] && Queue(s'.downQ, c) == Queue(s.downQ, c) + o.sent
  {
    var n, step := s.net, ServerReceive(c, f, FINE);
    ServerEffect(n, c, f, sid, o);
    s' := Take1(base, s, step, Result(n.(sessions := n.sessions[sid := o.session]), NOTHING, Sent(c, o.sent)));
    ServerStaysInStep(s, c, f);
  }

  ghost predicate HasFin(q: seq<Frame>) {
    exists f :: f in q && f.Fin?
  }

  /** Reading `q` leaves the other direction alone and brings about the half-close. */
  ghost predicate Served(se: S.Session, se': S.Session, q: seq<Frame>) {
    && se'.targetRead == se.targetRead && se'.s2cFin == se.s2cFin
    && (se.c2sFin || HasFin(q) ==> se'.c2sFin)
  }

  lemma ServedThen(a: S.Session, b: S.Session, c: S.Session, q: seq<Frame>)
    requires q != [] && Served(b, c, q[1..])
    requires b.targetRead == a.targetRead && b.s2cFin == a.s2cFin && (a.c2sFin || q[0].Fin? ==> b.c2sFin)
    ensures Served(a, c, q)
  {
    assert HasFin(q) ==> q[0].Fin? || HasFin(q[1..]);
  }

  lemma MoreAcks(down: seq<Frame>, a: Frame, more: seq<Frame>)
    requires a.Ack? && forall f | f in more :: f.Ack?
    ensures down + ([a] + more) == down + [a] + more && forall f | f in [a] + more :: f.Ack?
  {
  }

  /** The server reads everything that waits for it: the target then holds all of stdin. */
  lemma {:induction false} DrainUp(base: Fifo, s: Fifo, c: Conn, cl: Client, se: S.Session, up: seq<Frame>,
                                   down: seq<Frame>)
    returns (s': Fifo, se': S.Session, acks: seq<Frame>)
    requires On(base, s, c, cl, se, up, down) && forall f | f in up :: Bears(f)
    ensures On(base, s', c, cl, se', [], down + acks) && forall f | f in acks :: f.Ack?
    ensures se'.targetWritten == cl.stdin && Served(se, se', up)
    decreases |up|
  {
    if up == [] {
      s', se', acks := s, se, [];
      assert down + [] == down;
      AllWritten(s, c);
    } else {
      assert forall f | f in up[1..] :: f in up;
      var t, mid, a := ServerReadsHead(base, s, c, cl, se, up, down);
      var more;
      s', se', more := DrainUp(base, t, c, cl, mid, up[1..], down + [a]);
      acks := [a] + more;
      MoreAcks(down, a, more);
      ServedThen(se, mid, se', up);
    }
  }

  lemma AllWritten(s: Fifo, c: Conn)
    requires Good(s) && Joined(s, c) && U.UpSync(s) && Queue(s.upQ, c) == []
    ensures s.net.sessions[s.net.client.session].targetWritten == s.net.client.stdin
  {
    var se := s.net.sessions[s.net.client.session];
    assert ConnsOK(s.net.client, s.net.conns, s.net.links);
    assert U.Live(s.net, c);
    assert SessionOK(se) && Agree(s.net.client, se) && ClientOK(s.net.client);
  }

  // ---- the client reads its queue to the end ----

  predicate Arrives(f: Frame) {
    Bears(f) || f.Ack?
  }

  /** What one such frame does to the client: no loss, and at most an ack. */
  lemma ClientTakes(cl: Client, c: Conn, f: Frame)
    requires Current(cl, c, f) && Arrives(f) && cl.epoch >= 1
    requires f.dir == if f.Ack? then ClientToServer else ServerToClient
    requires f.Data? ==> Judge(cl.rx, f.offset, |f.payload|).Fresh? || Judge(cl.rx, f.offset, |f.payload|).Duplicate?
    requires f.Fin? ==> f.offset == cl.rx
    requires f.Ack? ==> Advance(cl.snd, f.received).Moved?
    ensures var o := Receive(cl, c, cl.epoch, f, FINE);
            && o.client == cl.(snd := o.client.snd, rx := o.client.rx, stdout := o.client.stdout,
                               stdoutClosed := o.client.stdoutClosed)
            && (cl.stdoutClosed || f.Fin? ==> o.client.stdoutClosed)
            && o.sent == if f.Ack? then [] else [Ack(cl.session, cl.epoch, ServerToClient, o.client.rx)]
  {
  }

  lemma HeadDown(s: Fifo, c: Conn)
    requires Good(s) && Joined(s, c) && D.DownSync(s) && Queue(s.downQ, c) != [] && Arrives(Queue(s.downQ, c)[0])
    ensures var n, f := s.net, Queue(s.downQ, c)[0];
            var cl := n.client;
            && c in n.conns && n.conns[c] == cl.epoch >= 1 && Packet(c, f) in n.down && Current(cl, c, f)
            && f.dir == (if f.Ack? then ClientToServer else ServerToClient)
            && (f.Data? ==>
                Judge(cl.rx, f.offset, |f.payload|).Fresh? ||
                Judge(cl.rx, f.offset, |f.payload|).Duplicate?)
            && (f.Fin? ==> f.offset == cl.rx)
            && (f.Ack? ==> Advance(cl.snd, f.received).Moved?)
  {
    var n, f := s.net, Queue(s.downQ, c)[0];
    assert f in Queue(s.downQ, c);
    assert GoodDown(n.sessions, n.links, Packet(c, f));
    assert ConnsOK(n.client, n.conns, n.links);
    if f.Ack? {
      N.ClientAckFits(n, c, f);
    }
  }

  lemma ClientStaysInStep(s: Fifo, c: Conn, f: Frame)
    requires Good(s) && U.UpSync(s) && D.DownSync(s) && CanMove(s, Do(ClientReceive(c, f, FINE)))
    ensures var s' := Apply(s, Do(ClientReceive(c, f, FINE))); Good(s') && U.UpSync(s') && D.DownSync(s')
  {
    MoveKeepsGood(s, Do(ClientReceive(c, f, FINE)));
    U.ClientStepKeepsSync(s, ClientReceive(c, f, FINE));
    D.ClientReceiveKeepsDown(s, c, f, FINE);
  }

  lemma ClientReadsHead(base: Fifo, s: Fifo, c: Conn, cl: Client, se: S.Session, up: seq<Frame>, down: seq<Frame>)
    returns (s': Fifo, cl': Client, up': seq<Frame>)
    requires On(base, s, c, cl, se, up, down) && down != [] && Arrives(down[0])
    ensures On(base, s', c, cl', se, up', down[1..])
    ensures cl' == cl.(snd := cl'.snd, rx := cl'.rx, stdout := cl'.stdout, stdoutClosed := cl'.stdoutClosed)
    ensures cl.stdoutClosed || down[0].Fin? ==> cl'.stdoutClosed
  {
    HeadDown(s, c);
    ClientTakes(cl, c, down[0]);
    var o := Receive(cl, c, cl.epoch, down[0], FINE);
    s' := ClientReads(base, s, c, down[0], o);
    cl', up' := o.client, up + o.sent;
  }

  lemma ClientReads(base: Fifo, s: Fifo, c: Conn, f: Frame, o: Out) returns (s': Fifo)
    requires Good(s) && U.UpSync(s) && D.DownSync(s) && Reaches(base, s) && c !in s.cut && HeadIs(s.downQ, c, f)
    requires Enabled(s.net, ClientReceive(c, f, FINE)) && o == Receive(s.net.client, c, s.net.conns[c], f, FINE)
    ensures Good(s') && U.UpSync(s') && D.DownSync(s') && Reaches(base, s') && c !in s'.cut
    ensures s'.net.client == o.client && s'.net.sessions == s.net.sessions
    ensures Queue(s'.upQ, c) == Queue(s.upQ, c) + o.sent && Queue(s'.downQ, c) == Queue(s.downQ, c)[1..]
  {
    ClientEffect(s.net, c, f, o);
    s' := Take1(base, s, ClientReceive(c, f, FINE), Result(s.net.(client := o.client), Sent(c, o.sent), NOTHING));
    ClientStaysInStep(s, c, f);
  }

  /** The client reads everything that waits for it: stdout then holds all the target produced. */
  lemma {:induction false} DrainDown(base: Fifo, s: Fifo, c: Conn, cl: Client, se: S.Session, up: seq<Frame>,
                                     down: seq<Frame>)
    returns (s': Fifo, cl': Client, up': seq<Frame>)
    requires On(base, s, c, cl, se, up, down) && forall f | f in down :: Arrives(f)
    ensures On(base, s', c, cl', se, up', [])
    ensures cl' == cl.(snd := cl'.snd, rx := cl'.rx, stdout := se.targetRead, stdoutClosed := cl'.stdoutClosed)
    ensures cl.stdoutClosed || HasFin(down) ==> cl'.stdoutClosed
    decreases |down|
  {
    if down == [] {
      s', cl', up' := s, cl, up;
      AllShown(s, c);
    } else {
      assert forall f | f in down[1..] :: f in down;
      var t, mid, more := ClientReadsHead(base, s, c, cl, se, up, down);
      s', cl', up' := DrainDown(base, t, c, mid, se, more, down[1..]);
      FinAhead(down);
    }
  }

  lemma FinAhead(q: seq<Frame>)
    requires q != []
    ensures HasFin(q) ==> q[0].Fin? || HasFin(q[1..])
  {
  }

  lemma AllShown(s: Fifo, c: Conn)
    requires Good(s) && Joined(s, c) && D.DownSync(s) && Queue(s.downQ, c) == []
    ensures s.net.client.stdout == s.net.sessions[s.net.client.session].targetRead
  {
    var se := s.net.sessions[s.net.client.session];
    assert SessionOK(se) && Agree(s.net.client, se) && ClientOK(s.net.client);
  }

  // ---- the reconnect ----

  /** Some number above all of a finite set. */
  lemma {:induction false} Above(x: set<nat>) returns (b: nat)
    ensures forall e | e in x :: e < b
    decreases |x|
  {
    if x == {} {
      b := 0;
    } else {
      var e :| e in x;
      b := Above(x - {e});
      b := if e < b then b else e + 1;
      assert forall d | d in x :: d == e || d in x - {e};
    }
  }

  /** Whatever goes on is given up: no handshake, no active connection. */
  lemma GiveUp(s: Fifo) returns (s': Fifo)
    requires Good(s)
    ensures Good(s') && Reaches(s, s') && s'.net.hand.None? && s'.net.client == s.net.client.(active := None)
    ensures s'.net.sessions == s.net.sessions
  {
    ReachesItself(s);
    var t := GiveUpHandshake(s, s);
    s' := GiveUpConnection(s, t);
  }

  lemma GiveUpHandshake(base: Fifo, s: Fifo) returns (s': Fifo)
    requires Good(s) && Reaches(base, s)
    ensures Good(s') && Reaches(base, s') && s'.net == s.net.(hand := None)
  {
    s' := s;
    if s.net.hand.Some? {
      s' := Leave(base, s, AbandonHandshake, s.net.(hand := None));
    }
  }

  lemma GiveUpConnection(base: Fifo, s: Fifo) returns (s': Fifo)
    requires Good(s) && Reaches(base, s)
    ensures Good(s') && Reaches(base, s') && s'.net == s.net.(client := s.net.client.(active := None))
  {
    s' := s;
    if s.net.client.active.Some? {
      var c := s.net.client.active.value;
      s' := Leave(base, s, DropActive(c), s.net.(client := Drop(s.net.client, c)));
    }
  }

  lemma Leave(base: Fifo, s: Fifo, step: Step, n': Net) returns (s': Fifo)
    requires Good(s) && Reaches(base, s) && CanMove(s, Do(step)) && Effect(s.net, step) == Quiet(n')
    ensures Good(s') && Reaches(base, s') && s'.net == n'
  {
    s' := Take1(base, s, step, Quiet(n'));
    MoveKeepsGood(s, Do(step));
    NothingSent(n');
  }

  lemma NothingSent(n: Net)
    ensures n.(up := n.up + Packets(NOTHING), down := n.down + Packets(NOTHING)) == n
  {
    assert Packets(NOTHING) == {};
  }

  /** A hello on a connection that was never used: it is all there is on it. */
  lemma SayHello(base: Fifo, s: Fifo) returns (s': Fifo, c: Conn)
    requires Good(s) && Reaches(base, s) && s.net.hand.None? && s.net.client.active.None? && s.net.client.session != 0
    ensures Good(s') && Reaches(base, s') && c !in s'.cut && c !in s'.net.links
    ensures s'.net.client == s.net.client && s'.net.sessions == s.net.sessions && s'.net.links == s.net.links
    ensures s'.net.hand == Some(Handshake(c, true, s.net.client.snd.ack, s.net.client.rx, true))
    ensures Queue(s'.upQ, c) == [Hello(true, s.net.client.session, s.net.client.snd.ack, s.net.client.rx)]
            && Queue(s'.downQ, c) == []
  {
    var n := s.net;
    var used := n.used + s.cut;
    c := Above(used);
    assert c !in n.used && c !in s.cut by {
      assert forall e | e in n.used || e in s.cut :: e in used;
    }
    OnlyUsedConnsCarry(s, c);
    var hello := Hello(true, n.client.session, n.client.snd.ack, n.client.rx);
    s' := Take1(base, s, StartHandshake(c),
                Result(n.(hand := Some(Handshake(c, true, n.client.snd.ack, n.client.rx, true)), used := n.used + {c}),
                       Sent(c, [hello]), NOTHING));
    MoveKeepsGood(s, Do(StartHandshake(c)));
  }

  lemma OnlyUsedConnsCarry(s: Fifo, c: Conn)
    requires Good(s)
    ensures Queue(s.upQ, c) != [] || Queue(s.downQ, c) != [] || c in s.net.links ==> c in s.net.used
  {
    if Queue(s.upQ, c) != [] {
      assert GoodUp(s.net.client, s.net.conns, s.net.used, Packet(c, Queue(s.upQ, c)[0]));
    }
    if Queue(s.downQ, c) != [] {
      assert GoodDown(s.net.sessions, s.net.links, Packet(c, Queue(s.downQ, c)[0]));
    }
  }

  /** The server resumes an open session: the accept and the whole replay wait for the client. */
  lemma Answer(base: Fifo, s: Fifo, c: Conn, hello: Frame) returns (s': Fifo, se: S.Session)
    requires Good(s) && Reaches(base, s) && D.HandSync(s) && c !in s.cut && c !in s.net.links
    requires hello.Hello? && hello.resume && Queue(s.upQ, c) == [hello] && Queue(s.downQ, c) == []
    requires hello.session == s.net.client.session && hello.session in s.net.sessions
             && !s.net.sessions[hello.session].closed
    ensures Good(s') && Reaches(base, s') && D.HandSync(s') && c !in s'.cut
    ensures s'.net.client == s.net.client && s'.net.hand == s.net.hand && hello.session in s'.net.sessions
            && s'.net.sessions[hello.session] == se
    ensures se == s.net.sessions[hello.session].(snd := se.snd, epoch := se.epoch, active := Some(c),
                                                 disconnected := false)
    ensures Queue(s'.upQ, c) == []
    ensures Queue(s'.downQ, c) == [Accept(hello.session, se.epoch, se.rx, se.snd.ack)]
            + S.Replay(se, hello.session, se.epoch)
  {
    var newSid := UnusedSession(s.net);
    HelloIsNext(s, c, hello, newSid);
    var accept, replay;
    se, accept, replay := Resumes(s.net, c, hello);
    s' := TakeHello(base, s, c, hello, newSid, se, accept, replay);
    KeepsHandAndGood(s, ServerHello(c, hello, newSid, true, FINE));
  }

  lemma HelloIsNext(s: Fifo, c: Conn, hello: Frame, newSid: Sid)
    requires QueuesOK(s) && hello.Hello? && Queue(s.upQ, c) == [hello] && c !in s.net.links
    requires newSid != 0 && newSid !in s.net.sessions
    ensures Packet(c, hello) in s.net.up && CanMove(s, Do(ServerHello(c, hello, newSid, true, FINE)))
  {
    assert hello in Queue(s.upQ, c);
  }

  lemma AcceptIsNext(s: Fifo, c: Conn, accept: Frame, down: seq<Frame>)
    requires QueuesOK(s) && s.net.hand.Some? && s.net.hand.value.conn == c && accept.Accept?
    requires Queue(s.downQ, c) == [accept] + down
    ensures CanMove(s, CommitAndReplay(accept)) && Queue(s.downQ, c)[1..] == down
  {
    assert accept in Queue(s.downQ, c);
  }

  lemma UnusedSession(n: Net) returns (sid: Sid)
    ensures sid != 0 && sid !in n.sessions
  {
    var top := Above(n.sessions.Keys);
    sid := top + 1;
    assert sid !in n.sessions.Keys;
  }

  lemma TakeHello(base: Fifo, s: Fifo, c: Conn, hello: Frame, newSid: Sid, se: S.Session, accept: Frame,
                  replay: seq<Frame>)
    returns (s': Fifo)
    requires QueuesOK(s) && Reaches(base, s) && c !in s.cut
    requires CanMove(s, Do(ServerHello(c, hello, newSid, true, FINE)))
    requires Queue(s.upQ, c) == [hello] && Queue(s.downQ, c) == []
    requires hello.resume && hello.session != 0 && hello.session in s.net.sessions
    requires S.Resume(s.net.sessions[hello.session], hello.session, c, hello, false, FINE)
             == S.Resumed(se, accept, replay)
    ensures s' == Apply(s, Do(ServerHello(c, hello, newSid, true, FINE))) && Reaches(base, s') && s'.cut == s.cut
    ensures s'.net.client == s.net.client && s'.net.hand == s.net.hand
            && s'.net.sessions == s.net.sessions[hello.session := se]
    ensures Queue(s'.upQ, c) == [] && Queue(s'.downQ, c) == [accept] + replay
  {
    var n := s.net;
    ResumeEffect(n, c, hello, newSid, se, accept, replay);
    s' := Take1(base, s, ServerHello(c, hello, newSid, true, FINE),
                Result(n.(sessions := n.sessions[hello.session := se],
                          links := n.links[c := Bound(hello.session, se.epoch)]),
                       NOTHING, Sent(c, [accept] + replay)));
  }

  lemma KeepsHandAndGood(s: Fifo, step: Step)
    requires Good(s) && D.HandSync(s) && CanMove(s, Do(step))
    ensures Good(Apply(s, Do(step))) && D.HandSync(Apply(s, Do(step)))
  {
    MoveKeepsGood(s, Do(step));
    D.MoveKeepsHand(s, Do(step));
  }

  lemma Resumes(n: Net, c: Conn, hello: Frame) returns (se: S.Session, accept: Frame, replay: seq<Frame>)
    requires Inv(n) && Packet(c, hello) in n.up && hello.Hello? && hello.resume
    requires hello.session in n.sessions && !n.sessions[hello.session].closed
    ensures hello.session != 0 && S.Resume(n.sessions[hello.session], hello.session, c, hello, false, FINE)
            == S.Resumed(se, accept, replay)
    ensures se == n.sessions[hello.session].(snd := se.snd, epoch := se.epoch, active := Some(c), disconnected := false)
    ensures accept == Accept(hello.session, se.epoch, se.rx, se.snd.ack)
            && replay == S.Replay(se, hello.session, se.epoch)
  {
    V.ResumeAccepts(n, c, hello);
    var r := S.Resume(n.sessions[hello.session], hello.session, c, hello, false, FINE);
    se, accept, replay := r.session, r.accept, r.replay;
    assert SessionOK(n.sessions[hello.session]);
  }

  /** The client commits: both ends are on the connection, each with its replay ahead. */
  lemma Join(base: Fifo, s: Fifo, c: Conn, se: S.Session, accept: Frame, down: seq<Frame>)
      returns (s': Fifo, cl: Client)
    requires Good(s) && Reaches(base, s) && D.HandSync(s) && c !in s.cut && !s.net.client.finished
    requires s.net.hand.Some? && s.net.hand.value.conn == c && s.net.hand.value.cold && accept.Accept?
    requires accept.session == s.net.client.session && accept.session != 0 && accept.session in s.net.sessions
    requires s.net.sessions[accept.session] == se && se.active == Some(c)
    requires Queue(s.upQ, c) == [] && Queue(s.downQ, c) == [accept] + down
    ensures cl == s.net.client.(snd := cl.snd, active := Some(c), epoch := accept.epoch)
    ensures On(base, s', c, cl, se, Replay(cl, accept.epoch), down)
  {
    AcceptIsNext(s, c, accept, down);
    cl := U.CommittedClient(s.net, accept);
    s' := TakeCommit(base, s, accept, cl);
    BothJoined(s, c, se, accept, cl, s');
    CommitGivesStep(s, accept);
  }

  lemma BothJoined(s: Fifo, c: Conn, se: S.Session, accept: Frame, cl: Client, s': Fifo)
    requires s.net.hand.Some? && s.net.hand.value.conn == c && accept.Accept? && c !in s.cut && s'.cut == s.cut
    requires Commit(s.net.client, c, s.net.hand.value.resume, accept) == Some(cl) && CommitLeads(s, accept, cl, s')
    requires accept.session != 0 && accept.session in s.net.sessions
    requires s.net.sessions[accept.session] == se && se.active == Some(c)
    requires Queue(s.upQ, c) == [] && Queue(s.downQ, c) != []
    ensures cl == s.net.client.(snd := cl.snd, active := Some(c), epoch := accept.epoch, session := accept.session)
    ensures Joined(s', c) && s'.net.client == cl && s'.net.sessions[cl.session] == se
    ensures Queue(s'.upQ, c) == Replay(cl, accept.epoch) && Queue(s'.downQ, c) == Queue(s.downQ, c)[1..]
  {
  }

  lemma CommitGivesStep(s: Fifo, accept: Frame)
    requires Good(s) && D.HandSync(s) && CanMove(s, CommitAndReplay(accept)) && !s.net.client.finished
             && s.net.hand.value.cold
    ensures var s' := Apply(s, CommitAndReplay(accept)); Good(s') && U.UpSync(s') && D.DownSync(s')
  {
    MoveKeepsGood(s, CommitAndReplay(accept));
    U.CommitGivesSync(s, accept);
    D.CommitGivesDownIff(s, accept);
  }

  lemma ReplaysBear(cl: Client, se: S.Session, sid: Sid, epoch: nat)
    ensures (forall f | f in Replay(cl, epoch) :: Bears(f)) && (cl.fin ==> HasFin(Replay(cl, epoch)))
    ensures (forall f | f in S.Replay(se, sid, epoch) :: Bears(f)) && (se.s2cFin ==> HasFin(S.Replay(se, sid, epoch)))
  {
    ChainChunks(cl.session, epoch, ClientToServer, cl.snd.bufFrom, cl.snd.buf);
    ChainChunks(sid, epoch, ServerToClient, se.snd.bufFrom, se.snd.buf);
    var up, down := Fin(cl.session, epoch, ClientToServer, cl.finAt), Fin(sid, epoch, ServerToClient, se.snd.next);
    assert cl.fin ==> up in Replay(cl, epoch);
    assert se.s2cFin ==> down in S.Replay(se, sid, epoch);
  }

  // ---- the whole way ----

  /** Client and session after everything has arrived. */
  ghost predicate Delivered(cl: Client, se: S.Session, cl': Client, se': S.Session) {
    && cl'.stdin == cl.stdin && se'.targetRead == se.targetRead && cl'.session == cl.session
    && se'.targetWritten == cl.stdin && cl'.stdout == se.targetRead
    && (cl.fin ==> se'.c2sFin) && (se.s2cFin ==> cl'.stdoutClosed)
  }

  lemma Reconnects(s: Fifo) returns (s': Fifo, c: Conn, cl: Client, se: S.Session)
    requires Good(s) && s.net.client.session != 0 && !s.net.client.finished
    requires s.net.client.session in s.net.sessions && !s.net.sessions[s.net.client.session].closed
    ensures cl.session == s.net.client.session
    ensures On(s, s', c, cl, se, Replay(cl, cl.epoch), S.Replay(se, cl.session, se.epoch))
    ensures cl == s.net.client.(snd := cl.snd, active := Some(c), epoch := cl.epoch)
    ensures var old' := s.net.sessions[cl.session];
            se == old'.(snd := se.snd, epoch := se.epoch, active := Some(c), disconnected := false)
  {
    var a := GiveUp(s);
    var b;
    b, c := SayHello(s, a);
    var hello := Queue(b.upQ, c)[0];
    var d;
    d, se := Answer(s, b, c, hello);
    s', cl := Join(s, d, c, se, Accept(hello.session, se.epoch, se.rx, se.snd.ack),
                   S.Replay(se, hello.session, se.epoch));
  }

  lemma ArrivesAll(q: seq<Frame>, acks: seq<Frame>)
    requires (forall f | f in q :: Bears(f)) && (forall f | f in acks :: f.Ack?)
    ensures forall f | f in q + acks :: Arrives(f)
    ensures HasFin(q) ==> HasFin(q + acks)
  {
    if HasFin(q) {
      var f :| f in q && f.Fin?;
      assert f in q + acks;
    }
  }

  lemma DrainBoth(base: Fifo, s: Fifo, c: Conn, cl: Client, se: S.Session)
      returns (s': Fifo, cl': Client, se': S.Session, up': seq<Frame>)
    requires On(base, s, c, cl, se, Replay(cl, cl.epoch), S.Replay(se, cl.session, se.epoch))
    ensures On(base, s', c, cl', se', up', []) && Delivered(cl, se, cl', se')
  {
    ReplaysBear(cl, se, cl.session, cl.epoch);
    ReplaysBear(cl, se, cl.session, se.epoch);
    var down := S.Replay(se, cl.session, se.epoch);
    var t, acks;
    t, se', acks := DrainUp(base, s, c, cl, se, Replay(cl, cl.epoch), down);
    ArrivesAll(down, acks);
    s', cl', up' := DrainDown(base, t, c, cl, se', [], down + acks);
  }

  /** From any state of any run whose session is open and whose client has not
      ended, a continuation delivers in both directions everything that was read,
      and the half-closes behind it. Cuts, stale chunks and abandoned handshakes
      in the past do not matter. */
  lemma OneReconnectDelivers(states: seq<Fifo>, moves: seq<Move>, i: nat) returns (s': Fifo)
    requires IsFifoRun(states, moves) && i < |states|
    requires var n := states[i].net;
             n.client.session != 0 && !n.client.finished && n.client.session in n.sessions
                 && !n.sessions[n.client.session].closed
    ensures Reaches(states[i], s')
    ensures var n, n' := states[i].net, s'.net;
            n.client.session in n'.sessions
                && Delivered(n.client, n.sessions[n.client.session], n'.client, n'.sessions[n.client.session])
  {
    FifoRunHasInv(states, moves, i);
    var t, c, cl, se := Reconnects(states[i]);
    var cl', se', up;
    s', cl', se', up := DrainBoth(states[i], t, c, cl, se);
  }
}
