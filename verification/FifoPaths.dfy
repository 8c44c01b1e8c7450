/** Stretches of runs of the ordered system, built move by move. */
module FifoPaths {
  import opened Wire
  import opened ClientModel
  import S = ServerModel
  import opened Net
  import opened Fifo
  import opened FifoRefinement
  import C = NetClientSteps

  ghost predicate Path(states: seq<Fifo>, moves: seq<Move>) {
    && |states| == |moves| + 1
    && forall i | 0 <= i < |moves| :: CanMove(states[i], moves[i]) && states[i + 1] == Apply(states[i], moves[i])
  }

  /** Some moves lead from `a` to `b`. */
  ghost predicate Reaches(a: Fifo, b: Fifo) {
    exists states, moves :: Path(states, moves) && states[0] == a && states[|states| - 1] == b
  }

  lemma ReachesItself(a: Fifo)
    ensures Reaches(a, a)
  {
    assert Path([a], []) && [a][0] == a;
  }

  lemma ReachesFurther(a: Fifo, b: Fifo, m: Move)
    requires Reaches(a, b) && CanMove(b, m)
    ensures Reaches(a, Apply(b, m))
  {
    var states, moves :| Path(states, moves) && states[0] == a && states[|states| - 1] == b;
    var states', moves' := PathGrows(states, moves, m, Apply(b, m));
    assert states'[0] == a && states'[|states'| - 1] == Apply(b, m);
  }

  lemma PathGrows(states: seq<Fifo>, moves: seq<Move>, m: Move, s: Fifo) returns (states': seq<Fifo>, moves': seq<Move>)
    requires Path(states, moves) && CanMove(states[|states| - 1], m) && s == Apply(states[|states| - 1], m)
    ensures states' == states + [s] && moves' == moves + [m] && Path(states', moves')
  {
    states', moves' := states + [s], moves + [m];
    forall i | 0 <= i < |moves'| ensures CanMove(states'[i], moves'[i])
        && states'[i + 1] == Apply(states'[i], moves'[i]) {
      if i < |moves| {
        assert states'[i] == states[i] && states'[i + 1] == states[i + 1] && moves'[i] == moves[i];
      } else {
        assert states'[i] == states[|states| - 1];
      }
    }
  }

  /** What a queue gains and loses in one step. */
  function Passed(q: seq<Frame>, c: Conn, taken: bool, at: Conn, sent: Sent): seq<Frame>
    requires taken && c == at ==> q != []
  {
    (if taken && c == at then q[1..] else q) + if sent.conn == c then sent.frames else []
  }

  function At(step: Step): Conn {
    if ReadsUp(step) || step.ClientReceive? then step.conn else 0
  }

  lemma PutSeen(q: map<Conn, seq<Frame>>, taken: bool, at: Conn, sent: Sent, cut: set<Conn>)
    requires taken ==> Queue(q, at) != []
    ensures forall c | c !in cut ::
            Queue(Put(if taken then Take(q, at) else q, sent, cut), c) == Passed(Queue(q, c), c, taken, at, sent)
  {
  }

  lemma QueuesSeen(s: Fifo, step: Step, r: Result)
    requires CanMove(s, Do(step)) && r == Effect(s.net, step)
    ensures forall c | c !in s.cut ::
            Queue(DoStep(s, step).upQ, c) == Passed(Queue(s.upQ, c), c, ReadsUp(step), At(step), r.up)
    ensures forall c | c !in s.cut ::
            Queue(DoStep(s, step).downQ, c) == Passed(Queue(s.downQ, c), c, step.ClientReceive?, At(step), r.down)
  {
    PutSeen(s.upQ, ReadsUp(step), At(step), r.up, s.cut);
    PutSeen(s.downQ, step.ClientReceive?, At(step), r.down, s.cut);
  }

  lemma NetSeen(s: Fifo, step: Step, r: Result)
    requires CanMove(s, Do(step)) && r == Effect(s.net, step)
    ensures DoStep(s, step).net == r.net.(up := r.net.up + Packets(r.up), down := r.net.down + Packets(r.down))
    ensures DoStep(s, step).cut == s.cut
  {
  }

  /** A step, with its effect worked out. */
  lemma Take1(base: Fifo, s: Fifo, step: Step, r: Result) returns (s': Fifo)
    requires CanMove(s, Do(step)) && QueuesOK(s) && Reaches(base, s) && r == Effect(s.net, step)
    ensures s' == Apply(s, Do(step)) && QueuesOK(s') && Reaches(base, s') && s'.cut == s.cut
    ensures s'.net == r.net.(up := r.net.up + Packets(r.up), down := r.net.down + Packets(r.down))
    ensures forall c | c !in s.cut :: Queue(s'.upQ, c) == Passed(Queue(s.upQ, c), c, ReadsUp(step), At(step), r.up)
    ensures forall c | c !in s.cut ::
            Queue(s'.downQ, c) == Passed(Queue(s.downQ, c), c, step.ClientReceive?, At(step), r.down)
  {
    s' := Apply(s, Do(step));
    MoveKeepsQueues(s, Do(step));
    ReachesFurther(base, s, Do(step));
    NetSeen(s, step, r);
    QueuesSeen(s, step, r);
  }

  // ---- what single steps do when nothing goes wrong ----

  lemma ServerEffect(n: Net, c: Conn, f: Frame, sid: Sid, o: S.Out)
    requires Enabled(n, ServerReceive(c, f, FINE)) && n.links[c].session == sid && sid in n.sessions
    requires o == S.Receive(n.sessions[sid], sid, c, n.links[c].epoch, f, FINE)
    ensures Effect(n, ServerReceive(c, f, FINE))
            == Result(n.(sessions := n.sessions[sid := o.session]), NOTHING, Sent(c, o.sent))
  {
  }

  lemma ClientEffect(n: Net, c: Conn, f: Frame, o: Out)
    requires Enabled(n, ClientReceive(c, f, FINE)) && o == Receive(n.client, c, n.conns[c], f, FINE)
    ensures Effect(n, ClientReceive(c, f, FINE)) == Result(n.(client := o.client), Sent(c, o.sent), NOTHING)
  {
  }

  lemma ResumeEffect(n: Net, c: Conn, f: Frame, newSid: Sid, t: S.Session, accept: Frame, replay: seq<Frame>)
    requires Enabled(n, ServerHello(c, f, newSid, true, FINE)) && f.resume && f.session != 0 && f.session in n.sessions
    requires S.Resume(n.sessions[f.session], f.session, c, f, false, FINE) == S.Resumed(t, accept, replay)
    ensures Effect(n, ServerHello(c, f, newSid, true, FINE))
            == Result(n.(sessions := n.sessions[f.session := t], links := n.links[c := Bound(f.session, t.epoch)]),
                      NOTHING, Sent(c, [accept] + replay))
  {
  }

  /** A successful commit with its replay. */
  lemma TakeCommit(base: Fifo, s: Fifo, f: Frame, c': Client) returns (s': Fifo)
    requires CanMove(s, CommitAndReplay(f)) && QueuesOK(s) && Reaches(base, s)
    requires Commit(s.net.client, s.net.hand.value.conn, s.net.hand.value.resume, f) == Some(c')
    ensures s' == Apply(s, CommitAndReplay(f)) && QueuesOK(s') && Reaches(base, s') && s'.cut == s.cut
    ensures CommitLeads(s, f, c', s')
  {
    s' := Apply(s, CommitAndReplay(f));
    MoveKeepsQueues(s, CommitAndReplay(f));
    ReachesFurther(base, s, CommitAndReplay(f));
    CommitSeen(s, f, c');
  }

  ghost predicate CommitLeads(s: Fifo, f: Frame, c': Client, s': Fifo)
    requires s.net.hand.Some? && f.Accept?
  {
    var c := s.net.hand.value.conn;
    && s'.net == s.net.(hand := None, client := c', conns := s.net.conns[c := f.epoch],
                        up := s.net.up + Packets(Sent(c, Replay(c', f.epoch))))
    && (forall d | d !in s.cut :: Queue(s'.upQ, d) == Queue(s.upQ, d) + if d == c then Replay(c', f.epoch) else [])
    && (forall d :: Queue(s'.downQ, d) == if d == c && Queue(s.downQ, d) != [] then Queue(s.downQ, d)[1..]
        else Queue(s.downQ, d))
  }

  lemma CommitSeen(s: Fifo, f: Frame, c': Client)
    requires CanMove(s, CommitAndReplay(f))
    requires Commit(s.net.client, s.net.hand.value.conn, s.net.hand.value.resume, f) == Some(c')
    ensures DoCommit(s, f).cut == s.cut && CommitLeads(s, f, c', DoCommit(s, f))
  {
    C.CommitShape(s.net, f);
    ReplayWire(Exec(s.net, CommitHandshake(f)), s.net.hand.value.conn);
  }
}
