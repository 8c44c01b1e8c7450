/** The protocol over connections that keep their order: each direction of a
    connection is a queue, and a connection may be cut at any point, losing the
    rest of both queues. Every run of this system is a run of `Net`. Here a
    resume sends its accept, replay and fin in one step, and so does a commit
    with its replay. */
module Fifo {
  import opened Wire
  import opened ClientModel
  import opened Net

  datatype Fifo = Fifo(
    net: Net,
    upQ: map<Conn, seq<Frame>>,
    downQ: map<Conn, seq<Frame>>,
    cut: set<Conn>,
    replayFrom: map<Conn, nat>    // where the server's replay on a connection started
  )

  datatype Move =
    | Do(step: Step)
    | CommitAndReplay(frame: Frame)
    | Cut(conn: Conn, keepUp: nat, keepDown: nat)

  function Queue(q: map<Conn, seq<Frame>>, c: Conn): seq<Frame> {
    if c in q then q[c] else []
  }

  function Put(q: map<Conn, seq<Frame>>, s: Sent, cut: set<Conn>): map<Conn, seq<Frame>> {
    if s.conn in cut then q else q[s.conn := Queue(q, s.conn) + s.frames]
  }

  function Take(q: map<Conn, seq<Frame>>, c: Conn): map<Conn, seq<Frame>>
    requires Queue(q, c) != []
  {
    q[c := Queue(q, c)[1..]]
  }

  predicate HeadIs(q: map<Conn, seq<Frame>>, c: Conn, f: Frame) {
    Queue(q, c) != [] && Queue(q, c)[0] == f
  }

  predicate ReadsUp(step: Step) {
    step.ServerHello? || step.ServerReceive?
  }

  predicate CanMove(s: Fifo, m: Move) {
    match m
    case Do(step) =>
      && Enabled(s.net, step) && !step.ReplayClient? && !step.CommitHandshake?
      && (ReadsUp(step) ==> HeadIs(s.upQ, step.conn, step.frame))
      && (step.ClientReceive? ==> HeadIs(s.downQ, step.conn, step.frame))
    case CommitAndReplay(f) =>
      Enabled(s.net, CommitHandshake(f)) && HeadIs(s.downQ, s.net.hand.value.conn, f)
    case Cut(c, k, l) => k <= |Queue(s.upQ, c)| && l <= |Queue(s.downQ, c)|
  }

  /** Where the server's replay on a connection starts, recorded when a hello binds it. */
  function Starts(s: Fifo, step: Step, n': Net): map<Conn, nat> {
    if step.ServerHello? && step.conn in n'.links && n'.links[step.conn].Bound?
        && n'.links[step.conn].session in n'.sessions then
      s.replayFrom[step.conn := n'.sessions[n'.links[step.conn].session].snd.bufFrom]
    else s.replayFrom
  }

  function DoStep(s: Fifo, step: Step): Fifo
    requires CanMove(s, Do(step))
  {
    var r := Effect(s.net, step);
    var up := if ReadsUp(step) then Take(s.upQ, step.conn) else s.upQ;
    var down := if step.ClientReceive? then Take(s.downQ, step.conn) else s.downQ;
    var n' := Exec(s.net, step);
    Fifo(n', Put(up, r.up, s.cut), Put(down, r.down, s.cut), s.cut, Starts(s, step, n'))
  }

  /** `commitActivation`, with the replay at its end. */
  function DoCommit(s: Fifo, f: Frame): Fifo
    requires CanMove(s, CommitAndReplay(f))
  {
    var c := s.net.hand.value.conn;
    var n' := Exec(s.net, CommitHandshake(f));
    var down := Take(s.downQ, c);
    if c !in n'.conns then s.(net := n', downQ := down)
    else s.(net := Exec(n', ReplayClient(c)), downQ := down,
            upQ := Put(s.upQ, Sent(c, Replay(n'.client, n'.conns[c])), s.cut))
  }

  function Apply(s: Fifo, m: Move): Fifo
    requires CanMove(s, m)
  {
    match m
    case Do(step) => DoStep(s, step)
    case CommitAndReplay(f) => DoCommit(s, f)
    case Cut(c, k, l) =>
      s.(upQ := s.upQ[c := Queue(s.upQ, c)[..k]], downQ := s.downQ[c := Queue(s.downQ, c)[..l]], cut := s.cut + {c})
  }

  ghost predicate FifoInit(s: Fifo) {
    Init(s.net) && s.upQ == map[] && s.downQ == map[] && s.cut == {} && s.replayFrom == map[]
  }

  ghost predicate IsFifoRun(states: seq<Fifo>, moves: seq<Move>) {
    && |states| == |moves| + 1
    && FifoInit(states[0])
    && forall i | 0 <= i < |moves| :: CanMove(states[i], moves[i]) && states[i + 1] == Apply(states[i], moves[i])
  }
}
