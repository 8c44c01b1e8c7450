/** The ordered system refines the unordered one. */
module FifoRefinement {
  import opened Wire
  import opened ClientModel
  import opened Net
  import opened NetInvariant
  import opened NetSafety
  import opened Fifo

  /** Queues hold only frames that were sent on their connection. */
  ghost predicate QueuesOK(s: Fifo) {
    && (forall c, f | f in Queue(s.upQ, c) :: Packet(c, f) in s.net.up)
    && (forall c, f | f in Queue(s.downQ, c) :: Packet(c, f) in s.net.down)
  }

  /** The steps of `Net` that one move stands for. */
  function NetSteps(s: Fifo, m: Move): seq<Step>
    requires CanMove(s, m)
  {
    match m
    case Do(step) => [step]
    case CommitAndReplay(f) =>
      var c := s.net.hand.value.conn;
      if c in Exec(s.net, CommitHandshake(f)).conns then [CommitHandshake(f), ReplayClient(c)] else [CommitHandshake(f)]
    case Cut(_, _, _) => []
  }

  function RunNet(n: Net, steps: seq<Step>): Option<Net>
    decreases |steps|
  {
    if steps == [] then Some(n)
    else if Enabled(n, steps[0]) then RunNet(Exec(n, steps[0]), steps[1..])
    else None
  }

  /** Each move of the ordered system is a run of steps of the unordered one. */
  lemma MoveIsNetSteps(s: Fifo, m: Move)
    requires CanMove(s, m)
    ensures RunNet(s.net, NetSteps(s, m)) == Some(Apply(s, m).net)
  {
    if m.CommitAndReplay? {
      var c := s.net.hand.value.conn;
      var n' := Exec(s.net, CommitHandshake(m.frame));
      assert NetSteps(s, m)[0] == CommitHandshake(m.frame);
      if c in n'.conns {
        assert NetSteps(s, m)[1..] == [ReplayClient(c)];
        assert Enabled(n', ReplayClient(c));
        assert RunNet(n', [ReplayClient(c)]) == Some(Exec(n', ReplayClient(c)));
      }
    }
  }

  lemma {:induction false} NetRunKeepsInv(n: Net, steps: seq<Step>)
    requires Inv(n) && RunNet(n, steps).Some?
    ensures Inv(RunNet(n, steps).value)
    decreases |steps|
  {
    if steps != [] {
      StepKeepsInv(n, steps[0]);
      NetRunKeepsInv(Exec(n, steps[0]), steps[1..]);
    }
  }

  lemma MoveKeepsInv(s: Fifo, m: Move)
    requires Inv(s.net) && CanMove(s, m)
    ensures Inv(Apply(s, m).net)
  {
    MoveIsNetSteps(s, m);
    NetRunKeepsInv(s.net, NetSteps(s, m));
  }

  lemma PutKeepsQueues(q: map<Conn, seq<Frame>>, sent: Sent, cut: set<Conn>, wire: set<Packet>)
    requires forall c, f | f in Queue(q, c) :: Packet(c, f) in wire
    ensures forall c, f | f in Queue(Put(q, sent, cut), c) :: Packet(c, f) in wire + Packets(sent)
  {
  }

  lemma TakeKeepsQueues(q: map<Conn, seq<Frame>>, c: Conn, wire: set<Packet>)
    requires Queue(q, c) != []
    requires forall d, f | f in Queue(q, d) :: Packet(d, f) in wire
    ensures forall d, f | f in Queue(Take(q, c), d) :: Packet(d, f) in wire
  {
    assert forall f | f in Queue(q, c)[1..] :: f in Queue(q, c);
  }

  lemma StepKeepsQueues(s: Fifo, step: Step)
    requires QueuesOK(s) && CanMove(s, Do(step))
    ensures QueuesOK(Apply(s, Do(step)))
  {
    var r := Effect(s.net, step);
    if ReadsUp(step) { TakeKeepsQueues(s.upQ, step.conn, s.net.up); }
    if step.ClientReceive? { TakeKeepsQueues(s.downQ, step.conn, s.net.down); }
    var up := if ReadsUp(step) then Take(s.upQ, step.conn) else s.upQ;
    var down := if step.ClientReceive? then Take(s.downQ, step.conn) else s.downQ;
    PutKeepsQueues(up, r.up, s.cut, s.net.up);
    PutKeepsQueues(down, r.down, s.cut, s.net.down);
  }

  lemma CommitWire(n: Net, f: Frame)
    requires Enabled(n, CommitHandshake(f))
    ensures Exec(n, CommitHandshake(f)).up == n.up && Exec(n, CommitHandshake(f)).down == n.down
  {
    assert Packets(NOTHING) == {};
  }

  lemma ReplayWire(n: Net, c: Conn)
    requires Enabled(n, ReplayClient(c))
    ensures Exec(n, ReplayClient(c)) == n.(up := n.up + Packets(Sent(c, Replay(n.client, n.conns[c]))))
  {
    assert Packets(NOTHING) == {};
  }

  lemma CommitKeepsQueues(s: Fifo, f: Frame)
    requires QueuesOK(s) && CanMove(s, CommitAndReplay(f))
    ensures QueuesOK(Apply(s, CommitAndReplay(f)))
  {
    var c := s.net.hand.value.conn;
    var n' := Exec(s.net, CommitHandshake(f));
    CommitWire(s.net, f);
    TakeKeepsQueues(s.downQ, c, s.net.down);
    if c in n'.conns {
      ReplayWire(n', c);
      PutKeepsQueues(s.upQ, Sent(c, Replay(n'.client, n'.conns[c])), s.cut, s.net.up);
    }
  }

  lemma MoveKeepsQueues(s: Fifo, m: Move)
    requires QueuesOK(s) && CanMove(s, m)
    ensures QueuesOK(Apply(s, m))
  {
    match m
    case Do(step) => StepKeepsQueues(s, step);
    case CommitAndReplay(f) => CommitKeepsQueues(s, f);
    case Cut(c, k, l) =>
      assert forall f | f in Queue(s.upQ, c)[..k] :: f in Queue(s.upQ, c);
      assert forall f | f in Queue(s.downQ, c)[..l] :: f in Queue(s.downQ, c);
  }

  lemma {:induction false} FifoRunHasInv(states: seq<Fifo>, moves: seq<Move>, i: nat)
    requires IsFifoRun(states, moves) && i < |states|
    ensures Inv(states[i].net) && QueuesOK(states[i])
  {
    if i == 0 {
      InitHasInv(states[0].net);
    } else {
      FifoRunHasInv(states, moves, i - 1);
      MoveKeepsInv(states[i - 1], moves[i - 1]);
      MoveKeepsQueues(states[i - 1], moves[i - 1]);
    }
  }

  /** Refinement: whatever the ordered system reaches, the unordered one reaches. */
  lemma {:induction false} FifoRefinesNet(states: seq<Fifo>, moves: seq<Move>, i: nat)
      returns (nets: seq<Net>, steps: seq<Step>)
    requires IsFifoRun(states, moves) && i < |states|
    ensures IsRun(nets, steps) && nets[|nets| - 1] == states[i].net
  {
    if i == 0 {
      nets, steps := [states[0].net], [];
    } else {
      nets, steps := FifoRefinesNet(states, moves, i - 1);
      var s, m := states[i - 1], moves[i - 1];
      MoveIsNetSteps(s, m);
      nets, steps := Extend(nets, steps, NetSteps(s, m));
    }
  }

  lemma {:induction false} Extend(nets: seq<Net>, steps: seq<Step>, more: seq<Step>)
      returns (nets': seq<Net>, steps': seq<Step>)
    requires IsRun(nets, steps) && RunNet(nets[|nets| - 1], more).Some?
    ensures IsRun(nets', steps') && nets'[|nets'| - 1] == RunNet(nets[|nets| - 1], more).value
    decreases |more|
  {
    if more == [] {
      nets', steps' := nets, steps;
    } else {
      var n := nets[|nets| - 1];
      nets', steps' := Extend(nets + [Exec(n, more[0])], steps + [more[0]], more[1..]);
    }
  }
}
