/** Resynchronisation over whole runs of the ordered system. */
module FifoTheorems {
  import opened Wire
  import opened Stream
  import opened NetInvariant
  import opened Fifo
  import opened FifoRefinement
  import opened FifoUpstream
  import D = FifoDownstream

  /** A move that commits a connection. */
  ghost predicate Commits(s: Fifo, m: Move) {
    m.CommitAndReplay? && !s.net.client.finished
  }

  /** From the start, or from any commit on, the server's side of the live
      connection stays in step until a chunk goes to a stale connection. */
  lemma {:induction false} UpstreamStaysInStep(states: seq<Fifo>, moves: seq<Move>, i: nat, j: nat)
    requires IsFifoRun(states, moves) && i <= j < |states|
    requires i == 0 || Commits(states[i - 1], moves[i - 1])
    requires forall k | i <= k < j :: !StaleRead(states[k], moves[k])
    ensures UpSync(states[j])
    decreases j
  {
    if j == 0 {
      StartIsInStep(states[0]);
    } else {
      FifoRunHasInv(states, moves, j - 1);
      if i == j {
        CommitGivesSync(states[j - 1], moves[j - 1].frame);
      } else {
        UpstreamStaysInStep(states, moves, i, j - 1);
        MoveKeepsSync(states[j - 1], moves[j - 1]);
      }
    }
  }

  /** In such a state the server never meets a gap, a partial overlap or a
      misplaced fin; and once it has read the live connection to its end, the
      target has every byte the client read. */
  lemma UpstreamResynchronises(states: seq<Fifo>, moves: seq<Move>, i: nat, j: nat, c: Conn)
    requires IsFifoRun(states, moves) && i <= j < |states|
    requires i == 0 || Commits(states[i - 1], moves[i - 1])
    requires forall k | i <= k < j :: !StaleRead(states[k], moves[k])
    requires Live(states[j].net, c)
    ensures var s := states[j].net.sessions[states[j].net.client.session];
            var q := Queue(states[j].upQ, c);
            if q == [] then c !in states[j].cut ==> s.targetWritten == states[j].net.client.stdin
            else
              && (q[0].Data? ==>
                  Judge(s.rx, q[0].offset, |q[0].payload|).Fresh? ||
                  Judge(s.rx, q[0].offset, |q[0].payload|).Duplicate?)
              && (q[0].Fin? ==> q[0].offset == s.rx)
  {
    UpstreamStaysInStep(states, moves, i, j);
    FifoRunHasInv(states, moves, j);
    var n := states[j].net;
    assert SessionOK(n.sessions[n.client.session]) && Agree(n.client, n.sessions[n.client.session])
           && ClientOK(n.client);
  }

  lemma StartIsInStep(s: Fifo)
    requires FifoInit(s)
    ensures D.HandSync(s) && D.DownSync(s) && UpSync(s)
  {
  }

  lemma KeepHand(s: Fifo, m: Move, s': Fifo)
    requires Inv(s.net) && QueuesOK(s) && D.HandSync(s) && CanMove(s, m) && s' == Apply(s, m)
    ensures D.HandSync(s')
  {
    D.MoveKeepsHand(s, m);
  }

  lemma KeepDown(s: Fifo, m: Move, s': Fifo)
    requires Inv(s.net) && QueuesOK(s) && D.DownSync(s) && D.HandSync(s)
    requires CanMove(s, m) && !D.StraddlingCommit(s, m) && s' == Apply(s, m)
    ensures D.DownSync(s')
  {
    D.MoveKeepsDown(s, m);
  }

  lemma CommitDown(s: Fifo, m: Move, s': Fifo)
    requires Inv(s.net) && QueuesOK(s) && D.HandSync(s) && Commits(s, m)
    requires CanMove(s, m) && !D.StraddlingCommit(s, m) && s' == Apply(s, m)
    ensures D.DownSync(s')
  {
    D.CommitGivesDownIff(s, m.frame);
  }

  lemma {:induction false} HandshakesStayChained(states: seq<Fifo>, moves: seq<Move>, j: nat)
    requires IsFifoRun(states, moves) && j < |states|
    ensures D.HandSync(states[j])
  {
    if j == 0 {
      StartIsInStep(states[0]);
    } else {
      HandshakesStayChained(states, moves, j - 1);
      FifoRunHasInv(states, moves, j - 1);
      KeepHand(states[j - 1], moves[j - 1], states[j]);
    }
  }

  /** From the start, or from any commit that is not straddled on, the client
      stays in step until a straddled commit. */
  lemma {:induction false} DownstreamStaysInStep(states: seq<Fifo>, moves: seq<Move>, i: nat, j: nat)
    requires IsFifoRun(states, moves) && i <= j < |states|
    requires i == 0 || (Commits(states[i - 1], moves[i - 1]) && !D.StraddlingCommit(states[i - 1], moves[i - 1]))
    requires forall k | i <= k < j :: !D.StraddlingCommit(states[k], moves[k])
    ensures D.DownSync(states[j])
    decreases j
  {
    if j == 0 {
      StartIsInStep(states[0]);
    } else {
      if i < j {
        DownstreamStaysInStep(states, moves, i, j - 1);
      }
      DownstreamStep(states, moves, j - 1);
    }
  }

  /** One move of a run: in step after it, if it is a commit or in step before it. */
  lemma DownstreamStep(states: seq<Fifo>, moves: seq<Move>, k: nat)
    requires IsFifoRun(states, moves) && k < |moves| && !D.StraddlingCommit(states[k], moves[k])
    requires Commits(states[k], moves[k]) || D.DownSync(states[k])
    ensures D.DownSync(states[k + 1])
  {
    FifoRunHasInv(states, moves, k);
    HandshakesStayChained(states, moves, k);
    if Commits(states[k], moves[k]) {
      CommitDown(states[k], moves[k], states[k + 1]);
    } else {
      KeepDown(states[k], moves[k], states[k + 1]);
    }
  }

  /** In such a state the client never meets a gap, a partial overlap or a
      misplaced fin; and once it has read to the end a connection the server still
      sends on, or the fin, stdout has every byte the target produced. */
  lemma DownstreamResynchronises(states: seq<Fifo>, moves: seq<Move>, i: nat, j: nat, c: Conn)
    requires IsFifoRun(states, moves) && i <= j < |states|
    requires i == 0 || (Commits(states[i - 1], moves[i - 1]) && !D.StraddlingCommit(states[i - 1], moves[i - 1]))
    requires forall k | i <= k < j :: !D.StraddlingCommit(states[k], moves[k])
    requires states[j].net.client.active == Some(c)
    ensures states[j].net.client.session in states[j].net.sessions
    ensures var s := states[j].net.sessions[states[j].net.client.session];
            var cl := states[j].net.client;
            var q := Queue(states[j].downQ, c);
            if q == [] then
              (s.active == Some(c) && c !in states[j].cut) || cl.stdoutClosed ==> cl.stdout == s.targetRead
            else
              && (q[0].Data? ==>
                  Judge(cl.rx, q[0].offset, |q[0].payload|).Fresh? ||
                  Judge(cl.rx, q[0].offset, |q[0].payload|).Duplicate?)
              && (q[0].Fin? ==> q[0].offset == cl.rx)
  {
    DownstreamStaysInStep(states, moves, i, j);
    FifoRunHasInv(states, moves, j);
    var n := states[j].net;
    assert n.client.session in n.sessions;
    assert SessionOK(n.sessions[n.client.session]) && Agree(n.client, n.sessions[n.client.session]);
  }

  /** A commit is straddled only if a connection was still active when its
      handshake began; and whether it is decides whether the client is in step. */
  lemma ColdCommitsAreNeverStraddled(states: seq<Fifo>, moves: seq<Move>, i: nat)
    requires IsFifoRun(states, moves) && i < |moves| && Commits(states[i], moves[i])
    ensures D.StraddlingCommit(states[i], moves[i]) ==> !states[i].net.hand.value.cold
    ensures D.DownSync(states[i + 1]) <==> !D.StraddlingCommit(states[i], moves[i])
  {
    FifoRunHasInv(states, moves, i);
    HandshakesStayChained(states, moves, i);
    D.CommitGivesDownIff(states[i], moves[i].frame);
  }

  /** The server's replay on a bound connection starts at or below what the client has. */
  lemma ReplayNeverOpensGap(states: seq<Fifo>, moves: seq<Move>, i: nat)
    requires IsFifoRun(states, moves) && i < |states| && states[i].net.hand.Some?
    requires states[i].net.hand.value.conn in states[i].net.links
             && states[i].net.links[states[i].net.hand.value.conn].Bound?
    ensures var h := states[i].net.hand.value;
            && h.conn in states[i].replayFrom && states[i].replayFrom[h.conn] <= states[i].net.client.rx
            && (h.cold ==> states[i].replayFrom[h.conn] == states[i].net.client.rx)
  {
    HandshakesStayChained(states, moves, i);
  }
}
