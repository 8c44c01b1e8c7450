/** Pings and pongs: which pong answers which ping, at both ends and over whole runs. */
module Pings {
  import opened Wire
  import Stream
  import S = ServerModel
  import opened Net
  import C = NetClientSteps

  /** The server answers a ping on any bound connection, active or not, with its
      nonce, and does nothing else. */
  lemma ServerAnswersPing(n: Net, c: Conn, k: nat, io: Io)
    requires Enabled(n, ServerReceive(c, Ping(k), io))
    ensures Exec(n, ServerReceive(c, Ping(k), io)) == if io.sendOk then n.(down := n.down + {Packet(c, Pong(k))}) else n
  {
    var l := n.links[c];
    assert n.sessions[l.session := n.sessions[l.session]] == n.sessions;
    assert S.Receive(n.sessions[l.session], l.session, c, l.epoch, Ping(k), io).sent
           == if io.sendOk then [Pong(k)] else [];
    assert Packets(NOTHING) == {} && Packets(Sent(c, [Pong(k)])) == {Packet(c, Pong(k))} && Packets(Sent(c, [])) == {};
  }

  lemma ClientAnswersPing(n: Net, c: Conn, k: nat, io: Io)
    requires Enabled(n, ClientReceive(c, Ping(k), io))
    ensures Exec(n, ClientReceive(c, Ping(k), io)) == if io.sendOk then n.(up := n.up + {Packet(c, Pong(k))}) else n
  {
    C.ReceiveShape(n, c, Ping(k), io);
    assert Packets(Sent(c, [Pong(k)])) == {Packet(c, Pong(k))} && Packets(Sent(c, [])) == {};
  }

  /** A heartbeat puts its own nonce on its connection. */
  lemma HeartbeatSendsPing(n: Net, c: Conn, k: nat)
    requires Enabled(n, SendPing(c, k))
    ensures Exec(n, SendPing(c, k)) == n.(up := n.up + {Packet(c, Ping(k))})
  {
    assert Packets(NOTHING) == {} && Packets(Sent(c, [Ping(k)])) == {Packet(c, Ping(k))};
  }

  /** Every pong in flight answers a ping that came on the same connection. */
  ghost predicate Answered(n: Net) {
    && (forall c, k | Packet(c, Pong(k)) in n.down :: Packet(c, Ping(k)) in n.up)
    && (forall c, k | Packet(c, Pong(k)) in n.up :: Packet(c, Ping(k)) in n.down)
  }

  predicate NoPong(s: Sent) {
    forall f | f in s.frames :: !f.Pong?
  }

  lemma ChunksAreData(session: Sid, epoch: nat, dir: Direction, offset: nat, data: seq<byte>)
    ensures forall f | f in Stream.Chunks(session, epoch, dir, offset, data) :: f.Data?
    decreases |data|
  {
  }

  lemma HelloBringsNoPong(n: Net, c: Conn, f: Frame, newSid: Sid, ok: bool, io: Io)
    requires f.Hello?
    ensures NoPong(HelloAtServer(n, c, f, newSid, ok, io).down) && NoPong(HelloAtServer(n, c, f, newSid, ok, io).up)
  {
    if f.resume && f.session in n.sessions {
      var r := S.Resume(n.sessions[f.session], f.session, c, f, !ok, io);
      if r.Resumed? {
        ChunksAreData(f.session, r.session.epoch, ServerToClient, r.session.snd.bufFrom, r.session.snd.buf);
      }
    }
  }

  /** Only the receive handlers send pongs. */
  lemma OnlyReceiversPong(n: Net, step: Step)
    requires Enabled(n, step)
    ensures !step.ServerReceive? ==> NoPong(Effect(n, step).down)
    ensures !step.ClientReceive? ==> NoPong(Effect(n, step).up)
  {
    if step.ServerHello? {
      HelloBringsNoPong(n, step.conn, step.frame, step.newSid, step.ok, step.io);
    } else if step.ReplayClient? {
      ChunksAreData(n.client.session, n.conns[step.conn], ClientToServer, n.client.snd.bufFrom, n.client.snd.buf);
    }
  }

  lemma PongsOfServer(n: Net, c: Conn, f: Frame, io: Io, k: nat)
    requires Enabled(n, ServerReceive(c, f, io)) && Pong(k) in Effect(n, ServerReceive(c, f, io)).down.frames
    ensures f == Ping(k)
  {
  }

  lemma PongsOfClient(n: Net, c: Conn, f: Frame, io: Io, k: nat)
    requires Enabled(n, ClientReceive(c, f, io)) && Pong(k) in Effect(n, ClientReceive(c, f, io)).up.frames
    ensures f == Ping(k)
  {
  }

  lemma StepKeepsAnswered(n: Net, step: Step)
    requires Answered(n) && Enabled(n, step)
    ensures Answered(Exec(n, step))
  {
    OnlyReceiversPong(n, step);
    var r, n' := Effect(n, step), Exec(n, step);
    forall c, k | Packet(c, Pong(k)) in n'.down ensures Packet(c, Ping(k)) in n'.up {
      if Packet(c, Pong(k)) !in n.down {
        PongsOfServer(n, step.conn, step.frame, step.io, k);
      }
    }
    forall c, k | Packet(c, Pong(k)) in n'.up ensures Packet(c, Ping(k)) in n'.down {
      if Packet(c, Pong(k)) !in n.up {
        PongsOfClient(n, step.conn, step.frame, step.io, k);
      }
    }
  }

  /** In every reachable state: no pong without its ping. */
  lemma {:induction false} PongsAnswerPings(states: seq<Net>, steps: seq<Step>, i: nat)
    requires IsRun(states, steps) && i < |states|
    ensures Answered(states[i])
  {
    if i > 0 {
      PongsAnswerPings(states, steps, i - 1);
      StepKeepsAnswered(states[i - 1], steps[i - 1]);
    }
  }
}
