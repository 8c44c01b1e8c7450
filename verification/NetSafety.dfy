/** What holds in every state of every run, and what every step keeps. */
module NetSafety {
  import opened Wire
  import opened Stream
  import opened ClientModel
  import S = ServerModel
  import opened Net
  import opened NetInvariant
  import C = NetClientSteps
  import V = NetServerSteps

  lemma InitHasInv(n: Net)
    requires Init(n)
    ensures Inv(n)
  {
  }

  lemma StepKeepsInv(n: Net, step: Step)
    requires Inv(n) && Enabled(n, step)
    ensures Inv(Exec(n, step))
  {
    if C.OfClient(step) {
      C.ClientStepKeepsInv(n, step);
    } else {
      V.ServerStepKeepsInv(n, step);
    }
  }

  lemma {:induction false} RunHasInv(states: seq<Net>, steps: seq<Step>, i: nat)
    requires IsRun(states, steps) && i < |states|
    ensures Inv(states[i])
  {
    if i == 0 {
      InitHasInv(states[0]);
    } else {
      RunHasInv(states, steps, i - 1);
      StepKeepsInv(states[i - 1], steps[i - 1]);
    }
  }

  /** No byte is duplicated, reordered or altered in either direction. */
  lemma StreamsAreExactPrefixes(states: seq<Net>, steps: seq<Step>, i: nat)
    requires IsRun(states, steps) && i < |states|
    ensures var n := states[i];
            if n.client.session == 0 then n.client.stdout == []
            else
              && n.client.session in n.sessions
              && var s := n.sessions[n.client.session];
                 && s.rx <= |n.client.stdin| && s.targetWritten == n.client.stdin[..s.rx]
                 && n.client.rx <= |s.targetRead| && n.client.stdout == s.targetRead[..n.client.rx]
  {
    RunHasInv(states, steps, i);
    var n := states[i];
    if n.client.session != 0 {
      assert SessionOK(n.sessions[n.client.session]) && Agree(n.client, n.sessions[n.client.session]);
    }
  }

  /** A session of an abandoned first handshake never gets a byte. */
  lemma OrphansStayUntouched(states: seq<Net>, steps: seq<Step>, i: nat, sid: Sid)
    requires IsRun(states, steps) && i < |states|
    requires sid in states[i].sessions && sid != states[i].client.session
    ensures states[i].sessions[sid].targetWritten == [] && states[i].sessions[sid].halfCloses == 0
  {
    RunHasInv(states, steps, i);
    assert SessionOK(states[i].sessions[sid]) && Orphan(states[i].sessions[sid]);
  }

  /** Each buffer is the unacknowledged part of its stream, the peer stands
      between ack and next, and what was delivered plus the undelivered tail of
      the buffer is everything that was read. */
  lemma Conservation(states: seq<Net>, steps: seq<Step>, i: nat)
    requires IsRun(states, steps) && i < |states| && states[i].client.session != 0
    ensures var c := states[i].client;
            c.session in states[i].sessions &&
            var s := states[i].sessions[c.session];
            && c.snd.bufFrom == c.snd.ack <= s.rx <= c.snd.next == |c.stdin|
            && c.snd.buf == c.stdin[c.snd.bufFrom..c.snd.next]
            && s.targetWritten + c.snd.buf[s.rx - c.snd.bufFrom..] == c.stdin
            && s.snd.bufFrom == s.snd.ack <= c.rx <= s.snd.next == |s.targetRead|
            && s.snd.buf == s.targetRead[s.snd.bufFrom..s.snd.next]
            && c.stdout + s.snd.buf[c.rx - s.snd.bufFrom..] == s.targetRead
  {
    RunHasInv(states, steps, i);
    var c := states[i].client;
    var s := states[i].sessions[c.session];
    assert SessionOK(s) && Agree(c, s) && ClientOK(c);
    assert c.snd.buf[s.rx - c.snd.bufFrom..] == c.stdin[s.rx..];
    assert s.snd.buf[c.rx - s.snd.bufFrom..] == s.targetRead[c.rx..];
  }

  /** Against a peer running this code no ack, resume hello or accept, however
      delayed, is ahead of the counter it is checked against. */
  lemma NothingIsAhead(states: seq<Net>, steps: seq<Step>, i: nat, c: Conn, f: Frame)
    requires IsRun(states, steps) && i < |states|
    ensures var n := states[i];
            && (Packet(c, f) in n.down && f.Ack? && c in n.conns ==> Advance(n.client.snd, f.received).Moved?)
            && (Packet(c, f) in n.up && f.Ack? && n.client.session in n.sessions ==>
                  Advance(n.sessions[n.client.session].snd, f.received).Moved?)
            && (Packet(c, f) in n.up && f.Hello? && f.resume ==>
                  && f.session in n.sessions && f.c2sRx <= n.sessions[f.session].rx
                  && Advance(n.sessions[f.session].snd, f.s2cRx).Moved?)
            && (Enabled(n, CommitHandshake(f)) && !n.client.finished ==>
                  Commit(n.client, n.hand.value.conn, n.hand.value.resume, f).Some?)
  {
    RunHasInv(states, steps, i);
    var n := states[i];
    if Packet(c, f) in n.down && f.Ack? && c in n.conns {
      ClientAckFits(n, c, f);
    }
    if Packet(c, f) in n.up && f.Ack? && n.client.session in n.sessions {
      ServerAckFits(n, c, f);
    }
    if Packet(c, f) in n.up && f.Hello? && f.resume {
      V.ResumeAccepts(n, c, f);
    }
    if Enabled(n, CommitHandshake(f)) && !n.client.finished {
      C.AcceptFits(n, f);
      C.CommitMove(n.client, n.hand.value.conn, n.hand.value.resume, f, n.sessions[f.session]);
    }
  }

  lemma ClientAckFits(n: Net, c: Conn, f: Frame)
    requires Inv(n) && Packet(c, f) in n.down && f.Ack? && c in n.conns
    ensures Advance(n.client.snd, f.received).Moved?
  {
    assert GoodDown(n.sessions, n.links, Packet(c, f));
    assert n.links[c] == Bound(n.client.session, n.conns[c]);
    assert Agree(n.client, n.sessions[f.session]) && SessionOK(n.sessions[f.session]);
    AdvanceTracks(n.client.snd, n.client.stdin, f.received);
  }

  lemma ServerAckFits(n: Net, c: Conn, f: Frame)
    requires Inv(n) && Packet(c, f) in n.up && f.Ack? && n.client.session in n.sessions
    ensures Advance(n.sessions[n.client.session].snd, f.received).Moved?
  {
    assert GoodUp(n.client, n.conns, n.used, Packet(c, f));
    var s := n.sessions[n.client.session];
    assert SessionOK(s) && Agree(n.client, s);
    AdvanceTracks(s.snd, s.targetRead, f.received);
  }

  /** A server fin reaches the client only as the exact end of the target's
      stream; the client's fin only as the exact end of stdin. */
  lemma HalfCloseIsExact(states: seq<Net>, steps: seq<Step>, i: nat)
    requires IsRun(states, steps) && i < |states| && states[i].client.session != 0
    ensures var c := states[i].client;
            c.session in states[i].sessions &&
            var s := states[i].sessions[c.session];
            && s.halfCloses <= 1
            && (s.halfCloses == 1 ==> c.fin && s.targetWritten == c.stdin)
            && (c.stdoutClosed ==> s.pump.Stopped? && c.stdout == s.targetRead)
  {
    RunHasInv(states, steps, i);
    var c := states[i].client;
    var s := states[i].sessions[c.session];
    assert SessionOK(s) && Agree(c, s) && ClientOK(c);
  }

  /** Neither replay buffer ever exceeds its limit by more than one read. */
  lemma BuffersAreBounded(states: seq<Net>, steps: seq<Step>, i: nat, sid: Sid)
    requires IsRun(states, steps) && i < |states|
    ensures |states[i].client.snd.buf| <= states[0].clientLimit - 1 + 32768
    ensures sid in states[i].sessions ==> |states[i].sessions[sid].snd.buf| <= states[0].serverLimit - 1 + 32768
  {
    RunHasInv(states, steps, i);
    LimitsStay(states, steps, i);
    if sid in states[i].sessions {
      assert PumpOK(states[i].sessions[sid], states[i].serverLimit);
    }
  }

  /** A read of at most 32768 bytes is possible whenever a loop is inside it. */
  lemma ReadsAreBounded(n: Net, p: seq<byte>, last: bool, sid: Sid)
    requires 0 < |p|
    ensures n.reader.Ready? && n.reader.conn in n.conns ==> (Enabled(n, StdinRead(p, last)) <==> |p| <= 32768)
    ensures sid in n.sessions && n.sessions[sid].pump.Reading? ==>
              (Enabled(n, TargetRead(sid, p, last)) <==> |p| <= 32768)
  {
  }

  /** After a read that ends its stream nothing can happen in the loop but that end. */
  lemma LastReadOfStdin(n: Net, p: seq<byte>)
    requires Enabled(n, StdinRead(p, true))
    ensures var n' := Exec(n, StdinRead(p, true));
            && n'.reader.Last? && Enabled(n', StdinEnd) && !Enabled(n', StdinPick) && !Enabled(n', StdinReady)
  {
  }

  lemma LastReadOfTarget(n: Net, p: seq<byte>, sid: Sid)
    requires Enabled(n, TargetRead(sid, p, true))
    ensures var n' := Exec(n, TargetRead(sid, p, true));
            && sid in n'.sessions && n'.sessions[sid].pump.Draining?
            && Enabled(n', TargetEnd(sid)) && !Enabled(n', TargetReady(sid))
  {
  }

  /** A hello that binds nothing is answered with an error, if that can be sent. */
  lemma RefusalIsTold(n: Net, c: Conn, f: Frame, newSid: Sid, ok: bool, io: Io)
    requires Enabled(n, ServerHello(c, f, newSid, ok, io))
    ensures var n' := Exec(n, ServerHello(c, f, newSid, ok, io));
            && c in n'.links
            && (n'.links[c].Refused? ==> n'.down == n.down + if io.sendOk then {Packet(c, Error)} else {})
            && (!f.resume ==> (n'.links[c].Bound? <==> ok))
            && (f.resume && f.session !in n.sessions ==> n'.links[c].Refused?)
  {
    V.HelloShape(n, c, f, newSid, ok, io);
    assert Packets(Sent(c, [Error])) == {Packet(c, Error)} && Packets(Sent(c, [])) == {};
  }

  /** The resume timeout runs exactly while an open session has no connection, so
      a hello that finds a live connection is never refused as too late. */
  lemma TimeoutRunsWhileDisconnected(states: seq<Net>, steps: seq<Step>, i: nat, sid: Sid, c: Conn, f: Frame,
                                     expired: bool, io: Io)
    requires IsRun(states, steps) && i < |states| && sid in states[i].sessions && f.Hello?
    ensures var s := states[i].sessions[sid];
            && (if s.closed then s.active.None? else s.disconnected <==> s.active.None?)
            && (S.Resume(s, sid, c, f, expired, io).Expired? <==> !s.closed && s.active.None? && expired)
  {
    RunHasInv(states, steps, i);
    assert SessionOK(states[i].sessions[sid]);
  }

  lemma StepKeepsLimits(n: Net, step: Step)
    requires Enabled(n, step)
    ensures Exec(n, step).clientLimit == n.clientLimit && Exec(n, step).serverLimit == n.serverLimit
  {
  }

  lemma {:induction false} LimitsStay(states: seq<Net>, steps: seq<Step>, i: nat)
    requires IsRun(states, steps) && i < |states|
    ensures states[i].clientLimit == states[0].clientLimit && states[i].serverLimit == states[0].serverLimit
  {
    if i > 0 {
      LimitsStay(states, steps, i - 1);
      StepKeepsLimits(states[i - 1], steps[i - 1]);
    }
  }

  /** The client never holds a later epoch than its session; an epoch names one
      connection; when the epochs agree, both active connections are the same. */
  lemma EpochsAgree(states: seq<Net>, steps: seq<Step>, i: nat, c: Conn, d: Conn)
    requires IsRun(states, steps) && i < |states|
    ensures var n := states[i];
            && (c in n.links && d in n.links && n.links[c].Bound? && n.links[c] == n.links[d] ==> c == d)
            && (n.client.session != 0 ==>
                  n.client.session in n.sessions &&
                  var s := n.sessions[n.client.session];
                  && n.client.epoch <= s.epoch
                  && (n.client.active == Some(c) && s.active == Some(d) ==> (n.client.epoch == s.epoch <==> c == d)))
  {
    RunHasInv(states, steps, i);
    var n := states[i];
    if n.client.session != 0 {
      assert Agree(n.client, n.sessions[n.client.session]);
    }
  }

  /** The system keeps closed sessions where the server deletes them: a hello finds
      no difference between the two. */
  lemma ClosedIsUnknown(n: Net, c: Conn, f: Frame, newSid: Sid, ok: bool, io: Io)
    requires f.Hello? && f.resume && f.session in n.sessions && n.sessions[f.session].closed
    ensures var kept := HelloAtServer(n, c, f, newSid, ok, io);
            var deleted := HelloAtServer(n.(sessions := n.sessions - {f.session}), c, f, newSid, ok, io);
            && deleted.up == kept.up && deleted.down == kept.down
            && deleted.net == kept.net.(sessions := kept.net.sessions - {f.session})
  {
  }
}
