/** Epoch fencing: which steps may move the protocol's counters, and what stale
    connections can no longer do. */
module NetFencing {
  import opened Wire
  import opened ClientModel
  import S = ServerModel
  import opened Net
  import opened NetInvariant
  import opened NetSafety
  import C = NetClientSteps
  import V = NetServerSteps

  // ---- server ----

  /** The session `sid` after a step, read off the steps that touch sessions. */
  function SessionAfter(n: Net, step: Step, sid: Sid): S.Session
    requires Enabled(n, step) && sid in n.sessions
  {
    var s := n.sessions[sid];
    match step
    case ServerHello(c, f, _, ok, io) =>
      if f.resume && f.session == sid && sid != 0 then
        (match S.Resume(s, sid, c, f, !ok, io)
         case Resumed(s', _, _) => s'
         case Expired(o) => o.session
         case Refused => s)
      else s
    case ServerReceive(c, f, io) =>
      if n.links[c].session == sid then S.Receive(s, sid, c, n.links[c].epoch, f, io).session else s
    case ServerDisconnect(c) => if n.links[c].session == sid then S.Disconnect(s, c) else s
    case ServerClose(d, io) => if d == sid then S.CloseTerminal(s, sid, io.sendOk).session else s
    case TargetReady(d) => if d == sid then s.(pump := S.Reading) else s
    case TargetRead(d, p, end) => if d == sid then S.TargetRead(s, sid, p, end).session else s
    case TargetEnd(d) => if d == sid then S.TargetEnd(s, sid).session else s
    case _ => s
  }

  lemma ServerAfter(n: Net, step: Step, sid: Sid)
    requires Enabled(n, step) && sid in n.sessions && V.OfServer(step)
    ensures sid in Exec(n, step).sessions && Exec(n, step).sessions[sid] == SessionAfter(n, step, sid)
    ensures Exec(n, step).client == n.client
  {
    if step.ServerHello? {
      V.HelloShape(n, step.conn, step.frame, step.newSid, step.ok, step.io);
    } else if step.ServerReceive? {
      V.ReceiveShape(n, step.conn, step.frame, step.io);
    } else if step.ServerDisconnect? {
      V.DisconnectShape(n, step.conn);
    } else if step.ServerClose? {
      V.CloseShape(n, step.sid, step.io);
    } else {
      TargetAfter(n, step, sid);
    }
  }

  lemma TargetAfter(n: Net, step: Step, sid: Sid)
    requires Enabled(n, step) && sid in n.sessions && (step.TargetReady? || step.TargetRead? || step.TargetEnd?)
    ensures sid in Exec(n, step).sessions && Exec(n, step).sessions[sid] == SessionAfter(n, step, sid)
    ensures Exec(n, step).client == n.client
  {
    if step.TargetReady? {
      V.ReadyShape(n, step.sid);
    } else if step.TargetRead? {
      V.ReadShape(n, step.sid, step.bytes, step.end);
    } else {
      V.EndShape(n, step.sid);
    }
  }

  lemma ClientKeepsSessions(n: Net, step: Step)
    requires Enabled(n, step) && C.OfClient(step)
    ensures Exec(n, step).sessions == n.sessions
  {
  }

  lemma AfterStep(n: Net, step: Step, sid: Sid)
    requires Enabled(n, step) && sid in n.sessions
    ensures sid in Exec(n, step).sessions && Exec(n, step).sessions[sid] == SessionAfter(n, step, sid)
  {
    if C.OfClient(step) {
      ClientKeepsSessions(n, step);
    } else {
      ServerAfter(n, step, sid);
    }
  }

  /** A frame read on the session's active connection and stamped with its epoch. */
  ghost predicate FromCurrent(n: Net, step: Step, sid: Sid)
    requires sid in n.sessions
  {
    var s := n.sessions[sid];
    step.ServerReceive? && s.active == Some(step.conn) && step.frame.Session() == sid && step.frame.Epoch() == s.epoch
  }

  /** How far one received frame may move a session. */
  ghost predicate SessionDelta(s: S.Session, s': S.Session, sid: Sid, c: Conn, f: Frame) {
    && (s'.rx != s.rx || s'.targetWritten != s.targetWritten ==> S.IsActive(s, sid, c, f) && f.Data?)
    && (s'.c2sFin != s.c2sFin || s'.halfCloses != s.halfCloses ==> S.IsActive(s, sid, c, f) && f.Fin?)
    && (s'.snd.ack != s.snd.ack ==> S.IsActive(s, sid, c, f) && f.Ack?)
    && s'.epoch == s.epoch && s'.targetRead == s.targetRead && s'.snd.next == s.snd.next
    && s.targetWritten <= s'.targetWritten && s.halfCloses <= s'.halfCloses
    && (s.closed ==> s'.closed)
    && (s'.active == s.active || (s'.active.None? && S.IsActive(s, sid, c, f)))
  }

  lemma DataDelta(s: S.Session, sid: Sid, c: Conn, epoch: nat, f: Frame, io: Io)
    requires f.Data? && S.IsActive(s, sid, c, f)
    ensures SessionDelta(s, S.HandleData(s, sid, c, epoch, f, io).session, sid, c, f)
  {
    V.DataOutcome(s, sid, c, epoch, f, io);
  }

  lemma FinDelta(s: S.Session, sid: Sid, c: Conn, epoch: nat, f: Frame, io: Io)
    requires f.Fin? && S.IsActive(s, sid, c, f)
    ensures SessionDelta(s, S.HandleFin(s, sid, c, epoch, f, io).session, sid, c, f)
  {
  }

  lemma SessionReceiveDelta(s: S.Session, sid: Sid, c: Conn, epoch: nat, f: Frame, io: Io)
    ensures SessionDelta(s, S.Receive(s, sid, c, epoch, f, io).session, sid, c, f)
  {
    if S.IsActive(s, sid, c, f) {
      if f.Data? {
        DataDelta(s, sid, c, epoch, f, io);
      } else if f.Fin? {
        FinDelta(s, sid, c, epoch, f, io);
      }
    }
  }

  /** Only a frame of the current connection and epoch moves the receive offset
      or the fin mark; the ack moves only by such a frame or by a resume, which
      opens a new epoch. */
  lemma ServerFencing(n: Net, step: Step, sid: Sid)
    requires Enabled(n, step) && sid in n.sessions
    ensures sid in Exec(n, step).sessions
    ensures var s, s' := n.sessions[sid], Exec(n, step).sessions[sid];
            && (s'.rx != s.rx || s'.targetWritten != s.targetWritten ==> FromCurrent(n, step, sid) && step.frame.Data?)
            && (s'.c2sFin != s.c2sFin || s'.halfCloses != s.halfCloses ==> FromCurrent(n, step, sid) && step.frame.Fin?)
            && (s'.snd.ack != s.snd.ack ==>
                  (FromCurrent(n, step, sid) && step.frame.Ack?) || (step.ServerHello? && s'.epoch == s.epoch + 1))
            && (s'.epoch == s.epoch || (step.ServerHello? && s'.epoch == s.epoch + 1 && s'.active == Some(step.conn)))
  {
    AfterStep(n, step, sid);
    AfterFences(n, step, sid);
  }

  lemma AfterFences(n: Net, step: Step, sid: Sid)
    requires Enabled(n, step) && sid in n.sessions
    ensures var s, s' := n.sessions[sid], SessionAfter(n, step, sid);
            && (s'.rx != s.rx || s'.targetWritten != s.targetWritten ==> FromCurrent(n, step, sid) && step.frame.Data?)
            && (s'.c2sFin != s.c2sFin || s'.halfCloses != s.halfCloses ==> FromCurrent(n, step, sid) && step.frame.Fin?)
            && (s'.snd.ack != s.snd.ack ==>
                  (FromCurrent(n, step, sid) && step.frame.Ack?) || (step.ServerHello? && s'.epoch == s.epoch + 1))
            && (s'.epoch == s.epoch || (step.ServerHello? && s'.epoch == s.epoch + 1 && s'.active == Some(step.conn)))
  {
    if step.ServerReceive? && n.links[step.conn].session == sid {
      SessionReceiveDelta(n.sessions[sid], sid, step.conn, n.links[step.conn].epoch, step.frame, step.io);
    }
  }

  /** Losing a connection, or a protocol error on it, takes away the active
      connection only if that is the connection itself. */
  lemma StaleLossIsHarmless(n: Net, step: Step, sid: Sid)
    requires Inv(n) && Enabled(n, step) && sid in n.sessions
    requires step.ServerDisconnect? || step.ServerReceive?
    requires n.sessions[sid].active.Some? && n.sessions[sid].active != Some(step.conn)
    ensures sid in Exec(n, step).sessions && Exec(n, step).sessions[sid] == n.sessions[sid]
  {
    AfterStep(n, step, sid);
  }

  lemma StaleDropIsHarmless(n: Net, c: Conn)
    requires n.client.active != Some(c)
    ensures Exec(n, DropActive(c)).client == n.client
  {
    C.DropShape(n, c);
  }

  // ---- client ----

  /** How far one received frame may move the client. */
  ghost predicate ClientDelta(c: Client, c': Client, conn: Conn, f: Frame) {
    && (c'.rx != c.rx || c'.stdout != c.stdout ==> Current(c, conn, f) && f.Data?)
    && (c'.stdoutClosed != c.stdoutClosed ==> Current(c, conn, f) && f.Fin?)
    && (c'.snd.ack != c.snd.ack ==> Current(c, conn, f) && f.Ack?)
    && c'.epoch == c.epoch && c'.session == c.session
    && (c'.active != c.active ==> c'.active.None? && Current(c, conn, f))
    && c'.stdin == c.stdin && c'.fin == c.fin && c.stdout <= c'.stdout
  }

  lemma ClientDataDelta(c: Client, conn: Conn, epoch: nat, f: Frame, io: Io)
    requires f.Data? && Current(c, conn, f)
    ensures ClientDelta(c, HandleData(c, epoch, f, io).client, conn, f)
  {
  }

  lemma ReceiveDelta(c: Client, conn: Conn, epoch: nat, f: Frame, io: Io)
    ensures ClientDelta(c, Receive(c, conn, epoch, f, io).client, conn, f)
  {
    if f.Data? && Current(c, conn, f) {
      ClientDataDelta(c, conn, epoch, f, io);
    }
  }

  /** Only a frame of the current connection, epoch and session moves what stdout
      has taken; the ack moves only by such a frame or by a commit. */
  lemma ClientFencing(n: Net, step: Step)
    requires Enabled(n, step) && C.OfClient(step)
    ensures var c, c' := n.client, Exec(n, step).client;
            if step.ClientReceive? then ClientDelta(c, c', step.conn, step.frame)
            else
              && c'.rx == c.rx && c'.stdout == c.stdout && c'.stdoutClosed == c.stdoutClosed
              && (c'.snd.ack != c.snd.ack || c'.epoch != c.epoch || c'.session != c.session ==> step.CommitHandshake?)
              && (c'.active != c.active && c'.active.Some? ==> step.CommitHandshake?)
  {
    if step.ClientReceive? {
      C.ReceiveShape(n, step.conn, step.frame, step.io);
      ReceiveDelta(n.client, step.conn, n.conns[step.conn], step.frame, step.io);
    } else if step.CommitHandshake? {
      CommitDelta(n, step.frame);
    } else if step.DropActive? {
      C.DropShape(n, step.conn);
    } else if step.FinishClient? {
      C.DropShape(n, 0);
    } else {
      QuietClient(n, step);
    }
  }

  lemma CommitDelta(n: Net, f: Frame)
    requires Enabled(n, CommitHandshake(f))
    ensures var c, c' := n.client, Exec(n, CommitHandshake(f)).client;
            && c'.rx == c.rx && c'.stdout == c.stdout && c'.stdoutClosed == c.stdoutClosed
            && c'.stdin == c.stdin && c'.fin == c.fin
  {
    C.CommitShape(n, f);
  }

  lemma QuietClient(n: Net, step: Step)
    requires Enabled(n, step) && C.OfClient(step)
    requires !step.ClientReceive? && !step.CommitHandshake? && !step.DropActive? && !step.FinishClient?
    ensures var c, c' := n.client, Exec(n, step).client;
            c'.rx == c.rx && c'.stdout == c.stdout && c'.stdoutClosed == c.stdoutClosed && c'.snd.ack == c.snd.ack
            && c'.epoch == c.epoch && c'.session == c.session && c'.active == c.active
  {
  }

  lemma ConnsStay(n: Net, step: Step)
    requires Enabled(n, step) && !step.CommitHandshake?
    ensures Exec(n, step).conns == n.conns
  {
  }

  /** Every commit takes a strictly later epoch, whatever hellos were abandoned
      before it; with it the buffer starts exactly at the server's receive offset. */
  lemma CommitRaisesEpoch(n: Net, f: Frame)
    requires Inv(n) && Enabled(n, CommitHandshake(f)) && !n.client.finished
    ensures var n' := Exec(n, CommitHandshake(f));
            && n'.client.epoch == f.epoch > n.client.epoch
            && n'.client.active == Some(n.hand.value.conn)
            && n'.client.session == f.session && f.session in n.sessions
            && n'.client.snd.bufFrom == n.sessions[f.session].rx
  {
    C.CommitShape(n, f);
    C.AcceptFits(n, f);
    C.CommitMove(n.client, n.hand.value.conn, n.hand.value.resume, f, n.sessions[f.session]);
  }

  // ---- over runs ----

  /** What no step ever takes back. */
  ghost predicate Later(n: Net, n': Net) {
    && ClientIsLater(n.client, n'.client)
    && (forall sid | sid in n.sessions :: sid in n'.sessions && SessionLater(n.sessions[sid], n'.sessions[sid]))
  }

  ghost predicate SessionLater(s: S.Session, s': S.Session) {
    && s.targetWritten <= s'.targetWritten
    && s.targetRead <= s'.targetRead
    && s.epoch <= s'.epoch
    && s.halfCloses <= s'.halfCloses
    && (s.closed ==> s'.closed)
  }

  ghost predicate ClientIsLater(c: Client, c': Client) {
    && c.stdin <= c'.stdin && (c.fin ==> c'.fin && c'.stdin == c.stdin)
    && c.stdout <= c'.stdout && c.epoch <= c'.epoch
    && (c.session != 0 ==> c'.session == c.session)
  }

  lemma CommitIsLater(n: Net, f: Frame)
    requires Inv(n) && Enabled(n, CommitHandshake(f))
    ensures ClientIsLater(n.client, Exec(n, CommitHandshake(f)).client)
  {
    C.CommitShape(n, f);
    C.AcceptFits(n, f);
  }

  lemma ClientLater(n: Net, step: Step)
    requires Inv(n) && Enabled(n, step)
    ensures ClientIsLater(n.client, Exec(n, step).client)
  {
    if step.CommitHandshake? {
      CommitIsLater(n, step.frame);
    } else if step.ClientReceive? {
      C.ReceiveShape(n, step.conn, step.frame, step.io);
      ReceiveDelta(n.client, step.conn, n.conns[step.conn], step.frame, step.io);
    } else if V.OfServer(step) {
      ServerKeepsClient(n, step);
    } else {
      OtherClientLater(n, step);
    }
  }

  lemma ServerKeepsClient(n: Net, step: Step)
    requires Enabled(n, step) && V.OfServer(step)
    ensures Exec(n, step).client == n.client
  {
    if step.ServerHello? {
      V.HelloShape(n, step.conn, step.frame, step.newSid, step.ok, step.io);
    } else {
      var sid := if step.ServerReceive? || step.ServerDisconnect? then n.links[step.conn].session else step.sid;
      ServerAfter(n, step, sid);
    }
  }

  lemma OtherClientLater(n: Net, step: Step)
    requires ReaderOK(n.client, n.reader, n.conns, n.clientLimit) && Enabled(n, step) && C.OfClient(step)
    requires !step.CommitHandshake? && !step.ClientReceive?
    ensures ClientIsLater(n.client, Exec(n, step).client)
  {
  }

  lemma ResumeIsLater(s: S.Session, sid: Sid, c: Conn, f: Frame, expired: bool, io: Io)
    requires f.Hello?
    ensures var r := S.Resume(s, sid, c, f, expired, io);
            && (r.Resumed? ==> SessionLater(s, r.session))
            && (r.Expired? ==> SessionLater(s, r.out.session))
  {
  }

  lemma SessionsLater(n: Net, step: Step, sid: Sid)
    requires Enabled(n, step) && sid in n.sessions
    ensures sid in Exec(n, step).sessions && SessionLater(n.sessions[sid], Exec(n, step).sessions[sid])
  {
    AfterStep(n, step, sid);
    AfterIsLater(n, step, sid);
  }

  lemma AfterIsLater(n: Net, step: Step, sid: Sid)
    requires Enabled(n, step) && sid in n.sessions
    ensures SessionLater(n.sessions[sid], SessionAfter(n, step, sid))
  {
    var s := n.sessions[sid];
    if step.ServerReceive? && n.links[step.conn].session == sid {
      SessionReceiveDelta(s, sid, step.conn, n.links[step.conn].epoch, step.frame, step.io);
    } else if step.ServerHello? {
      ResumeIsLater(s, sid, step.conn, step.frame, !step.ok, step.io);
    }
  }

  lemma StepIsLater(n: Net, step: Step)
    requires Inv(n) && Enabled(n, step)
    ensures Later(n, Exec(n, step))
  {
    ClientLater(n, step);
    forall sid | sid in n.sessions
      ensures sid in Exec(n, step).sessions && SessionLater(n.sessions[sid], Exec(n, step).sessions[sid])
    {
      SessionsLater(n, step, sid);
    }
  }

  /** Streams only grow and epochs never fall, over any stretch of any run. */
  lemma {:induction false} RunIsLater(states: seq<Net>, steps: seq<Step>, i: nat, j: nat)
    requires IsRun(states, steps) && i <= j < |states|
    ensures Later(states[i], states[j])
    decreases j - i
  {
    if i < j {
      RunIsLater(states, steps, i, j - 1);
      RunHasInv(states, steps, j - 1);
      StepIsLater(states[j - 1], steps[j - 1]);
      LaterIsTransitive(states[i], states[j - 1], states[j]);
    }
  }

  lemma LaterIsTransitive(a: Net, b: Net, c: Net)
    requires Later(a, b) && Later(b, c)
    ensures Later(a, c)
  {
    forall sid | sid in a.sessions ensures sid in c.sessions && SessionLater(a.sessions[sid], c.sessions[sid]) {
      assert SessionLater(a.sessions[sid], b.sessions[sid]) && SessionLater(b.sessions[sid], c.sessions[sid]);
    }
  }

  /** Once the target's write side is shut, nothing is written to it any more,
      and it is not shut again. */
  lemma NothingAfterHalfClose(states: seq<Net>, steps: seq<Step>, i: nat, j: nat)
    requires IsRun(states, steps) && i <= j < |states|
    requires states[i].client.session in states[i].sessions
             && states[i].sessions[states[i].client.session].halfCloses >= 1
    ensures var sid := states[i].client.session;
            && sid in states[j].sessions
            && states[j].sessions[sid].targetWritten == states[i].sessions[sid].targetWritten
            && states[j].sessions[sid].halfCloses == 1
  {
    var sid := states[i].client.session;
    RunHasInv(states, steps, i);
    RunHasInv(states, steps, j);
    RunIsLater(states, steps, i, j);
    assert SessionOK(states[i].sessions[sid]) && Agree(states[i].client, states[i].sessions[sid]);
    assert SessionOK(states[j].sessions[sid]) && Agree(states[j].client, states[j].sessions[sid]);
  }

  /** Two commits of one run always take strictly increasing epochs. */
  lemma CommittedEpochsIncrease(states: seq<Net>, steps: seq<Step>, i: nat, j: nat)
    requires IsRun(states, steps) && i < j < |steps|
    requires steps[i].CommitHandshake? && !states[i].client.finished
    requires steps[j].CommitHandshake? && !states[j].client.finished
    ensures states[i + 1].client.epoch < states[j + 1].client.epoch
    ensures states[i + 1].client.session == states[j + 1].client.session
  {
    RunHasInv(states, steps, i);
    RunHasInv(states, steps, j);
    CommitRaisesEpoch(states[i], steps[i].frame);
    CommitRaisesEpoch(states[j], steps[j].frame);
    RunIsLater(states, steps, i + 1, j);
    C.AcceptFits(states[i], steps[i].frame);
    RunIsLater(states, steps, j, j + 1);
  }

  lemma FramesStay(n: Net, step: Step)
    requires Enabled(n, step)
    ensures n.up <= Exec(n, step).up
  {
  }

  lemma {:induction false} FramesStayInRun(states: seq<Net>, steps: seq<Step>, i: nat, j: nat)
    requires IsRun(states, steps) && i <= j < |states|
    ensures states[i].up <= states[j].up
    decreases j
  {
    if i < j {
      FramesStayInRun(states, steps, i, j - 1);
      FramesStay(states[j - 1], steps[j - 1]);
    }
  }

  /** What the offsets in a resume hello are good for, however late it is read:
      the server never refuses them, and its replay then starts no lower than what
      the client had when it said hello, and no higher than what it has by now. */
  lemma HelloOffsetsStayGood(states: seq<Net>, steps: seq<Step>, i: nat, j: nat, expired: bool, io: Io)
    requires IsRun(states, steps) && i < j < |states| && steps[i].StartHandshake? && states[i].client.session != 0
    ensures var c, cl := steps[i].conn, states[i].client;
            var hello := Hello(true, cl.session, cl.snd.ack, cl.rx);
            && Packet(c, hello) in states[j].up && cl.session in states[j].sessions
            && var r := S.Resume(states[j].sessions[cl.session], cl.session, c, hello, expired, io);
               && (r.Refused? <==> states[j].sessions[cl.session].closed)
               && (r.Resumed? ==> cl.rx <= r.session.snd.bufFrom <= states[j].client.rx)
  {
    var c, cl := steps[i].conn, states[i].client;
    var hello := Hello(true, cl.session, cl.snd.ack, cl.rx);
    C.StartShape(states[i], c);
    FramesStayInRun(states, steps, i + 1, j);
    RunHasInv(states, steps, j);
    V.ResumeAccepts(states[j], c, hello);
    assert SessionOK(states[j].sessions[cl.session]);
  }
}
