/** Two runs of the ordered system that show what the resynchronisation theorems
    have to exclude: a chunk that goes out on a stale connection, and a replay
    that straddles the client's receive offset. */
module Witness {
  import opened Wire
  import opened Stream
  import opened ClientModel
  import S = ServerModel
  import opened Net
  import opened Reading
  import opened Fifo
  import opened FifoRefinement
  import U = FifoUpstream
  import D = FifoDownstream
  import opened FifoPaths
  import R = Recovery
  import X = Loss

  /** Everything in a state that matters for the two runs: the queues are those of
      connections 1 and 2. */
  datatype View = View(client: Client, hand: Option<Handshake>, conns: map<Conn, nat>, reader: Reader,
                       session: Option<S.Session>, links: map<Conn, Link>, used: set<Conn>,
                       up1: seq<Frame>, up2: seq<Frame>, down1: seq<Frame>, down2: seq<Frame>)

  const SID: Sid := 7

  const FIRST_HELLO := Hello(false, 0, 0, 0)
  const FIRST_ACCEPT := Accept(SID, 1, 0, 0)
  const SECOND_HELLO := Hello(true, SID, 0, 0)
  const SECOND_ACCEPT := Accept(SID, 2, 0, 0)

  ghost predicate Looks(s: Fifo, v: View) {
    && QueuesOK(s) && s.cut == {} && s.net.clientLimit == s.net.serverLimit == 10
    && s.net.client == v.client && s.net.hand == v.hand && s.net.conns == v.conns && s.net.reader == v.reader
    && s.net.sessions == (if v.session.Some? then map[SID := v.session.value] else map[])
    && s.net.links == v.links && s.net.used == v.used
    && Queue(s.upQ, 1) == v.up1 && Queue(s.upQ, 2) == v.up2 && Queue(s.downQ, 1) == v.down1
        && Queue(s.downQ, 2) == v.down2
  }

  function Start(): Fifo {
    Fifo(Net(START, None, map[], Idle, map[], map[], {}, {}, {}, 10, 10), map[], map[], {}, map[])
  }

  ghost predicate Reachable(s: Fifo) {
    FifoInit(Start()) && Reaches(Start(), s)
  }

  /** The server resumes the session on connection 2. */
  lemma TakeResume(s: Fifo, t: S.Session, accept: Frame, replay: seq<Frame>) returns (s': Fifo)
    requires QueuesOK(s) && Reachable(s) && s.cut == {} && Queue(s.upQ, 2) == [SECOND_HELLO] && 2 !in s.net.links
    requires SID in s.net.sessions && SID + 1 !in s.net.sessions
    requires S.Resume(s.net.sessions[SID], SID, 2, SECOND_HELLO, false, FINE) == S.Resumed(t, accept, replay)
    ensures QueuesOK(s') && Reachable(s') && s'.cut == {}
    ensures s'.net == s.net.(sessions := s.net.sessions[SID := t], links := s.net.links[2 := Bound(SID, t.epoch)],
                             up := s'.net.up, down := s'.net.down)
    ensures Queue(s'.upQ, 1) == Queue(s.upQ, 1) && Queue(s'.upQ, 2) == []
    ensures Queue(s'.downQ, 1) == Queue(s.downQ, 1) && Queue(s'.downQ, 2) == Queue(s.downQ, 2) + [accept] + replay
  {
    R.HelloIsNext(s, 2, SECOND_HELLO, SID + 1);
    ResumeEffect(s.net, 2, SECOND_HELLO, SID + 1, t, accept, replay);
    s' := Take1(Start(), s, ServerHello(2, SECOND_HELLO, SID + 1, true, FINE),
                Result(s.net.(sessions := s.net.sessions[SID := t], links := s.net.links[2 := Bound(SID, t.epoch)]),
                       NOTHING, Sent(2, [accept] + replay)));
  }

  // ---- a first connection ----

  const V0 := View(START, None, map[], Idle, None, map[], {}, [], [], [], [])
  const V1 := V0.(hand := Some(Handshake(1, false, 0, 0, true)), used := {1}, up1 := [FIRST_HELLO])
  const V2 := V1.(session := Some(S.Fresh1(1)), links := map[1 := Bound(SID, 1)], up1 := [], down1 := [FIRST_ACCEPT])
  const V3 := V2.(hand := None, client := START.(active := Some(1), session := SID, epoch := 1), conns := map[1 := 1],
                  down1 := [])

  lemma Connects(s: Fifo) returns (s': Fifo)
    requires Looks(s, V0) && Reachable(s)
    ensures Looks(s', V1) && Reachable(s')
  {
    s' := Take1(Start(), s, StartHandshake(1),
                Result(s.net.(hand := V1.hand, used := {1}), Sent(1, [FIRST_HELLO]), NOTHING));
  }

  lemma IsAccepted(s: Fifo) returns (s': Fifo)
    requires Looks(s, V1) && Reachable(s)
    ensures Looks(s', V2) && Reachable(s')
  {
    assert FIRST_HELLO in Queue(s.upQ, 1);
    s' := Take1(Start(), s, ServerHello(1, FIRST_HELLO, SID, true, FINE),
                Result(s.net.(sessions := map[SID := S.Fresh1(1)], links := V2.links), NOTHING,
                       Sent(1, [FIRST_ACCEPT])));
  }

  lemma CommitsFirst(s: Fifo) returns (s': Fifo)
    requires Looks(s, V2) && Reachable(s)
    ensures Looks(s', V3) && Reachable(s')
  {
    assert FIRST_ACCEPT in Queue(s.downQ, s.net.hand.value.conn);
    s' := TakeCommit(Start(), s, FIRST_ACCEPT, V3.client);
  }

  lemma Connected() returns (s: Fifo)
    ensures Looks(s, V3) && Reachable(s)
  {
    s := Start();
    ReachesItself(s);
    s := Connects(s);
    s := IsAccepted(s);
    s := CommitsFirst(s);
  }

  // ---- a chunk on a stale connection ----

  const A1 := V3.(reader := Picked(1))
  const A2 := A1.(reader := Ready(1))
  const A3 := A2.(hand := Some(Handshake(2, true, 0, 0, false)), used := {1, 2}, up2 := [SECOND_HELLO])
  const A4 := A3.(session := Some(S.Fresh1(1).(epoch := 2, active := Some(2))),
                  links := map[1 := Bound(SID, 1), 2 := Bound(SID, 2)],
                  up2 := [], down2 := [SECOND_ACCEPT])
  const A5 := A4.(hand := None, client := V3.client.(active := Some(2), epoch := 2), conns := map[1 := 1, 2 := 2],
                  down2 := [])
  const A6 := A5.(client := AppendBytes(A5.client, [5]), reader := Idle, up1 := [Data(SID, 1, ClientToServer, 0, [5])])
  const A7 := A6.(reader := Picked(2))
  const A8 := A7.(reader := Ready(2))
  const LATE := Data(SID, 2, ClientToServer, 1, [6])
  const A9 := A8.(client := AppendBytes(A8.client, [6]), reader := Idle, up2 := [LATE])
  const A10 := A9.(session := Some(A9.session.value.(active := None, disconnected := true)), up2 := [],
                   down2 := [Error])

  lemma Picks(s: Fifo) returns (s': Fifo)
    requires Looks(s, V3) && Reachable(s)
    ensures Looks(s', A1) && Reachable(s')
  {
    s' := Take1(Start(), s, StdinPick, Quiet(s.net.(reader := A1.reader)));
  }

  lemma IsReady(s: Fifo) returns (s': Fifo)
    requires Looks(s, A1) && Reachable(s)
    ensures Looks(s', A2) && Reachable(s')
  {
    s' := Take1(Start(), s, StdinReady, Quiet(s.net.(reader := A2.reader)));
  }

  lemma Switches(s: Fifo) returns (s': Fifo)
    requires Looks(s, A2) && Reachable(s)
    ensures Looks(s', A3) && Reachable(s')
  {
    s' := Take1(Start(), s, StartHandshake(2),
                Result(s.net.(hand := A3.hand, used := {1, 2}), Sent(2, [SECOND_HELLO]), NOTHING));
  }

  lemma ResumesEmpty()
    ensures S.Resume(S.Fresh1(1), SID, 2, SECOND_HELLO, false, FINE) == S.Resumed(A4.session.value, SECOND_ACCEPT, [])
  {
  }

  lemma Resumes(s: Fifo) returns (s': Fifo)
    requires Looks(s, A3) && Reachable(s)
    ensures Looks(s', A4) && Reachable(s')
  {
    ResumesEmpty();
    s' := TakeResume(s, A4.session.value, SECOND_ACCEPT, []);
  }

  lemma CommitsSecond(s: Fifo) returns (s': Fifo)
    requires Looks(s, A4) && Reachable(s)
    ensures Looks(s', A5) && Reachable(s')
  {
    assert SECOND_ACCEPT in Queue(s.downQ, s.net.hand.value.conn);
    s' := TakeCommit(Start(), s, SECOND_ACCEPT, A5.client);
  }

  lemma PicksSecond(s: Fifo) returns (s': Fifo)
    requires Looks(s, A6) && Reachable(s)
    ensures Looks(s', A7) && Reachable(s')
  {
    s' := Take1(Start(), s, StdinPick, Quiet(s.net.(reader := A7.reader)));
  }

  lemma IsReadySecond(s: Fifo) returns (s': Fifo)
    requires Looks(s, A7) && Reachable(s)
    ensures Looks(s', A8) && Reachable(s')
  {
    s' := Take1(Start(), s, StdinReady, Quiet(s.net.(reader := A8.reader)));
  }

  lemma ReadsSecond(s: Fifo) returns (s': Fifo)
    requires Looks(s, A8) && Reachable(s)
    ensures Looks(s', A9) && Reachable(s')
  {
    s' := Take1(Start(), s, StdinRead([6], false),
                Result(s.net.(client := A9.client, reader := Idle), Sent(2, [LATE]), NOTHING));
  }

  lemma GapOutcome()
    ensures S.Receive(A9.session.value, SID, 2, 2, LATE, FINE) == S.Out(A10.session.value, [Error])
  {
  }

  lemma LateIsNext(s: Fifo)
    requires Looks(s, A9)
    ensures CanMove(s, Do(ServerReceive(2, LATE, FINE)))
  {
    assert LATE in Queue(s.upQ, 2);
  }

  lemma MeetsGap(s: Fifo) returns (s': Fifo)
    requires Looks(s, A9) && Reachable(s)
    ensures Looks(s', A10) && Reachable(s')
  {
    LateIsNext(s);
    GapOutcome();
    ServerEffect(s.net, 2, LATE, SID, S.Out(A10.session.value, [Error]));
    s' := Take1(Start(), s, ServerReceive(2, LATE, FINE),
                Result(s.net.(sessions := map[SID := A10.session.value]), NOTHING, Sent(2, [Error])));
  }

  lemma MovedOver() returns (s: Fifo)
    ensures Looks(s, A5) && Reachable(s)
  {
    s := Connected();
    s := Picks(s);
    s := IsReady(s);
    s := Switches(s);
    s := Resumes(s);
    s := CommitsSecond(s);
  }

  /** A reachable state in which the two ends are in step, and a read of stdin
      takes them out of step: the chunk goes to connection 1, which the client has
      left, while the server reads connection 2. */
  lemma StaleReadIsReachable() returns (s: Fifo, s': Fifo)
    ensures Reachable(s) && U.UpSync(s)
    ensures var m := Do(StdinRead([5], false)); CanMove(s, m) && U.StaleRead(s, m) && s' == Apply(s, m)
    ensures Reachable(s') && Looks(s', A6) && !U.UpSync(s')
  {
    s := MovedOver();
    assert U.Live(s.net, 2);
    s' := Take1(Start(), s, StdinRead([5], false),
                Result(s.net.(client := A6.client, reader := Idle), Sent(1, A6.up1), NOTHING));
    assert U.Live(s'.net, 2);
  }

  /** From there the next chunk, sent on the live connection, meets the server as
      a gap: the server drops the connection, with 0 bytes received of 2. */
  lemma GapIsReachable() returns (s: Fifo)
    ensures Reachable(s) && Looks(s, A10)
    ensures s.net.client.active == Some(2) && A10.session.value.active.None? && A10.session.value.rx == 0
            && s.net.client.snd.next == 2
  {
    var _, s6 := StaleReadIsReachable();
    s := PicksSecond(s6);
    s := IsReadySecond(s);
    s := ReadsSecond(s);
    s := MeetsGap(s);
  }

  // ---- a replay that straddles the receive offset ----

  const FIRST_DATA := Data(SID, 1, ServerToClient, 0, [1])
  const REPLAYED := Data(SID, 2, ServerToClient, 0, [1, 2])

  const B1 := V3.(session := Some(S.Fresh1(1).(pump := S.Reading)))
  const B2 := B1.(session := Some(S.Fresh1(1).(snd := Sender(1, 0, [1], 0), targetRead := [1])), down1 := [FIRST_DATA])
  const B3 := B2.(hand := Some(Handshake(2, true, 0, 0, false)), used := {1, 2}, up2 := [SECOND_HELLO])
  const B4 := B3.(client := B3.client.(rx := 1, stdout := [1]), down1 := [], up1 := [Ack(SID, 1, ServerToClient, 1)])
  const B5 := B4.(session := Some(B2.session.value.(pump := S.Reading)))
  const B6 := B5.(session := Some(S.Fresh1(1).(snd := Sender(2, 0, [1, 2], 0), targetRead := [1, 2])),
                  down1 := [Data(SID, 1, ServerToClient, 1, [2])])
  const B7 := B6.(session := Some(B6.session.value.(epoch := 2, active := Some(2))),
                  links := map[1 := Bound(SID, 1), 2 := Bound(SID, 2)],
                  up2 := [], down2 := [SECOND_ACCEPT, REPLAYED])
  const B8 := B7.(hand := None, client := B7.client.(active := Some(2), epoch := 2), conns := map[1 := 1, 2 := 2],
                  down2 := [REPLAYED])
  const B9 := B8.(client := Finish(B8.client), down2 := [], up2 := [Error])

  lemma TargetWaits(s: Fifo) returns (s': Fifo)
    requires Looks(s, V3) && Reachable(s)
    ensures Looks(s', B1) && Reachable(s')
  {
    s' := Take1(Start(), s, TargetReady(SID), Quiet(s.net.(sessions := map[SID := B1.session.value])));
  }

  lemma TargetOutcome()
    ensures S.TargetRead(B1.session.value, SID, [1], false) == S.Out(B2.session.value, [FIRST_DATA])
    ensures S.TargetRead(B5.session.value, SID, [2], false) == S.Out(B6.session.value, B6.down1)
  {
    assert [] + [1 as byte] == [1] && [1 as byte] + [2] == [1, 2];
  }

  lemma TargetSpeaks(s: Fifo) returns (s': Fifo)
    requires Looks(s, B1) && Reachable(s)
    ensures Looks(s', B2) && Reachable(s')
  {
    TargetOutcome();
    s' := Take1(Start(), s, TargetRead(SID, [1], false),
                Result(s.net.(sessions := map[SID := B2.session.value]), NOTHING, Sent(1, [FIRST_DATA])));
  }

  lemma SwitchesWarm(s: Fifo) returns (s': Fifo)
    requires Looks(s, B2) && Reachable(s)
    ensures Looks(s', B3) && Reachable(s')
  {
    s' := Take1(Start(), s, StartHandshake(2),
                Result(s.net.(hand := B3.hand, used := {1, 2}), Sent(2, [SECOND_HELLO]), NOTHING));
  }

  lemma ClientOutcome()
    ensures Receive(B3.client, 1, 1, FIRST_DATA, FINE) == Out(B4.client, B4.up1)
    ensures Receive(B8.client, 2, 2, REPLAYED, FINE) == Out(B9.client, [Error])
  {
    assert [] + [1 as byte] == [1];
  }

  lemma StillDelivers(s: Fifo) returns (s': Fifo)
    requires Looks(s, B3) && Reachable(s)
    ensures Looks(s', B4) && Reachable(s')
  {
    assert FIRST_DATA in Queue(s.downQ, 1);
    ClientOutcome();
    s' := Take1(Start(), s, ClientReceive(1, FIRST_DATA, FINE),
                Result(s.net.(client := B4.client), Sent(1, B4.up1), NOTHING));
  }

  lemma TargetWaitsAgain(s: Fifo) returns (s': Fifo)
    requires Looks(s, B4) && Reachable(s)
    ensures Looks(s', B5) && Reachable(s')
  {
    s' := Take1(Start(), s, TargetReady(SID), Quiet(s.net.(sessions := map[SID := B5.session.value])));
  }

  lemma TargetSpeaksAgain(s: Fifo) returns (s': Fifo)
    requires Looks(s, B5) && Reachable(s)
    ensures Looks(s', B6) && Reachable(s')
  {
    TargetOutcome();
    s' := Take1(Start(), s, TargetRead(SID, [2], false),
                Result(s.net.(sessions := map[SID := B6.session.value]), NOTHING, Sent(1, B6.down1)));
  }

  lemma ResumesWithReplay()
    ensures S.Resume(B6.session.value, SID, 2, SECOND_HELLO, false, FINE)
            == S.Resumed(B7.session.value, SECOND_ACCEPT, [REPLAYED])
  {
    var d: seq<byte> := [1, 2];
    assert d[0..] == d && d[..2] == d && d[2..] == [];
    assert Chunks(SID, 2, ServerToClient, 2, d[2..]) == [];
    assert Chunks(SID, 2, ServerToClient, 0, d) == [REPLAYED];
  }

  lemma Replays(s: Fifo) returns (s': Fifo)
    requires Looks(s, B6) && Reachable(s)
    ensures Looks(s', B7) && Reachable(s')
  {
    ResumesWithReplay();
    s' := TakeResume(s, B7.session.value, SECOND_ACCEPT, [REPLAYED]);
  }

  lemma GivesUp(s: Fifo) returns (s': Fifo)
    requires Looks(s, B8) && Reachable(s)
    ensures Looks(s', B9) && Reachable(s')
  {
    assert REPLAYED in Queue(s.downQ, 2);
    ClientOutcome();
    s' := Take1(Start(), s, ClientReceive(2, REPLAYED, FINE),
                Result(s.net.(client := B9.client), Sent(2, [Error]), NOTHING));
  }

  lemma Replayed() returns (s: Fifo)
    ensures Looks(s, B7) && Reachable(s)
  {
    s := Connected();
    s := TargetWaits(s);
    s := TargetSpeaks(s);
    s := SwitchesWarm(s);
    s := StillDelivers(s);
    s := TargetWaitsAgain(s);
    s := TargetSpeaksAgain(s);
    s := Replays(s);
  }

  /** A reachable straddled commit: the switch began while the old connection
      still delivered, so the hello carried an old offset, and the replay comes as
      one frame of which the client has the first half. */
  lemma StraddledCommitIsReachable() returns (s: Fifo, s': Fifo)
    ensures Reachable(s)
    ensures var m := CommitAndReplay(SECOND_ACCEPT); CanMove(s, m) && D.StraddlingCommit(s, m) && s' == Apply(s, m)
    ensures Reachable(s') && Looks(s', B8)
  {
    s := Replayed();
    assert SECOND_ACCEPT in Queue(s.downQ, 2);
    assert REPLAYED in Queue(s.downQ, 2) && Straddles(REPLAYED, s.net.client.rx);
    s' := TakeCommit(Start(), s, SECOND_ACCEPT, B8.client);
  }

  /** The client takes that frame for a protocol error and ends, with one byte of
      two written. */
  lemma StraddledCommitIsFatal() returns (s: Fifo)
    ensures Reachable(s) && Looks(s, B9)
    ensures s.net.client.finished && |s.net.client.stdout| == 1 && |B9.session.value.targetRead| == 2
  {
    var _, s8 := StraddledCommitIsReachable();
    s := GivesUp(s8);
  }

  // ---- a tail that is lost with its session ----

  const L2 := B1.(session := Some(B1.session.value.(active := None, disconnected := true)))
  const L3 := L2.(session := Some(L2.session.value.(snd := Sender(1, 0, [1], 0), targetRead := [1],
                                                    pump := S.Draining)))
  const L4 := L3.(session := Some(L3.session.value.(s2cFin := true, pump := S.Stopped)))
  const L5 := L4.(session := Some(L4.session.value.(closed := true)))

  lemma LosesConnection(s: Fifo) returns (s': Fifo)
    requires Looks(s, B1) && Reachable(s)
    ensures Looks(s', L2) && Reachable(s')
  {
    s' := Take1(Start(), s, ServerDisconnect(1), Quiet(s.net.(sessions := map[SID := L2.session.value])));
  }

  lemma LastOutcome()
    ensures S.TargetRead(L2.session.value, SID, [1], true) == S.Out(L3.session.value, [])
  {
    assert [] + [1 as byte] == [1];
  }

  lemma TargetSpeaksLast(s: Fifo) returns (s': Fifo)
    requires Looks(s, L2) && Reachable(s)
    ensures Looks(s', L3) && Reachable(s')
  {
    LastOutcome();
    s' := Take1(Start(), s, TargetRead(SID, [1], true),
                Result(s.net.(sessions := map[SID := L3.session.value]), NOTHING, Sent(0, [])));
  }

  lemma TargetEnds(s: Fifo) returns (s': Fifo)
    requires Looks(s, L3) && Reachable(s)
    ensures Looks(s', L4) && Reachable(s')
  {
    s' := Take1(Start(), s, TargetEnd(SID),
                Result(s.net.(sessions := map[SID := L4.session.value]), NOTHING, Sent(0, [])));
  }

  lemma SessionEnds(s: Fifo) returns (s': Fifo)
    requires Looks(s, L4) && Reachable(s)
    ensures Looks(s', L5) && Reachable(s')
  {
    s' := Take1(Start(), s, ServerClose(SID, FINE),
                Result(s.net.(sessions := map[SID := L5.session.value]), NOTHING, Sent(0, [])));
  }

  lemma ReachableIsGood(s: Fifo)
    requires Reachable(s)
    ensures R.Good(s)
  {
    var states, moves :| Path(states, moves) && states[0] == Start() && states[|states| - 1] == s;
    assert IsFifoRun(states, moves);
    FifoRunHasInv(states, moves, |states| - 1);
  }

  /** The connection is lost, the target says its last byte and ends, and with it
      the session: the byte is in the server's buffer and in no continuation does
      it reach stdout, although the client has neither ended nor been refused. */
  lemma LostTailIsReachable() returns (s: Fifo)
    ensures Reachable(s) && Looks(s, L5) && !s.net.client.finished
    ensures L5.session.value.targetRead == [1] && s.net.client.stdout == []
    ensures forall s' :: Reaches(s, s') ==> s'.net.client.stdout == []
  {
    s := Connected();
    s := TargetWaits(s);
    s := LosesConnection(s);
    s := TargetSpeaksLast(s);
    s := TargetEnds(s);
    s := SessionEnds(s);
    ReachableIsGood(s);
    NothingFollows(s);
  }

  lemma NothingFollows(s: Fifo)
    requires R.Good(s) && X.IsClosed(s.net) && X.NothingWaits(s) && s.net.client.stdout == []
    ensures forall s' :: Reaches(s, s') ==> s'.net.client.stdout == []
  {
    forall s' | Reaches(s, s') ensures s'.net.client.stdout == [] {
      X.NothingArrivesAnyMore(s, s');
    }
  }

  // ---- a tail that lies on a connection the client has left ----

  const E1 := B2.(client := Drop(B2.client, 1))
  const E2 := E1.(session := Some(B2.session.value.(closed := true, active := None)),
                  down1 := [FIRST_DATA, Close(SID, 1)])

  lemma Leaves(s: Fifo) returns (s': Fifo)
    requires Looks(s, B2) && Reachable(s)
    ensures Looks(s', E1) && Reachable(s')
  {
    s' := Take1(Start(), s, DropActive(1), Quiet(s.net.(client := E1.client)));
  }

  lemma ClosesUnread(s: Fifo) returns (s': Fifo)
    requires Looks(s, E1) && Reachable(s)
    ensures Looks(s', E2) && Reachable(s')
  {
    s' := Take1(Start(), s, ServerClose(SID, FINE),
                Result(s.net.(sessions := map[SID := E2.session.value]), NOTHING, Sent(1, [Close(SID, 1)])));
  }

  /** The client has dropped its connection, the server has not noticed, and the
      session ends: the byte still lies on the dead connection, and in no
      continuation does it reach stdout. */
  lemma DeadTailIsReachable() returns (s: Fifo)
    ensures Reachable(s) && Looks(s, E2) && !s.net.client.finished && FIRST_DATA in Queue(s.downQ, 1)
    ensures E2.session.value.targetRead == [1] && s.net.client.stdout == []
    ensures forall s' :: Reaches(s, s') ==> s'.net.client.stdout == []
  {
    s := Connected();
    s := TargetWaits(s);
    s := TargetSpeaks(s);
    s := Leaves(s);
    s := ClosesUnread(s);
    ReachableIsGood(s);
    NothingFollows(s);
  }
}
