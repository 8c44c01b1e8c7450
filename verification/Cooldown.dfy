/** The switch cycle over the whole protocol: it probes without a lock, so other
    activations may commit meanwhile; the check before a promotion and the
    cooldown keep latency switching apart from everything else. */
module Cooldown {
  import opened Wire
  import opened Net
  import opened NetInvariant
  import opened SwitchPolicy
  import S = NetSafety
  import C = NetClientSteps
  import V = NetServerSteps
  import F = NetFencing

  /** `runSwitchCycle` after its snapshot: still probing, decided, or inside
      `promoteCandidate` with `switchMu` held. `failed` is the `allowDropped` of its request. */
  datatype Phase = Probing | Decided(failed: bool) | Promoting(failed: bool)

  /** `since` is the number of commits before the snapshot. */
  datatype Cycle = Cycle(expected: Conn, lastSwitch: int, since: nat, phase: Phase)

  datatype Reason = Activation | LatencySwitch | FailureSwitch

  /** One commit, in the history of all of them. */
  datatype Entry = Entry(at: int, conn: Conn, epoch: nat, reason: Reason)

  datatype World = World(net: Net, now: int, lastSwitch: int, cycle: Option<Cycle>, log: seq<Entry>, policy: Policy)

  datatype Move =
    | Tick(d: nat)
    | Do(step: Step)            // anything else, other activations included
    | Snapshot
    | Decide(failed: bool, activePriority: int, activeRtt: int, priority: int, rtt: int)
    | Promote(conn: Conn)
    | CommitPromotion(frame: Frame)
    | FailPromotion
    | EndCycle

  /** `candidateSourceIsCurrent` for the request of a cycle. */
  predicate SourceIsCurrent(n: Net, expected: Conn, allowDropped: bool)
    requires expected in n.conns
  {
    if n.client.finished then false
    else if n.client.active == Some(expected) then true
    else allowDropped && n.client.active.None? && n.client.epoch == n.conns[expected]
  }

  predicate InPromotion(w: World) {
    w.cycle.Some? && w.cycle.value.phase.Promoting?
  }

  predicate CanMove(w: World, m: Move) {
    match m
    case Tick(_) => true
    case Do(step) =>
      && Enabled(w.net, step)
      && (InPromotion(w) ==> !step.CommitHandshake? && !step.AbandonHandshake?)
    case Snapshot => w.cycle.None? && w.net.client.active.Some?
    case Decide(failed, ap, ar, p, r) =>
      && w.cycle.Some? && w.cycle.value.phase.Probing?
      && (failed || ShouldSwitch(w.policy, w.now - w.cycle.value.lastSwitch, ap, ar, p, r))
    case Promote(c) =>
      && w.cycle.Some? && w.cycle.value.phase.Decided? && w.cycle.value.expected in w.net.conns
      && Enabled(w.net, StartHandshake(c))
    case CommitPromotion(f) => InPromotion(w) && Enabled(w.net, CommitHandshake(f))
    case FailPromotion => InPromotion(w) && Enabled(w.net, AbandonHandshake)
    case EndCycle => w.cycle.Some? && !InPromotion(w)
  }

  /** A commit; one that succeeds sets `lastSwitch`. */
  function CommitNow(w: World, f: Frame, reason: Reason): World
    requires Enabled(w.net, CommitHandshake(f))
  {
    var c := w.net.hand.value.conn;
    var w' := w.(net := Exec(w.net, CommitHandshake(f)));
    if c in w'.net.conns then w'.(lastSwitch := w.now, log := w.log + [Entry(w.now, c, f.epoch, reason)]) else w'
  }

  function Apply(w: World, m: Move): World
    requires CanMove(w, m)
  {
    match m
    case Tick(d) => w.(now := w.now + d)
    case Do(step) =>
      if step.CommitHandshake? then CommitNow(w, step.frame, Activation) else w.(net := Exec(w.net, step))
    case Snapshot => w.(cycle := Some(Cycle(w.net.client.active.value, w.lastSwitch, |w.log|, Probing)))
    case Decide(failed, _, _, _, _) => w.(cycle := Some(w.cycle.value.(phase := Decided(failed))))
    case Promote(c) =>
      var cycle := w.cycle.value;
      if SourceIsCurrent(w.net, cycle.expected, cycle.phase.failed) then
        w.(net := Exec(w.net, StartHandshake(c)), cycle := Some(cycle.(phase := Promoting(cycle.phase.failed))))
      else w.(cycle := None)
    case CommitPromotion(f) =>
      CommitNow(w, f, if w.cycle.value.phase.failed then FailureSwitch else LatencySwitch).(cycle := None)
    case FailPromotion => w.(net := Exec(w.net, AbandonHandshake), cycle := None)
    case EndCycle => w.(cycle := None)
  }

  ghost predicate IsRun(states: seq<World>, moves: seq<Move>) {
    && |states| == |moves| + 1
    && Init(states[0].net) && states[0].cycle.None? && states[0].log == []
    && forall i | 0 <= i < |moves| :: CanMove(states[i], moves[i]) && states[i + 1] == Apply(states[i], moves[i])
  }

  /** The history against the protocol state: every commit has its own connection
      and a later epoch, and only the last one can still be active. */
  ghost predicate LogOK(n: Net, now: int, lastSwitch: int, log: seq<Entry>) {
    && (forall k | 0 <= k < |log| :: log[k].at <= now && log[k].conn in n.conns && n.conns[log[k].conn] == log[k].epoch)
    && (forall i, k | 0 <= i < k < |log| :: log[i].epoch < log[k].epoch && log[i].at <= log[k].at)
    && (log == [] ==> n.client.active.None?)
    && (log != [] ==>
          var last := log[|log| - 1];
          && last.epoch == n.client.epoch && last.at == lastSwitch
          && (n.client.active.None? || n.client.active == Some(last.conn)))
  }

  ghost predicate CycleOK(cycle: Cycle, now: int, log: seq<Entry>, cooldown: int) {
    && 1 <= cycle.since <= |log|
    && cycle.expected == log[cycle.since - 1].conn && cycle.lastSwitch == log[cycle.since - 1].at
    && (!cycle.phase.Probing? && !cycle.phase.failed ==> now >= cycle.lastSwitch + cooldown)
    && (cycle.phase.Promoting? ==> cycle.since == |log|)
  }

  ghost predicate Spaced(log: seq<Entry>, cooldown: int) {
    forall k | 0 <= k < |log| && log[k].reason.LatencySwitch? :: k > 0 && log[k].at >= log[k - 1].at + cooldown
  }

  ghost predicate Kept(w: World) {
    && LogOK(w.net, w.now, w.lastSwitch, w.log)
    && (w.cycle.Some? ==> CycleOK(w.cycle.value, w.now, w.log, w.policy.cooldown))
    && Spaced(w.log, w.policy.cooldown)
  }

  ghost predicate OK(w: World) {
    Inv(w.net) && Kept(w)
  }

  /** Everything but a commit leaves the client's epoch alone and can at most
      take its connection away. */
  lemma OnlyCommitsActivate(n: Net, step: Step)
    requires Enabled(n, step) && !step.CommitHandshake?
    ensures var n' := Exec(n, step);
            && n'.conns == n.conns && n'.client.epoch == n.client.epoch
            && (n'.client.active.None? || n'.client.active == n.client.active)
  {
    F.ConnsStay(n, step);
    if V.OfServer(step) {
      F.ServerKeepsClient(n, step);
    } else {
      F.ClientFencing(n, step);
    }
  }

  lemma StepKeepsOK(w: World, step: Step)
    requires OK(w) && Enabled(w.net, step) && !step.CommitHandshake?
    ensures OK(w.(net := Exec(w.net, step)))
  {
    S.StepKeepsInv(w.net, step);
    OnlyCommitsActivate(w.net, step);
  }

  /** What a commit does to the protocol state, in the terms of the history. */
  lemma CommitEffect(n: Net, f: Frame)
    requires Inv(n) && Enabled(n, CommitHandshake(f))
    ensures var n' := Exec(n, CommitHandshake(f));
            var c := n.hand.value.conn;
            && Inv(n') && c !in n.conns
            && (if n.client.finished then n'.conns == n.conns && n'.client == n.client
                else
                  n'.conns == n.conns[c := f.epoch] && n'.client.epoch == f.epoch > n.client.epoch &&
                  n'.client.active == Some(c))
  {
    S.StepKeepsInv(n, CommitHandshake(f));
    C.CommitShape(n, f);
    if !n.client.finished {
      F.CommitRaisesEpoch(n, f);
    }
  }

  lemma LogGrows(n: Net, n': Net, now: int, lastSwitch: int, log: seq<Entry>, e: Entry)
    requires LogOK(n, now, lastSwitch, log) && e.at == now && e.epoch > n.client.epoch
    requires e.conn !in n.conns && n'.conns == n.conns[e.conn := e.epoch]
    requires n'.client.epoch == e.epoch && n'.client.active == Some(e.conn)
    ensures LogOK(n', now, now, log + [e])
  {
  }

  /** `w'` is `w` after a successful commit that left the protocol in `n'`. */
  lemma CommittedKept(w: World, n': Net, e: Entry, w': World)
    requires Kept(w) && LogOK(n', w.now, w.now, w.log + [e]) && e.at == w.now
    requires e.reason.LatencySwitch? ==> w.log != [] && w.now >= w.log[|w.log| - 1].at + w.policy.cooldown
    requires w' == w.(net := n', lastSwitch := w.now, log := w.log + [e])
    ensures Kept(w'.(cycle := None))
    ensures !InPromotion(w) ==> Kept(w')
  {
    var log' := w.log + [e];
    forall k | 0 <= k < |log'| && log'[k].reason.LatencySwitch?
      ensures k > 0 && log'[k].at >= log'[k - 1].at + w.policy.cooldown
    {
      if k < |w.log| {
        assert log'[k] == w.log[k];
      }
    }
    assert Spaced(log', w.policy.cooldown);
  }

  lemma FailedCommitKept(w: World, n': Net)
    requires Kept(w) && n'.conns == w.net.conns && n'.client == w.net.client
    ensures Kept(w.(net := n')) && Kept(w.(net := n', cycle := None))
  {
  }

  lemma CommitKeepsOK(w: World, f: Frame, reason: Reason)
    requires OK(w) && Enabled(w.net, CommitHandshake(f))
    requires reason.LatencySwitch? ==> w.log != [] && w.now >= w.log[|w.log| - 1].at + w.policy.cooldown
    ensures OK(CommitNow(w, f, reason).(cycle := None))
    ensures !InPromotion(w) ==> OK(CommitNow(w, f, reason))
  {
    var n, n' := w.net, Exec(w.net, CommitHandshake(f));
    CommitEffect(n, f);
    if n.client.finished {
      FailedCommitKept(w, n');
    } else {
      var e := Entry(w.now, n.hand.value.conn, f.epoch, reason);
      LogGrows(n, n', w.now, w.lastSwitch, w.log, e);
      CommittedKept(w, n', e, CommitNow(w, f, reason));
    }
  }

  lemma PromoteKeepsOK(w: World, c: Conn)
    requires OK(w) && CanMove(w, Move.Promote(c))
    ensures OK(Apply(w, Move.Promote(c)))
  {
    SourceIsLastCommit(w);
    StepKeepsOK(w, StartHandshake(c));
  }

  lemma CommitPromotionKeepsOK(w: World, f: Frame)
    requires OK(w) && CanMove(w, CommitPromotion(f))
    ensures OK(Apply(w, CommitPromotion(f)))
  {
    CommitKeepsOK(w, f, if w.cycle.value.phase.failed then FailureSwitch else LatencySwitch);
  }

  lemma DoKeepsOK(w: World, step: Step)
    requires OK(w) && CanMove(w, Do(step))
    ensures OK(Apply(w, Do(step)))
  {
    if step.CommitHandshake? {
      CommitKeepsOK(w, step.frame, Activation);
    } else {
      StepKeepsOK(w, step);
    }
  }

  /** The moves of the cycle that do not touch the protocol. */
  lemma LocalKeepsKept(w: World, m: Move)
    requires Kept(w) && CanMove(w, m) && (m.Tick? || m.Snapshot? || m.Decide? || m.EndCycle?)
    ensures Kept(Apply(w, m)) && Apply(w, m).net == w.net
  {
  }

  lemma FailPromotionKeepsOK(w: World)
    requires OK(w) && CanMove(w, FailPromotion)
    ensures OK(Apply(w, FailPromotion))
  {
    StepKeepsOK(w, AbandonHandshake);
  }

  lemma LocalKeepsOK(w: World, m: Move)
    requires OK(w) && CanMove(w, m) && (m.Tick? || m.Snapshot? || m.Decide? || m.EndCycle?)
    ensures OK(Apply(w, m))
  {
    LocalKeepsKept(w, m);
  }

  lemma MoveKeepsOK(w: World, m: Move)
    requires OK(w) && CanMove(w, m)
    ensures OK(Apply(w, m))
  {
    match m
    case Do(step) => DoKeepsOK(w, step);
    case Promote(c) => PromoteKeepsOK(w, c);
    case CommitPromotion(f) => CommitPromotionKeepsOK(w, f);
    case FailPromotion => FailPromotionKeepsOK(w);
    case _ => LocalKeepsOK(w, m);
  }

  /** The check at the start of a promotion succeeds exactly when no activation
      committed since the snapshot, and the connection is still up or its loss is allowed. */
  lemma SourceIsLastCommit(w: World)
    requires Kept(w) && w.cycle.Some? && !w.cycle.value.phase.Probing?
    ensures var cycle := w.cycle.value;
            cycle.expected in w.net.conns &&
            (SourceIsCurrent(w.net, cycle.expected, cycle.phase.failed)
             <==> !w.net.client.finished && |w.log| == cycle.since && (cycle.phase.failed || w.net.client.active.Some?))
  {
    var cycle := w.cycle.value;
    assert w.log[cycle.since - 1].conn == cycle.expected;
    if cycle.since < |w.log| {
      assert w.log[cycle.since - 1].epoch < w.log[|w.log| - 1].epoch;
    }
  }

  lemma {:induction false} RunIsOK(states: seq<World>, moves: seq<Move>, i: nat)
    requires IsRun(states, moves) && i < |states|
    ensures OK(states[i])
  {
    if i == 0 {
      S.InitHasInv(states[0].net);
    } else {
      RunIsOK(states, moves, i - 1);
      MoveKeepsOK(states[i - 1], moves[i - 1]);
    }
  }

  /** Supersession, in every run: a promotion is started exactly when nothing else
      committed since the cycle's snapshot, and otherwise the cycle ends there. */
  lemma PromotionsAreNeverSuperseded(states: seq<World>, moves: seq<Move>, i: nat)
    requires IsRun(states, moves) && i < |moves| && moves[i].Promote?
    ensures var w, w' := states[i], states[i + 1];
            if !w.net.client.finished && |w.log| == w.cycle.value.since
                && (w.cycle.value.phase.failed || w.net.client.active.Some?)
            then InPromotion(w') && w'.net.hand.Some? else w'.cycle.None? && w'.net == w.net
  {
    RunIsOK(states, moves, i);
    SourceIsLastCommit(states[i]);
    C.StartShape(states[i].net, moves[i].conn);
  }

  /** A promotion that commits is the first commit after its cycle's snapshot. */
  lemma CommittedPromotionIsNext(states: seq<World>, moves: seq<Move>, i: nat)
    requires IsRun(states, moves) && i < |moves| && moves[i].CommitPromotion? && !states[i].net.client.finished
    ensures |states[i].log| == states[i].cycle.value.since
    ensures |states[i + 1].log| == |states[i].log| + 1 && states[i + 1].lastSwitch == states[i].now
  {
    RunIsOK(states, moves, i);
    CommitEffect(states[i].net, moves[i].frame);
  }

  /** Every latency-driven commit comes at least the cooldown after the commit
      before it, whatever loop that one came from; and it is never the first. */
  lemma LatencySwitchesAreSpaced(states: seq<World>, moves: seq<Move>, i: nat, k: nat)
    requires IsRun(states, moves) && i < |states| && k < |states[i].log| && states[i].log[k].reason.LatencySwitch?
    ensures k > 0 && states[i].log[k].at >= states[i].log[k - 1].at + states[i].policy.cooldown
    ensures states[i].log[k].epoch > states[i].log[k - 1].epoch
  {
    RunIsOK(states, moves, i);
  }
}
