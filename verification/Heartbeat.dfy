/** The heartbeat tracker: every begun heartbeat gets exactly one result, from
    whichever of pong, timeout and close comes first. */
module Heartbeat {
  import opened Wire

  type Nonce = nat

  datatype Result = Rtt(rtt: int) | TimedOut | Closed

  datatype Pending = Pending(nonce: Nonce, sentAt: int)

  /** `heartbeatTracker`, with the channel every `begin` made, by nonce. */
  datatype Tracker = Tracker(pending: Option<Pending>, closed: bool, channels: map<Nonce, seq<Result>>)

  const NEW: Tracker := Tracker(None, false, map[])

  datatype Op =
    | Begin(nonce: Nonce, sentAt: int)
    | Pong(nonce: Nonce, now: int)
    | Timeout(nonce: Nonce)
    | Close

  predicate Awaits(t: Tracker, nonce: Nonce) {
    t.pending.Some? && t.pending.value.nonce == nonce
  }

  /** Puts the result into the pending heartbeat's channel and forgets it. */
  function Resolve(t: Tracker, r: Result): Tracker
    requires t.pending.Some?
  {
    var n := t.pending.value.nonce;
    t.(pending := None, channels := t.channels[n := Results(t, n) + [r]])
  }

  /** What a channel holds. */
  function Results(t: Tracker, nonce: Nonce): seq<Result> {
    if nonce in t.channels then t.channels[nonce] else []
  }

  /** Channels have room for one result; the pending one is the only empty one. */
  ghost predicate Valid(t: Tracker) {
    && (t.pending.Some? ==> !t.closed && t.pending.value.nonce in t.channels)
    && (forall n | n in t.channels :: |t.channels[n]| == if Awaits(t, n) then 0 else 1)
  }

  /** One call on the tracker, and what it returns: for `begin` whether it began. */
  function Call(t: Tracker, op: Op): (Tracker, bool)
  {
    match op
    case Begin(n, at) =>
      if t.closed || t.pending.Some? then (t, false)
      else (t.(pending := Some(Pending(n, at)), channels := t.channels[n := []]), true)
    case Pong(n, now) =>
      if !Awaits(t, n) then (t, false)
      else
        var rtt := now - t.pending.value.sentAt;
        (Resolve(t, Rtt(if rtt < 0 then 0 else rtt)), true)
    case Timeout(n) => if !Awaits(t, n) then (t, false) else (Resolve(t, TimedOut), true)
    case Close =>
      if t.closed then (t, false)
      else if t.pending.None? then (t.(closed := true), true)
      else (Resolve(t, Closed).(closed := true), true)
  }

  /** Nonces are never used twice. */
  ghost predicate FreshNonce(t: Tracker, op: Op) {
    op.Begin? ==> op.nonce !in t.channels
  }

  /** Every call in terms of the tracker's fields. */
  lemma CallSays(t: Tracker, op: Op)
    requires Valid(t)
    ensures var t', done := Call(t, op).0, Call(t, op).1;
            var matches := (op.Pong? || op.Timeout?) && t.pending.Some? && t.pending.value.nonce == op.nonce;
            && (!done ==> t' == t)
            && (op.Begin? ==> (done <==> !t.closed && t.pending.None?))
            && (op.Begin? && done ==> t'.pending == Some(Pending(op.nonce, op.sentAt)) && !t'.closed
                                      && t'.channels == t.channels[op.nonce := []])
            && (op.Pong? || op.Timeout? ==> (done <==> matches))
            && (matches ==> t'.pending.None? && t'.closed == t.closed)
            && (matches && op.Pong? ==>
                  var rtt := if op.now < t.pending.value.sentAt then 0 else op.now - t.pending.value.sentAt;
                  t'.channels == t.channels[op.nonce := [Rtt(rtt)]])
            && (matches && op.Timeout? ==> t'.channels == t.channels[op.nonce := [TimedOut]])
            && (op.Close? ==> (done <==> !t.closed) && t'.closed)
            && (op.Close? && done ==>
                  && t'.pending.None?
                  && t'.channels == if t.pending.None? then t.channels
                                    else t.channels[t.pending.value.nonce := [Closed]])
  {
    if t.pending.Some? {
      var n := t.pending.value.nonce;
      assert |t.channels[n]| == 0;
      forall r: Result {:trigger Resolve(t, r)} ensures Resolve(t, r).channels == t.channels[n := [r]] {
        assert Results(t, n) + [r] == [r];
      }
    }
  }

  lemma CallKeepsValid(t: Tracker, op: Op)
    requires Valid(t) && FreshNonce(t, op)
    ensures Valid(Call(t, op).0)
  {
  }

  /** States of a run of calls in any interleaving. */
  ghost predicate IsRun(ts: seq<Tracker>, ops: seq<Op>) {
    && |ts| == |ops| + 1 && ts[0] == NEW
    && forall i | 0 <= i < |ops| :: FreshNonce(ts[i], ops[i]) && ts[i + 1] == Call(ts[i], ops[i]).0
  }

  lemma {:induction false} RunIsValid(ts: seq<Tracker>, ops: seq<Op>, i: nat)
    requires IsRun(ts, ops) && i < |ts|
    ensures Valid(ts[i])
  {
    if i > 0 {
      RunIsValid(ts, ops, i - 1);
      CallKeepsValid(ts[i - 1], ops[i - 1]);
    }
  }

  /** The result that the calls after a `begin` decide on: that of the first
      matching pong, timeout, or close. */
  function Decided(ops: seq<Op>, p: Pending): Option<Result> {
    if ops == [] then None
    else
      match ops[0]
      case Pong(n, now) =>
        if n == p.nonce then Some(Rtt(if now < p.sentAt then 0 else now - p.sentAt)) else Decided(ops[1..], p)
      case Timeout(n) => if n == p.nonce then Some(TimedOut) else Decided(ops[1..], p)
      case Close => Some(Closed)
      case Begin(_, _) => Decided(ops[1..], p)
  }

  /** Once a heartbeat has its result, no call adds to it or takes it back. */
  lemma {:induction false} ResultStays(ts: seq<Tracker>, ops: seq<Op>, i: nat, j: nat, nonce: Nonce)
    requires IsRun(ts, ops) && i <= j < |ts| && nonce in ts[i].channels && !Awaits(ts[i], nonce)
    ensures nonce in ts[j].channels && ts[j].channels[nonce] == ts[i].channels[nonce] && !Awaits(ts[j], nonce)
    decreases j - i
  {
    if i < j {
      ResultStays(ts, ops, i, j - 1, nonce);
      RunIsValid(ts, ops, j - 1);
    }
  }

  /** Exactly one result per begun heartbeat, and it is the one decided first:
      after any calls its channel holds just that, or nothing if none came yet. */
  lemma {:induction false} ExactlyOneResult(ts: seq<Tracker>, ops: seq<Op>, i: nat, j: nat)
    requires IsRun(ts, ops) && i < j < |ts|
    requires ops[i].Begin? && Call(ts[i], ops[i]).1
    ensures var p := Pending(ops[i].nonce, ops[i].sentAt);
            && p.nonce in ts[j].channels
            && ts[j].channels[p.nonce] == (match Decided(ops[i + 1..j], p) case None => [] case Some(r) => [r])
            && (Awaits(ts[j], p.nonce) <==> Decided(ops[i + 1..j], p).None?)
            && (Awaits(ts[j], p.nonce) ==> ts[j].pending == Some(p))
    decreases j
  {
    var p := Pending(ops[i].nonce, ops[i].sentAt);
    RunIsValid(ts, ops, j - 1);
    if j == i + 1 {
      assert ops[i + 1..j] == [];
    } else {
      ExactlyOneResult(ts, ops, i, j - 1);
      assert ops[i + 1..j] == ops[i + 1..j - 1] + [ops[j - 1]];
      DecidedGrows(ops[i + 1..j - 1], ops[j - 1], p);
      if Awaits(ts[j - 1], p.nonce) {
        CallDecides(ts[j - 1], ops[j - 1], p);
      } else {
        ResultStays(ts, ops, j - 1, j, p.nonce);
      }
    }
  }

  /** One call while the heartbeat waits. */
  lemma CallDecides(t: Tracker, op: Op, p: Pending)
    requires Valid(t) && FreshNonce(t, op) && t.pending == Some(p) && Awaits(t, p.nonce)
    ensures var t', r := Call(t, op).0, Decided([op], p);
            && p.nonce in t'.channels && t'.channels[p.nonce] == (match r case None => [] case Some(d) => [d])
            && (if r.None? then t'.pending == Some(p) else !Awaits(t', p.nonce))
  {
  }

  lemma {:induction false} DecidedGrows(ops: seq<Op>, op: Op, p: Pending)
    ensures Decided(ops + [op], p) == if Decided(ops, p).Some? then Decided(ops, p) else Decided([op], p)
  {
    if ops == [] {
      assert ops + [op] == [op];
    } else {
      assert (ops + [op])[1..] == ops[1..] + [op];
      DecidedGrows(ops[1..], op, p);
    }
  }

  datatype HeartbeatResult = Measured(rtt: int) | Expired | Cancelled | ConnClosed | NotBegun(trackerClosed: bool)

  /** What ends the wait of `activeHeartbeat`: a result, its timer, or its context. */
  datatype Wake = Ready | Timer | Context

  /** A call that decides on a heartbeat that waits. */
  predicate Decides(op: Op, nonce: Nonce) {
    op.Close? || ((op.Pong? || op.Timeout?) && op.nonce == nonce)
  }

  ghost predicate FirstToDecide(ops: seq<Op>, nonce: Nonce, k: nat) {
    k < |ops| && Decides(ops[k], nonce) && forall j | 0 <= j < k :: !Decides(ops[j], nonce)
  }

  /** `Decided` is the result of the first deciding call, and of nothing else. */
  lemma {:induction false} DecidedByFirst(ops: seq<Op>, p: Pending)
    ensures Decided(ops, p).None? <==> forall k | 0 <= k < |ops| :: !Decides(ops[k], p.nonce)
    ensures forall k: nat | FirstToDecide(ops, p.nonce, k) ::
              && (ops[k].Pong? ==>
                    Decided(ops, p) == Some(Rtt(if ops[k].now < p.sentAt then 0 else ops[k].now - p.sentAt)))
              && (ops[k].Timeout? ==> Decided(ops, p) == Some(TimedOut))
              && (ops[k].Close? ==> Decided(ops, p) == Some(Closed))
  {
    if ops != [] {
      DecidedByFirst(ops[1..], p);
      assert forall k | 0 < k < |ops| :: ops[k] == ops[1..][k - 1];
      if !Decides(ops[0], p.nonce) {
        assert forall k: nat | FirstToDecide(ops, p.nonce, k) :: k > 0 && FirstToDecide(ops[1..], p.nonce, k - 1);
      }
    }
  }

  function CycleResult(r: Result): HeartbeatResult {
    match r
    case Rtt(d) => Measured(d)
    case TimedOut => Expired
    case Closed => ConnClosed
  }

  /** `activeHeartbeat` against any calls of the other goroutines on the tracker;
      `sendOk` is the outcome of its ping, whose failure closes the connection and
      with it the tracker. `Ready` can only be chosen when the channel has a
      result. After a failed `timeout` the channel is received from: it always
      holds a result by then, so the call cannot hang. */
  method ActiveHeartbeat(start: Tracker, active: bool, nonce: Nonce, sentAt: int, sendOk: bool, others: seq<Op>,
                         wake: Wake)
    returns (r: HeartbeatResult, end: Tracker)
    requires Valid(start) && nonce !in start.channels
    requires forall k | 0 <= k < |others| :: !others[k].Begin? && others[k] != Timeout(nonce)
    requires wake.Ready? ==> exists k | 0 <= k < |others| :: Decides(others[k], nonce)
    ensures Valid(end) && !Awaits(end, nonce)
    ensures !active ==> r.ConnClosed? && end == start
    ensures active ==> (r.NotBegun? <==> start.closed || start.pending.Some?)
    ensures r.NotBegun? ==> r.trackerClosed == start.closed
    ensures active && !r.NotBegun? ==>
              if !sendOk then r.ConnClosed? && end.closed
              else
                && (forall k: nat | FirstToDecide(others, nonce, k) ::
                      r == if others[k].Close? then ConnClosed
                           else Measured(if others[k].now < sentAt then 0 else others[k].now - sentAt))
                && ((forall k | 0 <= k < |others| :: !Decides(others[k], nonce)) ==>
                      r == if wake.Timer? then Expired else Cancelled)
  {
    end := start;
    if !active {
      return ConnClosed, end;
    }
    var begun: bool;
    var call := Call(start, Begin(nonce, sentAt));
    CallKeepsValid(start, Begin(nonce, sentAt));
    end, begun := call.0, call.1;
    if !begun {
      return NotBegun(end.closed), end;
    }
    if !sendOk {
      CallKeepsValid(end, Op.Close);
      end := Call(end, Op.Close).0;
      return ConnClosed, end;
    }
    var p := Pending(nonce, sentAt);
    for k := 0 to |others|
      invariant Valid(end) && nonce in end.channels
      invariant Decided(others[..k], p).None? ==> end.pending == Some(p) && end.channels[nonce] == []
      invariant Decided(others[..k], p).Some? ==>
                  !Awaits(end, nonce) && end.channels[nonce] == [Decided(others[..k], p).value]
    {
      assert others[..k + 1] == others[..k] + [others[k]];
      DecidedGrows(others[..k], others[k], p);
      CallKeepsValid(end, others[k]);
      end := Call(end, others[k]).0;
    }
    assert others[..|others|] == others;
    DecidedByFirst(others, p);
    if wake.Ready? {
      return CycleResult(end.channels[nonce][0]), end;
    }
    var timeout := Call(end, Timeout(nonce));
    CallKeepsValid(end, Timeout(nonce));
    end := timeout.0;
    if timeout.1 {
      r := if wake.Timer? then Expired else Cancelled;
    } else {
      r := CycleResult(end.channels[nonce][0]);
    }
  }

  // ---- the tracker with its fields ----

  /** A channel of capacity one: sending needs room, or the sender would block. */
  class Channel {
    var items: seq<Result>

    constructor ()
      ensures items == []
    {
      items := [];
    }

    method Put(r: Result)
      requires |items| < 1
      modifies this
      ensures items == old(items) + [r]
    {
      items := items + [r];
    }
  }

  class HeartbeatTracker {
    var pending: Option<Pending>
    var done: Channel?            // the channel the latest begin returned
    var closed: bool
    ghost var latest: Nonce       // and its nonce
    ghost var state: Tracker      // the value that the runs above are made of

    constructor ()
      ensures TrackerOK() && state == NEW
    {
      pending, done, closed := None, null, false;
      state := NEW;
    }

    ghost predicate TrackerOK()
      reads this, done
    {
      && Valid(state) && state.pending == pending && state.closed == closed
      && (pending.Some? ==> done != null && latest == pending.value.nonce)
      && (done != null ==> latest in state.channels && state.channels[latest] == done.items)
    }

    method Begin(nonce: Nonce, sentAt: int) returns (ch: Channel?)
      requires TrackerOK() && nonce !in state.channels
      modifies this
      ensures TrackerOK() && state == Call(old(state), Op.Begin(nonce, sentAt)).0
      ensures ch != null <==> Call(old(state), Op.Begin(nonce, sentAt)).1
      ensures if ch == null then done == old(done) else fresh(ch) && ch == done && latest == nonce
    {
      CallKeepsValid(state, Op.Begin(nonce, sentAt));
      if closed || pending.Some? {
        return null;
      }
      ch := new Channel();
      done := ch;
      pending := Some(Pending(nonce, sentAt));
      state, latest := Call(state, Op.Begin(nonce, sentAt)).0, nonce;
    }

    method ResolvePong(nonce: Nonce, now: int) returns (matched: bool)
      requires TrackerOK()
      modifies this, done
      ensures TrackerOK() && done == old(done) && latest == old(latest)
      ensures state == Call(old(state), Op.Pong(nonce, now)).0 && matched == Call(old(state), Op.Pong(nonce, now)).1
    {
      CallKeepsValid(state, Op.Pong(nonce, now));
      if pending.None? || pending.value.nonce != nonce {
        return false;
      }
      var rtt := now - pending.value.sentAt;
      if rtt < 0 {
        rtt := 0;
      }
      state := Call(state, Op.Pong(nonce, now)).0;
      pending := None;
      done.Put(Rtt(rtt));
      matched := true;
    }

    method Timeout(nonce: Nonce) returns (matched: bool)
      requires TrackerOK()
      modifies this, done
      ensures TrackerOK() && done == old(done) && latest == old(latest)
      ensures state == Call(old(state), Op.Timeout(nonce)).0 && matched == Call(old(state), Op.Timeout(nonce)).1
    {
      CallKeepsValid(state, Op.Timeout(nonce));
      if pending.None? || pending.value.nonce != nonce {
        return false;
      }
      state := Call(state, Op.Timeout(nonce)).0;
      pending := None;
      done.Put(TimedOut);
      matched := true;
    }

    method Close()
      requires TrackerOK()
      modifies this, done
      ensures TrackerOK() && done == old(done) && latest == old(latest)
      ensures state == Call(old(state), Op.Close).0
    {
      CallKeepsValid(state, Op.Close);
      state := Call(state, Op.Close).0;
      if closed {
        return;
      }
      closed := true;
      if pending.None? {
        return;
      }
      pending := None;
      done.Put(Closed);
    }
  }
}
