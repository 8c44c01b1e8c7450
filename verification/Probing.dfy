/** Who owns a probed connection: every socket that is opened ends up closed or
    as the active connection, and only its current owner ever disposes of it. */
module Probing {
  import opened Wire
  import opened SwitchPolicy
  import M = ClientModel

  type Socket = nat

  /** A `probeCandidate`; `info.ok` says that its `Err` is nil. */
  datatype Probe = Probe(open: Option<Socket>, info: Candidate)

  function Own(p: Probe): set<Socket> {
    if p.open.Some? then {p.open.value} else {}
  }

  function Opens(s: seq<Probe>): set<Socket> {
    set p | p in s && p.open.Some? :: p.open.value
  }

  /** Every socket belongs to at most one of the candidates, and only a
      successful probe has one. */
  ghost predicate Apart(s: seq<Probe>) {
    && (forall i, j | 0 <= i < j < |s| && s[i].open.Some? :: s[i].open != s[j].open)
    && (forall i | 0 <= i < |s| && s[i].open.Some? :: s[i].info.ok)
  }

  /** What the environment does to one activation: the dial, how many frames can be
      written, the frames that arrive until a read fails, whether the accept comes in
      time, what the client is when it commits, and whether the replay goes through. */
  datatype Attempt = Attempt(dial: bool, writes: nat, incoming: seq<Frame>, inTime: bool, resume: bool, at: M.Client,
                             replayed: bool)

  /** An activation that was begun: of a new dial, or of a probed candidate. */
  datatype Act = Direct(attempt: Attempt) | Probed(attempt: Attempt)

  /** All sockets of the client and its active connection. A socket is `pending`
      from its opening until it is closed or committed; `handed` are those a
      candidate has transferred to a session handshake. `epoch` is the client's,
      `commits` counts the activations that changed it, and `acts` are those that were
      begun, in their order. */
  class Sockets {
    var next: Socket
    var pending: set<Socket>
    var closed: set<Socket>
    var handed: set<Socket>
    var active: Option<Socket>
    var finished: bool
    var epoch: nat
    var commits: nat
    var acts: seq<Act>

    constructor ()
      ensures Valid() && pending == closed == handed == {} && active.None? && !finished && epoch == commits == 0
      ensures acts == []
    {
      next, pending, closed, handed, active, finished, epoch, commits := 0, {}, {}, {}, None, false, 0, 0;
      acts := [];
    }

    function Active(): set<Socket>
      reads this
    {
      if active.Some? then {active.value} else {}
    }

    /** Pending, closed and active share out everything ever opened. */
    ghost predicate Valid()
      reads this
    {
      && (forall w: Socket | w < next :: w in pending || w in closed || active == Some(w))
      && (forall w: Socket | w in pending :: w < next && w !in closed)
      && (forall w: Socket | w in closed || w in handed :: w < next)
      && (active.Some? ==> active.value < next && active.value !in pending && active.value !in closed)
      && (finished ==> active.None?)
    }

    /** A dial; `ok` is its outcome. */
    method Open(ok: bool) returns (w: Option<Socket>)
      requires Valid()
      modifies this`next, this`pending
      ensures Valid() && (w.Some? <==> ok)
      ensures w.None? ==> pending == old(pending) && next == old(next)
      ensures w.Some? ==> w.value == old(next) && pending == old(pending) + {w.value} && next == old(next) + 1
    {
      if !ok {
        return None;
      }
      w := Some(next);
      pending := pending + {next};
      next := next + 1;
    }

    method Close(w: Socket)
      requires Valid() && w in pending
      modifies this`pending, this`closed
      ensures Valid() && pending == old(pending) - {w} && closed == old(closed) + {w}
    {
      pending, closed := pending - {w}, closed + {w};
    }

    /** `dropActive`: the given connection is closed, and if it is the active one there is none. */
    method Drop(w: Socket)
      requires Valid() && (active == Some(w) || w in closed)
      modifies this`active, this`closed
      ensures Valid() && active == (if old(active) == Some(w) then None else old(active))
      ensures closed == old(closed) + {w}
    {
      if active == Some(w) {
        active := None;
      }
      closed := closed + {w};
    }

    /** What the other goroutines may do meanwhile: lose the active connection, or end the client. */
    method Elsewhere()
      requires Valid()
      modifies this`active, this`closed, this`finished
      ensures Valid() && (active == old(active) || active.None?) && (old(finished) ==> finished)
      ensures closed + Active() == old(closed + Active())
    {
      var lose, end := *, *;
      if lose || end {
        closed := closed + Active();
        active := None;
      }
      finished := finished || end;
    }

    /** A commit publishes the connection under a later epoch and closes the one before it. */
    method Install(w: Socket)
      requires Valid() && w in pending && !finished
      modifies this`pending, this`closed, this`active, this`epoch, this`commits
      ensures Valid() && active == Some(w) && pending == old(pending) - {w} && closed == old(closed) + old(Active())
      ensures epoch > old(epoch) && commits == old(commits) + 1
    {
      var later: nat :| later > epoch;
      pending, active, closed := pending - {w}, Some(w), closed + Active();
      epoch, commits := later, commits + 1;
    }

    /** What the other goroutines may do while `switchMu` is free: besides, commit
        any number of activations of their own. */
    method Meanwhile()
      requires Valid()
      modifies this`next, this`pending, this`closed, this`active, this`finished, this`epoch, this`commits
      ensures Valid() && pending == old(pending) && old(closed) <= closed && old(next) <= next
      ensures old(finished) ==> finished
      ensures old(commits) <= commits && (epoch == old(epoch) <==> commits == old(commits))
      ensures active.None? || (if commits == old(commits) then active == old(active) else old(next) <= active.value)
    {
      Elsewhere();
      var rounds: nat := *;
      while rounds > 0 && !finished
        invariant Valid() && pending == old(pending) && old(closed) <= closed && old(next) <= next
        invariant old(finished) ==> finished
        invariant old(commits) <= commits && old(epoch) <= epoch && (epoch == old(epoch) <==> commits == old(commits))
        invariant active.None? || (if commits == old(commits) then active == old(active) else old(next) <= active.value)
        decreases rounds
      {
        var w := Open(true);
        Install(w.value);
        Elsewhere();
        rounds := rounds - 1;
      }
    }
  }

  // ---- probeCandidate ----

  /** `close`: closes the socket the candidate still owns, if any; never twice. */
  method CloseProbe(s: Sockets, a: array<Probe>, i: nat)
    requires s.Valid() && i < a.Length && (a[i].open.Some? ==> a[i].open.value in s.pending)
    modifies s`pending, s`closed, a
    ensures s.Valid() && a[..] == old(a[..])[i := old(a[i]).(open := None)]
    ensures s.pending == old(s.pending) - Own(old(a[i])) && s.closed == old(s.closed) + Own(old(a[i]))
  {
    var open := a[i].open;
    if open.Some? {
      a[i] := a[i].(open := None);
      s.Close(open.value);
    }
  }

  /** `transfer`: gives the socket away, once. */
  method Transfer(s: Sockets, a: array<Probe>, i: nat) returns (w: Option<Socket>)
    requires s.Valid() && i < a.Length
    requires a[i].open.Some? ==> a[i].open.value in s.pending && a[i].open.value !in s.handed
    modifies s`handed, a
    ensures s.Valid() && w == old(a[i]).open && a[..] == old(a[..])[i := old(a[i]).(open := None)]
    ensures s.handed == old(s.handed) + Own(old(a[i]))
  {
    w := a[i].open;
    a[i] := a[i].(open := None);
    if w.Some? {
      s.handed := s.handed + {w.value};
    }
  }

  // ---- probing ----

  /** What the environment does to one probe: dial, deadline, ping and its time, the
      frames that arrive with their times until a read fails, and the two steps after
      a pong. */
  datatype ProbeEnv = ProbeEnv(dial: bool, deadlineSet: bool, started: int, written: bool, incoming: seq<(Frame, int)>,
                               stopped: bool, cleared: bool)

  ghost predicate Answers(env: ProbeEnv, nonce: nat) {
    && env.dial && env.deadlineSet && env.written && env.stopped && env.cleared
    && exists k :: 0 <= k < |env.incoming| && env.incoming[k].0 == Pong(nonce)
  }

  /** The RTT of a probe: from its ping to the first pong with its nonce. */
  ghost predicate IsRtt(env: ProbeEnv, nonce: nat, rtt: int) {
    exists k :: 0 <= k < |env.incoming| && env.incoming[k].0 == Pong(nonce) && rtt == env.incoming[k].1 - env.started
                && forall j | 0 <= j < k :: env.incoming[j].0 != Pong(nonce)
  }

  /** The ping of a probe: frames that are not its pong are skipped. */
  method PingPong(env: ProbeEnv, nonce: nat) returns (rtt: Option<int>)
    requires env.dial
    ensures rtt.Some? <==> Answers(env, nonce)
    ensures rtt.Some? ==> IsRtt(env, nonce, rtt.value)
  {
    if !env.deadlineSet || !env.written {
      return None;
    }
    for k := 0 to |env.incoming|
      invariant forall j | 0 <= j < k :: env.incoming[j].0 != Pong(nonce)
    {
      if env.incoming[k].0 == Pong(nonce) {
        return if env.stopped && env.cleared then Some(env.incoming[k].1 - env.started) else None;
      }
    }
    rtt := None;
  }

  /** `probePathCandidate`: the result owns a socket exactly when the probe was
      answered; a socket of a failed probe is closed before it returns. */
  method ProbePath(s: Sockets, job: Candidate, nonce: nat, env: ProbeEnv) returns (p: Probe)
    requires s.Valid()
    modifies s`next, s`pending, s`closed
    ensures s.Valid() && old(s.next) <= s.next && old(s.closed) <= s.closed
    ensures s.pending == old(s.pending) + Own(p)
    ensures p.open.Some? <==> Answers(env, nonce)
    ensures p.open.Some? ==> old(s.next) <= p.open.value < s.next && IsRtt(env, nonce, p.info.rtt)
    ensures p.info == job.(ok := p.open.Some?, rtt := p.info.rtt)
  {
    p := Probe(None, job.(ok := false));
    var w := s.Open(env.dial);
    if w.Some? {
      var rtt := PingPong(env, nonce);
      if rtt.Some? {
        p := Probe(w, job.(ok := true, rtt := rtt.value));
      } else {
        s.Close(w.value);
      }
    }
  }

  ghost predicate DistinctOrders(s: seq<Candidate>) {
    forall i, j | 0 <= i < j < |s| :: s[i].order != s[j].order
  }

  function Infos(s: seq<Probe>): (r: seq<Candidate>)
    ensures |r| == |s| && forall i | 0 <= i < |s| :: r[i] == s[i].info
  {
    seq(|s|, i requires 0 <= i < |s| => s[i].info)
  }

  /** The outcome of a probe, for a job with this place in the configuration; the
      place also serves as its nonce. */
  ghost predicate IsOutcome(p: Probe, probes: nat -> ProbeEnv) {
    && p.info.ok == p.open.Some? == Answers(probes(p.info.order), p.info.order)
    && (p.info.ok ==> IsRtt(probes(p.info.order), p.info.order, p.info.rtt))
  }

  /** One outcome for every job, and no other. */
  ghost predicate Outcomes(c: seq<Probe>, jobs: seq<Candidate>, probes: nat -> ProbeEnv) {
    && (forall p | p in c :: IsOutcome(p, probes))
    && (forall p | p in c :: IsOneOf(jobs, p.info))
    && (forall j | j in jobs :: HasOrder(Infos(c), j.order))
  }

  /** Path, priority and place of some job. */
  ghost predicate IsOneOf(jobs: seq<Candidate>, info: Candidate) {
    exists i :: 0 <= i < |jobs| && info == jobs[i].(ok := info.ok, rtt := info.rtt)
  }

  ghost predicate HasOrder(c: seq<Candidate>, order: nat) {
    exists i :: 0 <= i < |c| && c[i].order == order
  }

  /** `streamProbeCandidates`: the workers finish the jobs in any order. */
  method StreamProbes(s: Sockets, jobs: seq<Candidate>, probes: nat -> ProbeEnv) returns (results: seq<Probe>)
    requires s.Valid() && DistinctOrders(jobs)
    modifies s`next, s`pending, s`closed
    ensures s.Valid() && old(s.next) <= s.next && old(s.closed) <= s.closed
    ensures |results| == |jobs| && DistinctOrders(Infos(results)) && Apart(results)
    ensures Outcomes(results, jobs, probes)
    ensures s.pending == old(s.pending) + Opens(results)
    ensures forall w | w in Opens(results) :: old(s.next) <= w
  {
    results := [];
    var left := jobs;
    while left != []
      invariant |results| + |left| == |jobs|
      invariant OrdersApart(results, left)
      invariant s.Valid() && old(s.next) <= s.next && old(s.closed) <= s.closed
      invariant s.pending == old(s.pending) + Opens(results)
      invariant Apart(results) && forall w | w in Opens(results) :: old(s.next) <= w < s.next
      invariant forall p | p in results :: IsOutcome(p, probes)
      invariant SharedOut(jobs, left, results)
      decreases |left|
    {
      var k :| 0 <= k < |left|;
      var p := ProbePath(s, left[k], left[k].order, probes(left[k].order));
      OpensGrow(results, p);
      OneJobDone(jobs, left, results, k, p);
      OneOrderMoves(results, left, k, p);
      results := results + [p];
      left := left[..k] + left[k + 1..];
    }
  }

  ghost predicate OrdersApart(results: seq<Probe>, left: seq<Candidate>) {
    && DistinctOrders(Infos(results)) && DistinctOrders(left)
    && forall i, j | 0 <= i < |results| && 0 <= j < |left| :: results[i].info.order != left[j].order
  }

  lemma OneOrderMoves(results: seq<Probe>, left: seq<Candidate>, k: nat, p: Probe)
    requires OrdersApart(results, left) && k < |left| && p.info.order == left[k].order
    ensures OrdersApart(results + [p], left[..k] + left[k + 1..])
  {
  }

  /** Every job is still to do or has its outcome. */
  ghost predicate SharedOut(jobs: seq<Candidate>, left: seq<Candidate>, results: seq<Probe>) {
    && (forall p | p in results :: IsOneOf(jobs, p.info))
    && (forall j | j in left :: j in jobs)
    && (forall j | j in jobs :: HasOrder(left, j.order) || HasOrder(Infos(results), j.order))
  }

  lemma OneJobDone(jobs: seq<Candidate>, left: seq<Candidate>, results: seq<Probe>, k: nat, p: Probe)
    requires SharedOut(jobs, left, results) && k < |left|
    requires p.info == left[k].(ok := p.info.ok, rtt := p.info.rtt)
    ensures SharedOut(jobs, left[..k] + left[k + 1..], results + [p])
  {
    var left', results' := left[..k] + left[k + 1..], results + [p];
    assert left[k] in left;
    var at :| 0 <= at < |jobs| && jobs[at] == left[k];
    assert IsOneOf(jobs, p.info);
    forall j | j in jobs ensures HasOrder(left', j.order) || HasOrder(Infos(results'), j.order) {
      if HasOrder(left, j.order) {
        var i :| 0 <= i < |left| && left[i].order == j.order;
        if i < k {
          assert left'[i] == left[i];
        } else if i > k {
          assert left'[i - 1] == left[i];
        } else {
          assert Infos(results')[|results|] == p.info;
        }
      } else {
        var i :| 0 <= i < |results| && Infos(results)[i].order == j.order;
        assert Infos(results')[i] == results[i].info;
      }
    }
  }

  lemma OpensGrow(s: seq<Probe>, p: Probe)
    ensures Opens(s + [p]) == Opens(s) + Own(p)
    ensures Apart(s) && (p.open.Some? ==> p.info.ok && p.open.value !in Opens(s)) ==> Apart(s + [p])
  {
    var t := s + [p];
    assert forall q | q in s :: q in t;
    assert p in t;
    assert forall i | 0 <= i < |s| && s[i].open.Some? :: s[i] in s && s[i].open.value in Opens(s);
  }

  /** `rankProbeCandidates`, in place. */
  method RankProbes(a: array<Probe>)
    requires DistinctOrders(Infos(a[..])) && Apart(a[..])
    modifies a
    ensures Ranked(Infos(a[..])) && multiset(a[..]) == multiset(old(a[..])) && DistinctOrders(Infos(a[..]))
    ensures Apart(a[..]) && Opens(a[..]) == Opens(old(a[..])) && forall p :: p in a[..] <==> p in old(a[..])
  {
    for n := 0 to a.Length
      invariant RankedBut(a[..], n, n) && DistinctOrders(Infos(a[..])) && Apart(a[..])
      invariant multiset(a[..]) == multiset(old(a[..]))
    {
      Sink(a, n);
    }
    assert forall p :: p in a[..] <==> p in multiset(a[..]);
    assert forall p :: p in old(a[..]) <==> p in multiset(old(a[..]));
  }

  function Swapped(s: seq<Probe>, k: nat): seq<Probe>
    requires 0 < k < |s|
  {
    s[k := s[k - 1]][k - 1 := s[k]]
  }

  lemma SwapKeeps(s: seq<Probe>, k: nat)
    requires 0 < k < |s| && Apart(s) && DistinctOrders(Infos(s))
    ensures Apart(Swapped(s, k)) && DistinctOrders(Infos(Swapped(s, k))) && multiset(Swapped(s, k)) == multiset(s)
  {
  }

  /** Everything among the first `n` is ranked, except that `k` may be too late. */
  ghost predicate RankedBut(s: seq<Probe>, n: nat, k: nat)
    requires n <= |s|
  {
    forall i, j | 0 <= i < j < n && j != k :: Before(s[i].info, s[j].info)
  }

  lemma SwapSinks(s: seq<Probe>, n: nat, k: nat)
    requires 0 < k < n <= |s| && RankedBut(s, n, k) && Before(s[k].info, s[k - 1].info)
    ensures RankedBut(Swapped(s, k), n, k - 1)
  {
  }

  /** Once the element at `k` is not before its neighbour it is in its place. */
  lemma Sunk(s: seq<Probe>, n: nat, k: nat)
    requires k < n <= |s| && RankedBut(s, n, k) && DistinctOrders(Infos(s))
    requires k == 0 || !Before(s[k].info, s[k - 1].info)
    ensures RankedBut(s, n, n)
  {
    forall i | 0 <= i < k ensures Before(s[i].info, s[k].info) {
      assert Infos(s)[k - 1].order != Infos(s)[k].order;
      BeforeIsStrictOrder(s[k - 1].info, s[k].info, s[k].info);
      BeforeIsStrictOrder(s[i].info, s[k - 1].info, s[k].info);
    }
  }

  /** Moves the element at `n` down to its place among the ranked ones before it. */
  method Sink(a: array<Probe>, n: nat)
    requires n < a.Length && Apart(a[..]) && DistinctOrders(Infos(a[..])) && RankedBut(a[..], n, n)
    modifies a
    ensures Apart(a[..]) && DistinctOrders(Infos(a[..])) && RankedBut(a[..], n + 1, n + 1)
    ensures multiset(a[..]) == multiset(old(a[..]))
  {
    var k := n;
    while k > 0 && Before(a[k].info, a[k - 1].info)
      invariant 0 <= k <= n && Apart(a[..]) && DistinctOrders(Infos(a[..])) && RankedBut(a[..], n + 1, k)
      invariant multiset(a[..]) == multiset(old(a[..]))
    {
      ghost var s := a[..];
      SwapKeeps(s, k);
      SwapSinks(s, n + 1, k);
      a[k], a[k - 1] := a[k - 1], a[k];
      assert a[..] == Swapped(s, k);
      k := k - 1;
    }
    Sunk(a[..], n + 1, k);
  }
}
