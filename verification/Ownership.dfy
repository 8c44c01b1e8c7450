/** The paths a probed connection can take: cold connect, last-known-good
    fallback, switch cycle. Each leaves no socket pending that it opened or was
    handed, so every one of them is closed or the active connection. */
module Ownership {
  import opened Wire
  import opened SwitchPolicy
  import opened Probing
  import Stream
  import M = ClientModel
  import A = Answers

  /** What `startSession` makes of the frames that arrive before the handshake is
      over: pings are answered, the first other frame decides. */
  function HandshakeEnd(incoming: seq<Frame>): (accept: Option<Frame>)
    ensures accept.Some? ==> accept.value.Accept?
  {
    if incoming == [] then None
    else if incoming[0].Ping? then HandshakeEnd(incoming[1..])
    else if incoming[0].Accept? then Some(incoming[0])
    else None
  }

  function LeadingPings(incoming: seq<Frame>): nat {
    if incoming == [] || !incoming[0].Ping? then 0 else 1 + LeadingPings(incoming[1..])
  }

  /** The hello and the answer to every ping can be written, and an accept follows. */
  predicate Accepted(t: Attempt) {
    LeadingPings(t.incoming) < t.writes && t.inTime && HandshakeEnd(t.incoming).Some?
  }

  /** `commitActivation` takes the accept, unless the client has ended. */
  predicate Fits(t: Attempt) {
    Accepted(t) && M.Commit(t.at.(finished := false), 0, t.resume, HandshakeEnd(t.incoming).value).Some?
  }

  predicate Works(t: Attempt) {
    Fits(t) && t.replayed
  }

  predicate Redials(t: Attempt) {
    t.dial && Works(t)
  }

  /** In terms of the frames: only pings before the accept, each of them answered. */
  lemma {:induction false} AcceptedWhen(t: Attempt)
    ensures Accepted(t) <==> t.inTime && exists k :: 0 <= k < |t.incoming| && k < t.writes && t.incoming[k].Accept?
                                                     && forall j | 0 <= j < k :: t.incoming[j].Ping?
    ensures forall k | 0 <= k < |t.incoming| && t.incoming[k].Accept? && forall j | 0 <= j < k :: t.incoming[j].Ping? ::
              HandshakeEnd(t.incoming) == Some(t.incoming[k])
  {
    FirstFrame(t.incoming);
  }

  lemma {:induction false} FirstFrame(incoming: seq<Frame>)
    ensures var k := LeadingPings(incoming);
            && k <= |incoming| && (forall j | 0 <= j < k :: incoming[j].Ping?)
            && (k < |incoming| ==> !incoming[k].Ping?)
            && HandshakeEnd(incoming) == if k < |incoming| && incoming[k].Accept? then Some(incoming[k]) else None
  {
    if incoming != [] && incoming[0].Ping? {
      FirstFrame(incoming[1..]);
    }
  }

  /** In terms of the client: the accept is of its session and not ahead of it. */
  lemma WorksWhen(t: Attempt, k: nat)
    requires Stream.Tracks(t.at.snd, t.at.stdin) && k < |t.incoming| && t.incoming[k].Accept?
    requires forall j | 0 <= j < k :: t.incoming[j].Ping?
    ensures Works(t) <==> t.inTime && k < t.writes && t.replayed && (t.resume ==> t.incoming[k].session == t.at.session)
                          && t.incoming[k].c2sRx <= |t.at.stdin|
    ensures Redials(t) <==> Works(t) && t.dial
  {
    AcceptedWhen(t);
    A.ClientCommits(t.at.(finished := false), 0, t.resume, t.incoming[k]);
  }

  // ---- the order of activations ----

  predicate Succeeds(a: Act) {
    if a.Direct? then Redials(a.attempt) else Works(a.attempt)
  }

  /** Activations are made in the order of a plan, until the first one that succeeds. */
  ghost predicate Carried(before: seq<Act>, after: seq<Act>, plan: seq<Act>, ok: bool, finished: bool) {
    && before <= after && after <= before + plan
    && var done := after[|before|..];
       if ok then
         && done != [] && Succeeds(done[|done| - 1]) && !finished
         && forall i | 0 <= i < |done| - 1 :: !Succeeds(done[i])
       else done == plan && (finished || forall i | 0 <= i < |done| :: !Succeeds(done[i]))
  }

  lemma CarriedOn(a: seq<Act>, b: seq<Act>, c: seq<Act>, p: seq<Act>, q: seq<Act>, ok: bool, f: bool, g: bool)
    requires Carried(a, b, p, false, f) && Carried(b, c, q, ok, g) && (f ==> g)
    ensures Carried(a, c, p + q, ok, g)
  {
    assert b == a + p && c[|a|..] == p + c[|b|..];
    assert a + (p + q) == b + q;
  }

  lemma CarriedEnough(a: seq<Act>, b: seq<Act>, p: seq<Act>, q: seq<Act>, f: bool)
    requires Carried(a, b, p, true, f)
    ensures Carried(a, b, p + q, true, f)
  {
    assert a + (p + q) == (a + p) + q;
  }

  /** The activations of the candidates that own a socket. */
  function Tries(c: seq<Probe>, world: World): seq<Act> {
    if c == [] then []
    else
      Tries(c[..|c| - 1], world)
      + if c[|c| - 1].open.Some? then [Act.Probed(world.tries(c[|c| - 1].info.order))] else []
  }

  /** The direct activations of candidates. */
  function Retries(c: seq<Probe>, world: World): seq<Act> {
    seq(|c|, i requires 0 <= i < |c| => Direct(world.retries(c[i].info.order)))
  }

  lemma {:induction false} TriesGrow(c: seq<Probe>, k: nat, world: World)
    requires k <= |c|
    ensures Tries(c[..k], world) <= Tries(c, world)
    decreases |c|
  {
    if k < |c| {
      assert c[..|c| - 1][..k] == c[..k];
      TriesGrow(c[..|c| - 1], k, world);
    } else {
      assert c[..k] == c;
    }
  }

  lemma {:induction false} TriesFail(c: seq<Probe>, world: World)
    requires forall k | 0 <= k < |c| :: !Wins(c[k], world)
    ensures forall i | 0 <= i < |Tries(c, world)| :: !Succeeds(Tries(c, world)[i])
  {
    if c != [] {
      TriesFail(c[..|c| - 1], world);
    }
  }

  lemma {:induction false} NothingToTry(c: seq<Probe>, world: World)
    requires forall k | 0 <= k < |c| :: c[k].open.None? && !c[k].info.ok
    ensures Tries(c, world) == [] && Failed(c) == c
  {
    if c != [] {
      NothingToTry(c[..|c| - 1], world);
      assert c == c[..|c| - 1] + [c[|c| - 1]];
    }
  }

  /** The loop of `startSession`; the socket is closed again unless it returns an accept. */
  method StartSession(s: Sockets, w: Socket, t: Attempt) returns (accept: Option<Frame>, pongs: seq<Frame>)
    requires s.Valid() && w in s.pending
    modifies s`pending, s`closed
    ensures s.Valid()
    ensures accept == if Accepted(t) then HandshakeEnd(t.incoming) else None
    ensures accept.Some? ==> s.pending == old(s.pending) && s.closed == old(s.closed)
    ensures accept.None? ==> s.pending == old(s.pending) - {w} && s.closed == old(s.closed) + {w}
    ensures |pongs| <= |t.incoming| && forall k | 0 <= k < |pongs| ::
            t.incoming[k].Ping? && pongs[k] == Pong(t.incoming[k].nonce)
    ensures accept.Some? ==> |pongs| < |t.incoming| && t.incoming[|pongs|] == accept.value
  {
    accept, pongs := None, [];
    if t.writes > 0 {
      while |pongs| < |t.incoming| && t.incoming[|pongs|].Ping?
        invariant |pongs| <= |t.incoming| && |pongs| < t.writes
        invariant HandshakeEnd(t.incoming[|pongs|..]) == HandshakeEnd(t.incoming)
        invariant LeadingPings(t.incoming) == |pongs| + LeadingPings(t.incoming[|pongs|..])
        invariant forall k | 0 <= k < |pongs| :: t.incoming[k].Ping? && pongs[k] == Pong(t.incoming[k].nonce)
        decreases |t.incoming| - |pongs|
      {
        assert t.incoming[|pongs|..][1..] == t.incoming[|pongs| + 1..];
        if |pongs| + 1 == t.writes {
          s.Close(w);
          return;
        }
        pongs := pongs + [Pong(t.incoming[|pongs|].nonce)];
      }
      if |pongs| < |t.incoming| && t.incoming[|pongs|].Accept? && t.inTime {
        return Some(t.incoming[|pongs|]), pongs;
      }
    }
    s.Close(w);
  }

  /** A handshake on a socket that was handed over, and `commitActivation` behind
      it: the socket becomes the active connection or is closed; so is the
      connection it replaces. */
  method ActivateSocket(s: Sockets, w: Socket, t: Attempt) returns (ok: bool)
    requires s.Valid() && w in s.pending
    modifies s`pending, s`closed, s`active, s`finished, s`epoch, s`commits
    ensures s.Valid() && s.pending == old(s.pending) - {w} && old(s.closed) <= s.closed
    ensures ok <==> Works(t) && !s.finished
    ensures s.commits == old(s.commits) + if Fits(t) && !s.finished then 1 else 0
    ensures ok ==> s.active == Some(w)
    ensures !ok ==> w in s.closed && (s.active == old(s.active) || s.active.None?)
    ensures old(s.finished) ==> s.finished
  {
    var accept, _ := StartSession(s, w, t);
    s.Elsewhere();
    if accept.None? {
      return false;
    }
    if s.finished || (t.resume && accept.value.session != t.at.session) || accept.value.c2sRx > t.at.snd.next {
      s.Close(w);
      return false;
    }
    if !Stream.Advance(t.at.snd, accept.value.c2sRx).Moved? {
      s.Close(w);
      return false;
    }
    s.Install(w);
    ok := t.replayed;
    if !ok {
      s.closed, s.active := s.closed + {w}, None;
    }
  }

  /** `activateDirect`. */
  method ActivateDirect(s: Sockets, t: Attempt) returns (ok: bool)
    requires s.Valid()
    modifies s`next, s`pending, s`closed, s`active, s`finished, s`epoch, s`commits, s`acts
    ensures s.Valid() && s.pending == old(s.pending) && old(s.closed) <= s.closed && old(s.next) <= s.next
    ensures ok <==> Redials(t) && !s.finished
    ensures s.acts == old(s.acts) + [Direct(t)]
    ensures ok ==> s.active.Some? && old(s.next) <= s.active.value
    ensures !ok ==> s.active == old(s.active) || s.active.None?
    ensures old(s.finished) ==> s.finished
  {
    s.acts := s.acts + [Direct(t)];
    var w := s.Open(t.dial);
    if w.None? {
      return false;
    }
    ok := ActivateSocket(s, w.value, t);
  }

  /** The request of `activateCandidateFor`: the connection it was made for, absent
      in a connect, and that connection's epoch. */
  datatype Request = Request(expected: Option<Socket>, epoch: nat, allowDropped: bool)

  const CONNECT := Request(None, 0, false)

  /** `candidateSourceIsCurrent`. */
  predicate SourceIsCurrent(r: Request, active: Option<Socket>, epoch: nat, finished: bool) {
    r.expected.None? || (!finished && (active == r.expected || (r.allowDropped && active.None? && epoch == r.epoch)))
  }

  /** `activateCandidateFor`: a failed candidate is closed, a superseded one keeps
      its socket, any other hands it over for good. */
  method ActivateCandidate(s: Sockets, a: array<Probe>, i: nat, r: Request, t: Attempt) returns (ok: bool)
    requires s.Valid() && i < a.Length
    requires a[i].open.Some? ==> a[i].open.value in s.pending && a[i].open.value !in s.handed && a[i].info.ok
    modifies s`pending, s`closed, s`handed, s`active, s`finished, s`epoch, s`commits, s`acts, a
    ensures s.Valid() && old(s.closed) <= s.closed && (old(s.finished) ==> s.finished)
    ensures ok ==> s.active.Some? && s.active == old(a[i]).open
    ensures old(a[i]).open.None? || !SourceIsCurrent(r, old(s.active), old(s.epoch), old(s.finished)) ==>
              s.active == old(s.active) && s.finished == old(s.finished)
    ensures !ok ==> s.active == old(s.active) || s.active.None?
    ensures var given := SourceIsCurrent(r, old(s.active), old(s.epoch), old(s.finished)) && old(a[i]).info.ok;
            && (ok <==> given && old(a[i]).open.Some? && Works(t) && !s.finished)
            && s.commits == old(s.commits) + (if given && old(a[i]).open.Some? && Fits(t) && !s.finished then 1 else 0)
            && a[..] == (if given then old(a[..])[i := old(a[i]).(open := None)] else old(a[..]))
            && s.pending == old(s.pending) - (if given then Own(old(a[i])) else {})
            && s.handed == old(s.handed) + (if given then Own(old(a[i])) else {})
            && s.acts == old(s.acts) + (if given && old(a[i]).open.Some? then [Act.Probed(t)] else [])
  {
    if !a[i].info.ok {
      CloseProbe(s, a, i);
      return false;
    }
    if !SourceIsCurrent(r, s.active, s.epoch, s.finished) {
      return false;
    }
    var w := Transfer(s, a, i);
    if w.None? {
      return false;
    }
    s.acts := s.acts + [Act.Probed(t)];
    ok := ActivateSocket(s, w.value, t);
  }

  /** What a batch of candidates may hold: sockets that are pending and not handed over. */
  ghost predicate Held(s: Sockets, c: seq<Probe>)
    reads s
  {
    Apart(c) && Opens(c) <= s.pending && Opens(c) !! s.handed
  }

  lemma OpensFrom(c: seq<Probe>, i: nat)
    requires i < |c|
    ensures Opens(c[i..]) == Own(c[i]) + Opens(c[i + 1..])
    ensures Apart(c) ==> Own(c[i]) !! Opens(c[i + 1..])
  {
    assert c[i..] == [c[i]] + c[i + 1..];
    assert forall p | p in c[i..] :: p == c[i] || p in c[i + 1..];
  }

  /** `closeProbeCandidates`. */
  method CloseProbes(s: Sockets, a: array<Probe>)
    requires s.Valid() && Held(s, a[..])
    modifies s`pending, s`closed, a
    ensures s.Valid() && Opens(a[..]) == {}
    ensures s.pending == old(s.pending) - Opens(old(a[..])) && s.closed == old(s.closed) + Opens(old(a[..]))
  {
    ghost var was := a[..];
    for i := 0 to a.Length
      invariant s.Valid() && a[i..] == was[i..] && forall k | 0 <= k < i :: a[k].open.None?
      invariant Opens(was[i..]) <= s.pending
      invariant s.pending == old(s.pending) - (Opens(was) - Opens(was[i..]))
      invariant s.closed == old(s.closed) + (Opens(was) - Opens(was[i..]))
    {
      OpensFrom(was, i);
      assert a[i] == a[i..][0] && was[i] == was[i..][0];
      CloseProbe(s, a, i);
      assert a[i + 1..] == was[i..][1..] == was[i + 1..];
    }
  }

  /** A batch `c` that was `was`, with the sockets of its first `i` candidates
      handed over: what is pending and handed then, from what it was before. */
  ghost predicate HandedUpTo(was: seq<Probe>, c: seq<Probe>, i: nat, pending: set<Socket>, pending0: set<Socket>,
                             handed: set<Socket>, handed0: set<Socket>)
    requires i <= |was|
  {
    && Apart(c) && |c| == |was| && c[i..] == was[i..] && (forall k | 0 <= k < i :: c[k].open.None?)
    && Opens(c) == Opens(was[i..]) <= pending && Opens(c) !! handed
    && pending == pending0 - (Opens(was) - Opens(was[i..]))
    && handed == handed0 + (Opens(was) - Opens(was[i..]))
  }

  lemma HandOne(was: seq<Probe>, c: seq<Probe>, i: nat, pending: set<Socket>, pending0: set<Socket>,
                handed: set<Socket>, handed0: set<Socket>)
    requires i < |was| && Apart(was) && HandedUpTo(was, c, i, pending, pending0, handed, handed0)
    requires Opens(was) <= pending0
    ensures HandedUpTo(was, c[i := c[i].(open := None)], i + 1, pending - Own(c[i]), pending0, handed + Own(c[i]),
                       handed0)
    ensures c[i] == was[i] && Own(c[i]) <= Opens(was) && Own(c[i]) <= Opens(c)
    ensures c[i].open.None? ==> Own(c[i]) == {} && c[i := c[i].(open := None)] == c
  {
    var c' := c[i := c[i].(open := None)];
    OpensFrom(was, i);
    assert c[i] == c[i..][0] == was[i..][0] == was[i];
    assert c'[i + 1..] == c[i..][1..] == was[i..][1..] == was[i + 1..];
    OpensOfRest(c', was, i + 1);
    assert was[i] in was[i..] && was[i] in was;
    assert c[i] in c;
    assert forall p | p in was[i..] :: p in was;
  }

  lemma OpensOfRest(c: seq<Probe>, was: seq<Probe>, i: nat)
    requires i <= |c| == |was| && c[i..] == was[i..] && forall k | 0 <= k < i :: c[k].open.None?
    ensures Opens(c) == Opens(was[i..])
  {
    assert forall p | p in c && p.open.Some? :: p in c[i..];
    assert forall p | p in c[i..] :: p in c;
  }

  lemma DropOne(c: seq<Probe>, i: nat)
    requires i < |c| && Apart(c)
    ensures var c' := c[i := c[i].(open := None)];
            Apart(c') && Opens(c') == Opens(c) - Own(c[i]) && Own(c[i]) <= Opens(c)
    ensures !c[i].info.ok ==> Own(c[i]) == {}
  {
    var c' := c[i := c[i].(open := None)];
    assert c[i] in c;
    forall p | p in c && p.open.Some? && p != c[i] ensures p in c' {
      var k :| 0 <= k < |c| && c[k] == p;
      assert c'[k] == p;
    }
    forall p | p in c' && p.open.Some? ensures p in c && p.open != c[i].open {
      var k :| 0 <= k < |c'| && c'[k] == p;
      assert c[k] == p && k != i;
    }
  }

  lemma NothingOpenIsApart(c: seq<Probe>)
    ensures Opens(c) == {} ==> Apart(c)
  {
    forall i | 0 <= i < |c| && c[i].open.Some? ensures c[i].open.value in Opens(c) {
      assert c[i] in c;
    }
  }

  /** What the environment does to a whole connect, by the place of a path in the
      configuration: to its probe, to the activation of its candidate, and to the
      direct activation if the probe failed. */
  datatype World = World(probes: nat -> ProbeEnv, tries: nat -> Attempt, retries: nat -> Attempt)

  /** How far the loop below has come: what it has tried, and set aside. */
  ghost predicate TriedSoFar(was: seq<Probe>, i: nat, world: World, acts0: seq<Act>, s: Sockets, failed: seq<Probe>)
    requires i <= |was|
    reads s
  {
    && s.acts == acts0 + Tries(was[..i], world) && failed == Failed(was[..i])
    && (s.finished || forall k | 0 <= k < i :: !Wins(was[k], world))
  }

  /** One round of the loop below. */
  method TryOne(s: Sockets, a: array<Probe>, i: nat, world: World, failed: seq<Probe>, ghost was: seq<Probe>,
                ghost pending0: set<Socket>, ghost handed0: set<Socket>, ghost acts0: seq<Act>)
    returns (ok: bool, failed': seq<Probe>)
    requires s.Valid() && Apart(was) && Opens(was) <= pending0 && i < a.Length == |was|
    requires HandedUpTo(was, a[..], i, s.pending, pending0, s.handed, handed0)
    requires TriedSoFar(was, i, world, acts0, s, failed)
    modifies s`pending, s`closed, s`handed, s`active, s`finished, s`epoch, s`commits, s`acts, a
    ensures s.Valid() && old(s.closed) <= s.closed && (old(s.finished) ==> s.finished)
    ensures HandedUpTo(was, a[..], i + 1, s.pending, pending0, s.handed, handed0)
    ensures !ok ==> TriedSoFar(was, i + 1, world, acts0, s, failed')
    ensures ok ==> FirstToWin(was, i, world) && Carried(acts0, s.acts, Tries(was, world), true, s.finished)
    ensures ok ==> s.active.Some? && s.active == was[i].open && s.active.value in Opens(was)
    ensures !ok ==> s.active == old(s.active) || s.active.None?
  {
    OneMore(was, i, world);
    assert a[i] == a[..][i..][0] == was[i..][0];
    failed' := if a[i].info.ok then failed else failed + [a[i]];
    ok := HandOver(s, a, i, world.tries(a[i].info.order), was, pending0, handed0);
    if ok {
      TriedUpTo(was, i, world, acts0);
    }
  }

  /** A candidate that did not fail is activated. */
  method HandOver(s: Sockets, a: array<Probe>, i: nat, t: Attempt, ghost was: seq<Probe>, ghost pending0: set<Socket>,
                  ghost handed0: set<Socket>)
    returns (ok: bool)
    requires s.Valid() && Apart(was) && Opens(was) <= pending0 && i < a.Length == |was|
    requires HandedUpTo(was, a[..], i, s.pending, pending0, s.handed, handed0)
    modifies s`pending, s`closed, s`handed, s`active, s`finished, s`epoch, s`commits, s`acts, a
    ensures s.Valid() && old(s.closed) <= s.closed && (old(s.finished) ==> s.finished)
    ensures HandedUpTo(was, a[..], i + 1, s.pending, pending0, s.handed, handed0)
    ensures ok <==> was[i].open.Some? && Works(t) && !s.finished
    ensures s.acts == old(s.acts) + if was[i].open.Some? then [Act.Probed(t)] else []
    ensures ok ==> s.active.Some? && s.active == was[i].open && s.active.value in Opens(was)
    ensures !ok ==> s.active == old(s.active) || s.active.None?
  {
    HandOne(was, a[..], i, s.pending, pending0, s.handed, handed0);
    assert a[i] in a[..];
    if !a[i].info.ok {
      return false;
    }
    ok := ActivateCandidate(s, a, i, CONNECT, t);
  }

  /** The loop that tries candidates in turn, in `activateRankedCandidates` and in
      `activateFirstAvailable`: each successful one gives its socket away, the
      others are set aside. The first activation that works wins. */
  method TryInTurn(s: Sockets, a: array<Probe>, world: World) returns (ok: bool, failed: seq<Probe>)
    requires s.Valid() && Held(s, a[..])
    modifies s`pending, s`closed, s`handed, s`active, s`finished, s`epoch, s`commits, s`acts, a
    ensures s.Valid() && Held(s, a[..]) && old(s.closed) <= s.closed && (old(s.finished) ==> s.finished)
    ensures s.pending - Opens(a[..]) == old(s.pending) - Opens(old(a[..]))
    ensures old(s.handed) <= s.handed <= old(s.handed) + Opens(old(a[..]))
    ensures ok ==> s.active.Some? && s.active.value in Opens(old(a[..]))
    ensures ok ==> exists k: nat :: FirstToWin(old(a[..]), k, world) && old(a[..])[k].open == s.active
    ensures !ok ==> s.finished || forall p | p in old(a[..]) :: !Wins(p, world)
    ensures !ok ==> (s.active == old(s.active) || s.active.None?) && s.handed == old(s.handed) + Opens(old(a[..]))
    ensures !ok ==> failed == Failed(old(a[..]))
    ensures Carried(old(s.acts), s.acts, Tries(old(a[..]), world), ok, s.finished)
  {
    ghost var was := a[..];
    ghost var pending0, handed0 := s.pending, s.handed;
    failed := [];
    assert was[..0] == [];
    for i := 0 to a.Length
      invariant s.Valid() && HandedUpTo(was, a[..], i, s.pending, pending0, s.handed, handed0)
                && old(s.closed) <= s.closed
      invariant s.active == old(s.active) || s.active.None?
      invariant TriedSoFar(was, i, world, old(s.acts), s, failed) && (old(s.finished) ==> s.finished)
    {
      ok, failed := TryOne(s, a, i, world, failed, was, pending0, handed0, old(s.acts));
      if ok {
        return;
      }
    }
    assert was[..a.Length] == was;
    AllTried(was, world, old(s.acts), s.finished);
    ok := false;
  }

  lemma OneMore(c: seq<Probe>, i: nat, world: World)
    requires i < |c|
    ensures Failed(c[..i + 1]) == Failed(c[..i]) + if c[i].info.ok then [] else [c[i]]
    ensures Tries(c[..i + 1], world)
            == Tries(c[..i], world) + if c[i].open.Some? then [Act.Probed(world.tries(c[i].info.order))] else []
  {
    assert c[..i + 1][..i] == c[..i] && c[..i + 1][i] == c[i];
  }

  /** All candidates have been tried, and none won. */
  lemma AllTried(c: seq<Probe>, world: World, before: seq<Act>, finished: bool)
    requires finished || forall k | 0 <= k < |c| :: !Wins(c[k], world)
    ensures Carried(before, before + Tries(c, world), Tries(c, world), false, finished)
  {
    if !finished {
      TriesFail(c, world);
    }
    assert (before + Tries(c, world))[|before|..] == Tries(c, world);
  }

  /** The candidates up to the one that won have been tried. */
  lemma TriedUpTo(c: seq<Probe>, i: nat, world: World, before: seq<Act>)
    requires FirstToWin(c, i, world)
    ensures Carried(before, before + Tries(c[..i + 1], world), Tries(c, world), true, false)
  {
    assert c[..i + 1][..i] == c[..i] && c[..i + 1][i] == c[i];
    TriesFail(c[..i], world);
    TriesGrow(c, i + 1, world);
    var done := Tries(c[..i + 1], world);
    assert (before + done)[|before|..] == done;
    assert done == Tries(c[..i], world) + [Act.Probed(world.tries(c[i].info.order))];
  }

  predicate Wins(p: Probe, world: World) {
    p.open.Some? && Works(world.tries(p.info.order))
  }

  ghost predicate FirstToWin(c: seq<Probe>, k: nat, world: World) {
    k < |c| && Wins(c[k], world) && forall j | 0 <= j < k :: !Wins(c[j], world)
  }

  /** The candidates whose probe failed, in order. */
  function Failed(c: seq<Probe>): seq<Probe> {
    if c == [] then []
    else Failed(c[..|c| - 1]) + if c[|c| - 1].info.ok then [] else [c[|c| - 1]]
  }

  lemma {:induction false} FailedOwnNothing(c: seq<Probe>)
    ensures Apart(c) ==> Opens(Failed(c)) == {} && Apart(Failed(c))
    ensures DistinctOrders(Infos(c)) ==> DistinctOrders(Infos(Failed(c)))
    ensures forall p | p in Failed(c) :: p in c && !p.info.ok
  {
    if c != [] {
      FailedOwnNothing(c[..|c| - 1]);
    }
  }

  lemma {:induction false} FailedHasAll(c: seq<Probe>, p: Probe)
    requires p in c && !p.info.ok
    ensures p in Failed(c)
  {
    if p in c[..|c| - 1] {
      FailedHasAll(c[..|c| - 1], p);
    }
  }

  /** Whether a candidate, or the direct dial its failed probe leads to, works out. */
  predicate Way(p: Probe, world: World) {
    if p.info.ok then Wins(p, world) else Redials(world.retries(p.info.order))
  }

  /** The second loop of `activateRankedCandidates`: failed paths are dialled directly. */
  method Redial(s: Sockets, failed: seq<Probe>, world: World) returns (ok: bool)
    requires s.Valid() && forall p | p in failed :: !p.info.ok
    modifies s`next, s`pending, s`closed, s`active, s`finished, s`epoch, s`commits, s`acts
    ensures s.Valid() && s.pending == old(s.pending) && old(s.closed) <= s.closed && old(s.next) <= s.next
    ensures old(s.finished) ==> s.finished
    ensures ok ==> s.active.Some? && old(s.next) <= s.active.value && exists p | p in failed :: Way(p, world)
    ensures !ok ==>
            (s.active == old(s.active) || s.active.None?) && (s.finished || forall p | p in failed :: !Way(p, world))
    ensures Carried(old(s.acts), s.acts, Retries(failed, world), ok, s.finished)
  {
    for i := 0 to |failed|
      invariant s.acts == old(s.acts) + Retries(failed, world)[..i]
      invariant s.Valid() && s.pending == old(s.pending) && old(s.closed) <= s.closed && old(s.next) <= s.next
      invariant (s.active == old(s.active) || s.active.None?) && (old(s.finished) ==> s.finished)
      invariant s.finished || forall j | 0 <= j < i :: !Way(failed[j], world)
    {
      assert failed[i] in failed;
      ok := ActivateDirect(s, world.retries(failed[i].info.order));
      assert Retries(failed, world)[..i + 1] == Retries(failed, world)[..i] + [Retries(failed, world)[i]];
      assert s.acts[|old(s.acts)|..] == Retries(failed, world)[..i + 1];
      if ok {
        return;
      }
    }
    assert Retries(failed, world)[..|failed|] == Retries(failed, world) == s.acts[|old(s.acts)|..];
    ok := false;
  }

  /** `activateRankedCandidates`: whatever happens, no candidate keeps a socket;
      it fails only if the client has ended or no candidate and no redial works. */
  method ActivateRanked(s: Sockets, a: array<Probe>, world: World) returns (ok: bool)
    requires s.Valid() && Held(s, a[..])
    modifies s, a
    ensures s.Valid() && Opens(a[..]) == {} && old(s.closed) <= s.closed && old(s.next) <= s.next
    ensures s.pending == old(s.pending) - Opens(old(a[..])) && (old(s.finished) ==> s.finished)
    ensures old(s.handed) <= s.handed <= old(s.handed) + Opens(old(a[..]))
    ensures ok ==> s.active.Some? && (s.active.value in Opens(old(a[..])) || old(s.next) <= s.active.value)
    ensures ok ==> exists p | p in old(a[..]) :: Way(p, world)
    ensures !ok ==> (s.active == old(s.active) || s.active.None?) && s.handed == old(s.handed) + Opens(old(a[..]))
    ensures !ok ==> s.finished || forall p | p in old(a[..]) :: !Way(p, world)
    ensures Carried(old(s.acts), s.acts, Plan(old(a[..]), world), ok, s.finished)
  {
    ghost var was := a[..];
    var failed;
    ok, failed := TryInTurn(s, a, world);
    if ok {
      Winner(was, s.active, world);
      CarriedEnough(old(s.acts), s.acts, Tries(was, world), Retries(Failed(was), world), s.finished);
    } else {
      ghost var acts, finished := s.acts, s.finished;
      ok := RedialFailed(s, was, failed, world);
      CarriedOn(old(s.acts), acts, s.acts, Tries(was, world), Retries(Failed(was), world), ok, finished, s.finished);
    }
    CloseProbes(s, a);
  }

  /** What is to be tried with a batch: its candidates, then the failed paths directly. */
  function Plan(c: seq<Probe>, world: World): seq<Act> {
    Tries(c, world) + Retries(Failed(c), world)
  }

  /** That second loop, for the failed candidates of a batch. */
  method RedialFailed(s: Sockets, ghost c: seq<Probe>, failed: seq<Probe>, world: World) returns (ok: bool)
    requires s.Valid() && Apart(c) && failed == Failed(c) && (s.finished || forall p | p in c :: !Wins(p, world))
    modifies s`next, s`pending, s`closed, s`active, s`finished, s`epoch, s`commits, s`acts
    ensures s.Valid() && s.pending == old(s.pending) && old(s.closed) <= s.closed && old(s.next) <= s.next
    ensures old(s.finished) ==> s.finished
    ensures ok ==> s.active.Some? && old(s.next) <= s.active.value && exists p | p in c :: Way(p, world)
    ensures !ok ==>
            (s.active == old(s.active) || s.active.None?) && (s.finished || forall p | p in c :: !Way(p, world))
    ensures Carried(old(s.acts), s.acts, Retries(failed, world), ok, s.finished)
  {
    FailedOwnNothing(c);
    ok := Redial(s, failed, world);
    NoWayLeft(c, world);
  }

  lemma Winner(c: seq<Probe>, active: Option<Socket>, world: World)
    requires Apart(c) && exists k: nat :: FirstToWin(c, k, world) && c[k].open == active
    ensures exists p | p in c :: Way(p, world)
  {
    var k: nat :| FirstToWin(c, k, world) && c[k].open == active;
    assert c[k] in c && Way(c[k], world);
  }

  /** Without a winner, the ways of a batch are those of its failed candidates. */
  lemma NoWayLeft(c: seq<Probe>, world: World)
    ensures (forall p | p in c :: !Wins(p, world)) && (forall p | p in Failed(c) :: !Way(p, world)) ==>
            forall p | p in c :: !Way(p, world)
  {
    forall p | p in c && !p.info.ok ensures p in Failed(c) {
      FailedHasAll(c, p);
    }
  }

  method ToArray(c: seq<Probe>) returns (a: array<Probe>)
    ensures fresh(a) && a[..] == c
  {
    a := new Probe[|c|](i requires 0 <= i < |c| => c[i]);
  }

  /** The same for a job, before its probe: which of the two it comes to. */
  ghost predicate JobWay(j: Candidate, world: World) {
    if Answers(world.probes(j.order), j.order) then Works(world.tries(j.order)) else Redials(world.retries(j.order))
  }

  lemma WaysOfOutcomes(c: seq<Probe>, jobs: seq<Candidate>, world: World)
    requires Outcomes(c, jobs, world.probes)
    ensures (exists p | p in c :: Way(p, world)) <==> exists j | j in jobs :: JobWay(j, world)
  {
    forall p | p in c && Way(p, world) ensures exists j | j in jobs :: JobWay(j, world) {
      var i :| 0 <= i < |jobs| && jobs[i].order == p.info.order;
      assert jobs[i] in jobs && JobWay(jobs[i], world);
    }
    forall j | j in jobs && JobWay(j, world) ensures exists p | p in c :: Way(p, world) {
      var i :| 0 <= i < |c| && Infos(c)[i].order == j.order;
      assert c[i] in c && Way(c[i], world);
    }
  }

  /** `activateFirstAvailable`, with the drain behind a success: candidates in the
      order their probes finish, then the failed ones once more. */
  method ActivateFirst(s: Sockets, jobs: seq<Candidate>, world: World)
    returns (ok: bool, ghost results: seq<Probe>, ghost again: seq<Probe>)
    requires s.Valid() && DistinctOrders(jobs)
    modifies s
    ensures s.Valid() && s.pending == old(s.pending) && old(s.closed) <= s.closed
    ensures ok ==> s.active.Some? && old(s.next) <= s.active.value && exists j | j in jobs :: JobWay(j, world)
    ensures !ok ==>
            (s.active == old(s.active) || s.active.None?) && (s.finished || forall j | j in jobs :: !JobWay(j, world))
    ensures Outcomes(results, jobs, world.probes) && multiset(again) == multiset(Failed(results))
    ensures Carried(old(s.acts), s.acts, Tries(results, world) + Retries(again, world), ok, s.finished)
    ensures |s.acts| > |old(s.acts)| + |Tries(results, world)| ==> Ranked(Infos(again))
  {
    var probed := StreamProbes(s, jobs, world.probes);
    results := probed;
    WaysOfOutcomes(results, jobs, world);
    var failed;
    ok, failed := TryProbed(s, probed, world);
    again := Failed(results);
    if ok {
      CarriedEnough(old(s.acts), s.acts, Tries(results, world), Retries(again, world), s.finished);
    } else {
      FailedOwnNothing(results);
      ghost var acts, finished := s.acts, s.finished;
      ok, again := ActivateFailed(s, failed, world);
      CarriedOn(old(s.acts), acts, s.acts, Tries(results, world), Retries(again, world), ok, finished, s.finished);
      NoWayLeft(results, world);
    }
  }

  /** The loop of `activateFirstAvailable`, with the drain. */
  method TryProbed(s: Sockets, results: seq<Probe>, world: World) returns (ok: bool, failed: seq<Probe>)
    requires s.Valid() && Held(s, results)
    modifies s
    ensures s.Valid() && s.pending == old(s.pending) - Opens(results) && old(s.closed) <= s.closed
            && s.next == old(s.next)
    ensures old(s.finished) ==> s.finished
    ensures ok ==> s.active.Some? && s.active.value in Opens(results) && exists p | p in results :: Way(p, world)
    ensures !ok ==>
            (s.active == old(s.active) || s.active.None?) && (s.finished || forall p | p in results :: !Wins(p, world))
    ensures !ok ==> failed == Failed(results)
    ensures Carried(old(s.acts), s.acts, Tries(results, world), ok, s.finished)
  {
    var a := ToArray(results);
    ok, failed := TryInTurn(s, a, world);
    CloseProbes(s, a);
    if ok {
      Winner(results, s.active, world);
    }
  }

  lemma NothingButRetries(c: seq<Probe>, world: World)
    requires Opens(c) == {} && forall p | p in c :: !p.info.ok
    ensures Plan(c, world) == Retries(c, world)
  {
    forall k | 0 <= k < |c| ensures c[k].open.None? && !c[k].info.ok {
      assert c[k] in c && Own(c[k]) <= Opens(c);
    }
    NothingToTry(c, world);
  }

  /** What `activateFirstAvailable` does when no probed candidate worked. */
  method ActivateFailed(s: Sockets, failed: seq<Probe>, world: World) returns (ok: bool, ghost again: seq<Probe>)
    requires s.Valid() && Apart(failed) && Opens(failed) == {} && DistinctOrders(Infos(failed))
    requires forall p | p in failed :: !p.info.ok
    modifies s
    ensures s.Valid() && s.pending == old(s.pending) && old(s.closed) <= s.closed && (old(s.finished) ==> s.finished)
    ensures ok ==> s.active.Some? && old(s.next) <= s.active.value && exists p | p in failed :: Way(p, world)
    ensures !ok ==>
            (s.active == old(s.active) || s.active.None?) && (s.finished || forall p | p in failed :: !Way(p, world))
    ensures multiset(again) == multiset(failed) && Ranked(Infos(again))
    ensures Carried(old(s.acts), s.acts, Retries(again, world), ok, s.finished)
  {
    var f := ToArray(failed);
    RankProbes(f);
    again := f[..];
    NothingButRetries(again, world);
    ok := ActivateRanked(s, f, world);
  }

  /** `probeBatch`: all outcomes, ranked; when the context is over, closed. */
  method ProbeBatch(s: Sockets, jobs: seq<Candidate>, world: World, cancelled: bool) returns (a: array<Probe>)
    requires s.Valid() && DistinctOrders(jobs)
    modifies s`next, s`pending, s`closed
    ensures s.Valid() && fresh(a) && a.Length == |jobs| && old(s.closed) <= s.closed && old(s.next) <= s.next
    ensures s.pending == old(s.pending) + Opens(a[..]) && forall w | w in Opens(a[..]) :: old(s.next) <= w
    ensures Held(s, a[..]) && Opens(a[..]) !! old(s.pending)
    ensures if cancelled then Opens(a[..]) == {} else Ranked(Infos(a[..])) && Outcomes(a[..], jobs, world.probes)
    ensures !cancelled ==> DistinctOrders(Infos(a[..]))
  {
    var results := StreamProbes(s, jobs, world.probes);
    a := ToArray(results);
    RankProbes(a);
    if cancelled {
      CloseProbes(s, a);
      NothingOpenIsApart(a[..]);
    } else {
      RankedOutcomes(results, a[..], jobs, world.probes);
    }
  }

  lemma RankedOutcomes(c: seq<Probe>, d: seq<Probe>, jobs: seq<Candidate>, probes: nat -> ProbeEnv)
    requires Outcomes(c, jobs, probes) && forall p :: p in c <==> p in d
    ensures Outcomes(d, jobs, probes)
  {
    forall j | j in jobs ensures HasOrder(Infos(d), j.order) {
      var i :| 0 <= i < |c| && Infos(c)[i].order == j.order;
      assert c[i] in d;
      var k :| 0 <= k < |d| && d[k] == c[i];
      assert Infos(d)[k].order == j.order;
    }
  }

  /** `connectAny`: the last known good path first, with the other paths probed
      meanwhile. Nothing it opened stays pending, and unless the client ends it
      succeeds if and only if some path it may use works. */
  method ConnectAny(s: Sockets, lastKnownGood: Option<Attempt>, jobs: seq<Candidate>, world: World, cancelled: bool)
    returns (ok: bool, ghost batch: seq<Probe>, ghost again: seq<Probe>)
    requires s.Valid() && DistinctOrders(jobs)
    modifies s
    ensures s.Valid() && s.pending == old(s.pending) && old(s.closed) <= s.closed
    ensures lastKnownGood.None? ==>
              && Outcomes(batch, jobs, world.probes) && multiset(again) == multiset(Failed(batch))
              && Carried(old(s.acts), s.acts, Tries(batch, world) + Retries(again, world), ok, s.finished)
              && (|s.acts| > |old(s.acts)| + |Tries(batch, world)| ==> Ranked(Infos(again)))
    ensures lastKnownGood.Some? ==>
              && (!cancelled ==> Outcomes(batch, jobs, world.probes) && Ranked(Infos(batch)))
              && Carried(old(s.acts), s.acts,
                         [Direct(lastKnownGood.value)] + if cancelled then [] else Plan(batch, world), ok, s.finished)
    ensures ok ==> s.active.Some? && old(s.next) <= s.active.value && AnyWay(lastKnownGood, jobs, world, cancelled)
    ensures !ok ==>
            (s.active == old(s.active) || s.active.None?) &&
            (s.finished || !AnyWay(lastKnownGood, jobs, world, cancelled))
  {
    if lastKnownGood.None? {
      ok, batch, again := ActivateFirst(s, jobs, world);
      return;
    }
    var a := ProbeBatch(s, jobs, world, cancelled);
    batch, again := a[..], [];
    ok := ActivateDirect(s, lastKnownGood.value);
    ghost var first, acts, finished := [Direct(lastKnownGood.value)], s.acts, s.finished;
    assert acts[|old(s.acts)|..] == first;
    assert Carried(old(s.acts), acts, first, ok, finished);
    if ok {
      CarriedEnough(old(s.acts), acts, first, if cancelled then [] else Plan(batch, world), finished);
      CloseProbes(s, a);
    } else if !cancelled {
      WaysOfOutcomes(a[..], jobs, world);
      ok := ActivateRanked(s, a, world);
      CarriedOn(old(s.acts), acts, s.acts, first, Plan(batch, world), ok, finished, s.finished);
    } else {
      assert first + [] == first;
    }
  }

  ghost predicate AnyWay(lastKnownGood: Option<Attempt>, jobs: seq<Candidate>, world: World, cancelled: bool) {
    || (lastKnownGood.Some? && Redials(lastKnownGood.value))
    || ((lastKnownGood.None? || !cancelled) && exists j | j in jobs :: JobWay(j, world))
  }

  /** The end of `runSwitchCycle`, with its deferred cleanup: the chosen candidate
      is handed over only if its source is still current; all others are closed. */
  method PromoteBest(s: Sockets, a: array<Probe>, choice: nat, r: Request, t: Attempt)
    returns (ok: bool, given: Option<Socket>)
    requires s.Valid() && Held(s, a[..]) && choice < a.Length
    modifies s`pending, s`closed, s`handed, s`active, s`finished, s`epoch, s`commits, s`acts, a
    ensures s.Valid() && s.pending == old(s.pending) - Opens(old(a[..])) && old(s.closed) <= s.closed
    ensures given.Some? <==>
            old(a[choice]).open.Some? && SourceIsCurrent(r, old(s.active), old(s.epoch), old(s.finished))
    ensures given.Some? ==> given == old(a[choice]).open
    ensures s.handed == old(s.handed) + if given.Some? then {given.value} else {}
    ensures ok <==> given.Some? && Works(t) && !s.finished
    ensures s.commits == old(s.commits) + if given.Some? && Fits(t) && !s.finished then 1 else 0
    ensures ok ==> s.active == given
    ensures s.acts == old(s.acts) + if given.Some? then [Act.Probed(t)] else []
    ensures given.None? ==> s.active == old(s.active) && s.finished == old(s.finished)
    ensures !ok ==> s.active == old(s.active) || s.active.None?
  {
    DropOne(a[..], choice);
    given := if SourceIsCurrent(r, s.active, s.epoch, s.finished) then a[choice].open else None;
    ok := ActivateCandidate(s, a, choice, r, t);
    CloseProbes(s, a);
  }

  /** The client's connection, epoch and end at one moment. */
  datatype Moment = Moment(active: Option<Socket>, epoch: nat, finished: bool)

  /** The probes of distinct paths are those of a well-formed cycle. */
  lemma BatchIsWellFormed(c: ProbeCycle, batch: seq<Probe>, jobs: seq<Candidate>, probes: nat -> ProbeEnv)
    requires WellFormed(c.(candidates := jobs)) && DistinctOrders(Infos(batch)) && Outcomes(batch, jobs, probes)
    ensures WellFormed(c.(candidates := Infos(batch)))
  {
    var seen := Infos(batch);
    forall i | 0 <= i < |seen| ensures IsOneOf(jobs, seen[i]) {
      assert batch[i] in batch;
    }
    forall i, j | 0 <= i < j < |seen| ensures seen[i].path != seen[j].path {
      var k :| 0 <= k < |jobs| && seen[i] == jobs[k].(ok := seen[i].ok, rtt := seen[i].rtt);
      var l :| 0 <= l < |jobs| && seen[j] == jobs[l].(ok := seen[j].ok, rtt := seen[j].rtt);
      assert seen[i].order != seen[j].order;
    }
  }

  /** `runSwitchCycle`. The statistics of the batch decide: what is promoted is the
      candidate the whole history calls for, and only if no other activation
      committed since the snapshot; `now` is the moment of that check. A path that is
      given up without a successor is dropped, and no socket is left behind. */
  method SwitchCycle(s: Sockets, jobs: seq<Candidate>, world: World, cancelled: bool, policy: Policy,
                     stats: map<nat, Stat>, c: ProbeCycle, ghost past: seq<ProbeCycle>)
    returns (ok: bool, given: Option<Socket>, stats': map<nat, Stat>, verdict: Verdict, ghost batch: seq<Probe>,
             ghost others: nat, ghost now: Moment)
    requires s.Valid() && DistinctOrders(jobs) && WellFormed(c.(candidates := jobs))
    requires policy.failThreshold > 0 && policy.successThreshold > 0 && Follows(stats, past)
    modifies s
    ensures s.Valid() && s.pending == old(s.pending) && old(s.closed) <= s.closed
    ensures old(s.active).None? || cancelled ==> stats' == stats && verdict.Stay? && given.None?
    ensures old(s.active).Some? && !cancelled ==>
              && Outcomes(batch, jobs, world.probes) && Ranked(Infos(batch))
              && Follows(stats', past + [c.(candidates := Infos(batch))])
              && Due(policy, past + [c.(candidates := Infos(batch))], verdict)
    ensures verdict.Promote? ==> verdict.candidate < |batch| && batch[verdict.candidate].open.Some?
    ensures given.Some? <==>
            verdict.Promote? && !now.finished &&
            (now.active == old(s.active) ||
             (verdict.allowDropped && now.active.None? && now.epoch == old(s.epoch)))
    ensures given.Some? ==> given == batch[verdict.candidate].open && others == 0 && !old(s.finished)
    ensures given.Some? ==> old(s.next) <= given.value
    ensures s.acts == old(s.acts) + if given.Some? then [Act.Probed(world.tries(batch[verdict.candidate].info.order))]
                                    else []
    ensures ok <==> given.Some? && Works(world.tries(batch[verdict.candidate].info.order)) && !s.finished
    ensures s.commits == old(s.commits) + others + if given.Some? && !s.finished &&
                                             Fits(world.tries(batch[verdict.candidate].info.order)) then 1 else 0
    ensures !ok && others == 0 ==> s.active == old(s.active) || s.active.None?
    ensures ok ==> s.active == given
    ensures given.None? && old(s.active).Some? && !cancelled ==>
            s.active == if verdict.DropActive? && now.active == old(s.active) then None else now.active
    ensures s.handed == old(s.handed) + if given.Some? then {given.value} else {}
    ensures others == 0 <==> now.epoch == old(s.epoch)
    ensures others == 0 ==> now.active == old(s.active) || now.active.None?
  {
    ok, given, stats', verdict, batch, others := false, None, stats, Stay, [], 0;
    now := Moment(s.active, s.epoch, s.finished);
    if s.active.None? {
      return;
    }
    var active, epoch := s.active.value, s.epoch;
    var a;
    a, stats', verdict := Collect(s, jobs, world, cancelled, policy, stats, c, past);
    if cancelled {
      return;
    }
    batch := a[..];
    s.Meanwhile();
    others := s.commits - old(s.commits);
    now := Moment(s.active, s.epoch, s.finished);
    ok, given := Conclude(s, a, verdict, active, epoch, world);
  }

  /** What the verdict of a cycle leads to. */
  method Conclude(s: Sockets, a: array<Probe>, verdict: Verdict, active: Socket, epoch: nat, world: World)
    returns (ok: bool, given: Option<Socket>)
    requires s.Valid() && Held(s, a[..]) && (s.active == Some(active) || active in s.closed)
    requires verdict.Promote? ==> verdict.candidate < a.Length && a[verdict.candidate].open.Some?
    modifies s`pending, s`closed, s`handed, s`active, s`finished, s`epoch, s`commits, s`acts, a
    ensures s.Valid() && s.pending == old(s.pending) - Opens(old(a[..])) && old(s.closed) <= s.closed
    ensures given.Some? <==>
            verdict.Promote? && !old(s.finished) &&
            (old(s.active) == Some(active) ||
             (verdict.allowDropped && old(s.active).None? && old(s.epoch) == epoch))
    ensures given.Some? ==> given == old(a[verdict.candidate]).open
    ensures s.acts == old(s.acts) + if given.Some? then [Act.Probed(world.tries(old(a[verdict.candidate]).info.order))]
                                    else []
    ensures ok <==> given.Some? && Works(world.tries(old(a[verdict.candidate]).info.order)) && !s.finished
    ensures s.commits == old(s.commits) + if given.Some? && !s.finished &&
                                             Fits(world.tries(old(a[verdict.candidate]).info.order)) then 1 else 0
    ensures !ok ==> s.active == old(s.active) || s.active.None?
    ensures ok ==> s.active == given
    ensures given.None? ==>
            s.active == if verdict.DropActive? && old(s.active) == Some(active) then None else old(s.active)
    ensures s.handed == old(s.handed) + if given.Some? then {given.value} else {}
  {
    ok, given := false, None;
    match verdict
    case Stay => CloseProbes(s, a);
    case DropActive =>
      s.Drop(active);
      CloseProbes(s, a);
    case Promote(b, dropped) =>
      ok, given := PromoteBest(s, a, b, Request(Some(active), epoch, dropped), world.tries(a[b].info.order));
  }

  /** The probes of a cycle, and what it makes of them. */
  method Collect(s: Sockets, jobs: seq<Candidate>, world: World, cancelled: bool, policy: Policy, stats: map<nat, Stat>,
                 c: ProbeCycle, ghost past: seq<ProbeCycle>)
    returns (a: array<Probe>, stats': map<nat, Stat>, verdict: Verdict)
    requires s.Valid() && DistinctOrders(jobs) && WellFormed(c.(candidates := jobs))
    requires policy.failThreshold > 0 && policy.successThreshold > 0 && Follows(stats, past)
    modifies s`next, s`pending, s`closed
    ensures s.Valid() && fresh(a) && old(s.closed) <= s.closed && old(s.next) <= s.next && Held(s, a[..])
    ensures s.pending == old(s.pending) + Opens(a[..]) && Opens(a[..]) !! old(s.pending)
    ensures cancelled ==> Opens(a[..]) == {} && stats' == stats && verdict.Stay?
    ensures !cancelled ==>
              && Outcomes(a[..], jobs, world.probes) && Ranked(Infos(a[..]))
              && Follows(stats', past + [c.(candidates := Infos(a[..]))])
              && Due(policy, past + [c.(candidates := Infos(a[..]))], verdict)
    ensures verdict.Promote? ==>
              && verdict.candidate < a.Length && a[verdict.candidate].open.Some?
              && old(s.next) <= a[verdict.candidate].open.value
  {
    a := ProbeBatch(s, jobs, world, cancelled);
    stats', verdict := stats, Stay;
    if !cancelled {
      BatchIsWellFormed(c, a[..], jobs, world.probes);
      stats', verdict := Decide(policy, stats, c.(candidates := Infos(a[..])), past);
      assert verdict.Promote? ==> a[verdict.candidate] in a[..] && Own(a[verdict.candidate]) <= Opens(a[..]);
    }
  }

  /** The statistics and the decision of a cycle. */
  method Decide(policy: Policy, stats: map<nat, Stat>, c: ProbeCycle, ghost past: seq<ProbeCycle>)
    returns (stats': map<nat, Stat>, verdict: Verdict)
    requires policy.failThreshold > 0 && policy.successThreshold > 0 && Follows(stats, past) && WellFormed(c)
    ensures Follows(stats', past + [c]) && Due(policy, past + [c], verdict)
    ensures verdict.Promote? ==> verdict.candidate < |c.candidates| && c.candidates[verdict.candidate].ok
  {
    var best;
    stats', best := RecordCycle(stats, c, policy.successThreshold, past);
    VerdictFollowsHistory(policy, past + [c], stats', best);
    verdict := CycleVerdict(policy, c.since, c.activePriority, Lookup(stats', c.active), c.healthy, c.candidates, best);
  }
}
