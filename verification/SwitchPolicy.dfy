/** Path selection: ranking, hysteresis counters, and the latency decision. */
module SwitchPolicy {
  import opened Wire

  /** A probe outcome of one path; `order` is its place in the configuration. */
  datatype Candidate = Candidate(path: nat, priority: int, rtt: int, ok: bool, order: nat)

  /** The comparator of `rankProbeCandidates`. */
  predicate Before(l: Candidate, r: Candidate) {
    if l.ok != r.ok then l.ok
    else if l.ok && l.rtt != r.rtt then l.rtt < r.rtt
    else if l.priority != r.priority then l.priority > r.priority
    else l.order < r.order
  }

  /** Among candidates with distinct places the comparator is a strict total
      order, so a batch has one ranking, whatever order its probes finished in. */
  lemma BeforeIsStrictOrder(a: Candidate, b: Candidate, c: Candidate)
    ensures !Before(a, a)
    ensures Before(a, b) ==> !Before(b, a)
    ensures Before(a, b) && Before(b, c) ==> Before(a, c)
    ensures a.order != b.order ==> Before(a, b) || Before(b, a)
  {
  }

  ghost predicate Ranked(s: seq<Candidate>) {
    forall i, j | 0 <= i < j < |s| :: Before(s[i], s[j])
  }

  /** What a ranking means: answered paths first, by RTT, then by priority, then by
      place; the others behind them by priority, then by place. */
  lemma RankedMeans(s: seq<Candidate>, i: nat, j: nat)
    requires Ranked(s) && i < j < |s|
    ensures s[j].ok ==> s[i].ok
    ensures s[i].ok && s[j].ok ==> s[i].rtt <= s[j].rtt
    ensures s[i].ok == s[j].ok && (s[i].ok ==> s[i].rtt == s[j].rtt) ==>
              s[i].priority > s[j].priority || (s[i].priority == s[j].priority && s[i].order < s[j].order)
  {
    assert Before(s[i], s[j]);
  }

  lemma {:induction false} RankingIsUnique(s: seq<Candidate>, t: seq<Candidate>)
    requires Ranked(s) && Ranked(t) && multiset(s) == multiset(t)
    ensures s == t
    decreases |s|
  {
    assert |multiset(s)| == |s| && |multiset(t)| == |t|;
    if s != [] {
      assert s[0] in multiset(t) && t[0] in multiset(s);
      SameFirst(s, t);
      RestOf(s);
      RestOf(t);
      RankingIsUnique(s[1..], t[1..]);
    }
  }

  lemma RestOf(s: seq<Candidate>)
    requires s != []
    ensures multiset(s[1..]) == multiset(s) - multiset{s[0]} && s == [s[0]] + s[1..]
  {
    assert s == [s[0]] + s[1..];
  }

  lemma SameFirst(s: seq<Candidate>, t: seq<Candidate>)
    requires Ranked(s) && Ranked(t) && s != [] && t != [] && s[0] in t && t[0] in s
    ensures s[0] == t[0]
  {
    BeforeIsStrictOrder(s[0], t[0], s[0]);
  }

  // ---- hysteresis ----

  datatype Stat = Stat(success: nat, fail: nat, rtt: int)

  /** How a path's counters take one more outcome. */
  function Record(s: Stat, ok: bool, rtt: int): Stat {
    if ok then Stat(s.success + 1, 0, rtt) else Stat(0, s.fail + 1, s.rtt)
  }

  function RecordAll(outcomes: seq<(bool, int)>): Stat {
    if outcomes == [] then Stat(0, 0, 0)
    else Record(RecordAll(outcomes[..|outcomes| - 1]), outcomes[|outcomes| - 1].0, outcomes[|outcomes| - 1].1)
  }

  /** The counters are the lengths of the runs at the end of the history: the last
      `success` outcomes succeeded and the one before them did not, and likewise
      for failures; the stored RTT is that of the last success. */
  lemma {:induction false} CountersAreRuns(h: seq<(bool, int)>)
    ensures var s := RecordAll(h);
            && s.success + s.fail <= |h| && (s.success == 0 || s.fail == 0) && (h != [] ==> s.success + s.fail > 0)
            && (forall k | |h| - s.success <= k < |h| :: h[k].0)
            && (forall k | |h| - s.fail <= k < |h| :: !h[k].0)
            && (0 < s.success < |h| ==> !h[|h| - s.success - 1].0)
            && (0 < s.fail < |h| ==> h[|h| - s.fail - 1].0)
            && (s.success > 0 ==> s.rtt == h[|h| - 1].1)
    decreases |h|
  {
    if h != [] {
      var before := h[..|h| - 1];
      CountersAreRuns(before);
      assert forall k | 0 <= k < |before| :: h[k] == before[k];
    }
  }

  /** The first candidate that succeeded and has reached the threshold, if there is one. */
  ghost predicate Chosen(stats: map<nat, Stat>, candidates: seq<Candidate>, threshold: nat, best: Option<nat>) {
    match best
    case Some(b) =>
      && b < |candidates| && Eligible(stats, candidates[b], threshold)
      && forall i | 0 <= i < b :: !Eligible(stats, candidates[i], threshold)
    case None => forall i | 0 <= i < |candidates| :: !Eligible(stats, candidates[i], threshold)
  }

  /** `updateCandidateStats`: every outcome is recorded once under its path, and
      the first successful candidate that has reached the threshold is chosen. */
  method UpdateCandidateStats(stats: map<nat, Stat>, candidates: seq<Candidate>, threshold: nat)
    returns (stats': map<nat, Stat>, best: Option<nat>)
    requires forall i, j | 0 <= i < j < |candidates| :: candidates[i].path != candidates[j].path
    ensures forall i | 0 <= i < |candidates| ::
              candidates[i].path in stats' &&
              stats'[candidates[i].path] == Record(Lookup(stats, candidates[i].path), candidates[i].ok,
                                                   candidates[i].rtt)
    ensures forall p | (forall i | 0 <= i < |candidates| :: candidates[i].path != p) ::
            Lookup(stats', p) == Lookup(stats, p)
    ensures Chosen(stats', candidates, threshold, best)
  {
    stats', best := stats, None;
    for i := 0 to |candidates|
      invariant forall k | 0 <= k < i ::
                  candidates[k].path in stats' &&
                  stats'[candidates[k].path] == Record(Lookup(stats, candidates[k].path), candidates[k].ok,
                                                       candidates[k].rtt)
      invariant forall p | (forall k | 0 <= k < i :: candidates[k].path != p) :: Lookup(stats', p) == Lookup(stats, p)
      invariant best.Some? ==> best.value < i && Eligible(stats', candidates[best.value], threshold)
                               && forall k | 0 <= k < best.value :: !Eligible(stats', candidates[k], threshold)
      invariant best.None? ==> forall k | 0 <= k < i :: !Eligible(stats', candidates[k], threshold)
    {
      var c := candidates[i];
      var stat := Lookup(stats', c.path);
      if !c.ok {
        stats' := stats'[c.path := Stat(0, stat.fail + 1, stat.rtt)];
      } else {
        stat := Stat(stat.success + 1, 0, c.rtt);
        stats' := stats'[c.path := stat];
        if best.None? && stat.success >= threshold {
          best := Some(i);
        }
      }
    }
  }

  function Lookup(stats: map<nat, Stat>, p: nat): Stat {
    if p in stats then stats[p] else Stat(0, 0, 0)
  }

  predicate Eligible(stats: map<nat, Stat>, c: Candidate, threshold: nat) {
    c.ok && Lookup(stats, c.path).success >= threshold
  }

  // ---- the latency decision ----

  datatype Policy = Policy(minDelta: int, ratio: real, cooldown: int, failThreshold: nat, successThreshold: nat)

  /** `shouldLatencySwitch`; `since` is the time since the last switch. */
  predicate ShouldSwitch(policy: Policy, since: int, activePriority: int, activeRtt: int, priority: int, rtt: int) {
    if since < policy.cooldown then false
    else if activeRtt <= 0 then priority > activePriority
    else
      var delta := activeRtt - rtt;
      if delta >= policy.minDelta && delta as real / activeRtt as real >= policy.ratio then true
      else (if delta < 0 then -delta else delta) <= policy.minDelta && priority > activePriority
  }

  datatype Verdict = Stay | DropActive | Promote(candidate: nat, allowDropped: bool)

  /** What `runSwitchCycle` does once heartbeat and probes are in. */
  function CycleVerdict(policy: Policy, since: int, activePriority: int, active: Stat, healthy: bool,
                        candidates: seq<Candidate>, best: Option<nat>): Verdict
    requires best.Some? ==> best.value < |candidates|
  {
    var failed := active.fail >= policy.failThreshold;
    if best.None? then (if failed then DropActive else Stay)
    else
      var c := candidates[best.value];
      if !failed && (!healthy || !ShouldSwitch(policy, since, activePriority, active.rtt, c.priority, c.rtt)) then Stay
      else Promote(best.value, failed)
  }

  // ---- the loop over many cycles ----

  /** What one run of `runSwitchCycle` that gets its probes is given: the active
      path, the time since the last switch, the heartbeat, and the other paths' probes. */
  datatype ProbeCycle = ProbeCycle(active: nat, activePriority: int, since: int, healthy: bool, rtt: int,
                                   candidates: seq<Candidate>)

  /** Path names are unique, and the active path is not probed. */
  ghost predicate WellFormed(c: ProbeCycle) {
    && (forall i, j | 0 <= i < j < |c.candidates| :: c.candidates[i].path != c.candidates[j].path)
    && (forall i | 0 <= i < |c.candidates| :: c.candidates[i].path != c.active)
  }

  /** The outcomes of one path in a batch of probes. */
  function SeenIn(candidates: seq<Candidate>, p: nat): seq<(bool, int)> {
    if candidates == [] then []
    else
      var last := candidates[|candidates| - 1];
      SeenIn(candidates[..|candidates| - 1], p) + if last.path == p then [(last.ok, last.rtt)] else []
  }

  /** All outcomes of one path, heartbeats and probes, in the order of the cycles. */
  function History(cycles: seq<ProbeCycle>, p: nat): seq<(bool, int)> {
    if cycles == [] then []
    else
      var last := cycles[|cycles| - 1];
      History(cycles[..|cycles| - 1], p) + if p == last.active then [(last.healthy, last.rtt)]
          else SeenIn(last.candidates, p)
  }

  lemma {:induction false} SeenOnce(candidates: seq<Candidate>, p: nat)
    requires forall i, j | 0 <= i < j < |candidates| :: candidates[i].path != candidates[j].path
    ensures forall i | 0 <= i < |candidates| && candidates[i].path == p ::
            SeenIn(candidates, p) == [(candidates[i].ok, candidates[i].rtt)]
    ensures (forall i | 0 <= i < |candidates| :: candidates[i].path != p) ==> SeenIn(candidates, p) == []
  {
    if candidates != [] {
      SeenOnce(candidates[..|candidates| - 1], p);
    }
  }

  /** The counters of every path are those of its whole history. */
  ghost predicate Follows(stats: map<nat, Stat>, cycles: seq<ProbeCycle>) {
    forall p: nat :: Lookup(stats, p) == RecordAll(History(cycles, p))
  }

  lemma RecordMore(h: seq<(bool, int)>, ok: bool, rtt: int)
    ensures RecordAll(h + [(ok, rtt)]) == Record(RecordAll(h), ok, rtt)
  {
    assert (h + [(ok, rtt)])[..|h|] == h;
  }

  /** The statistics part of `runSwitchCycle`: the heartbeat goes to the active
      path, the probes to theirs, in one map keyed by path name. */
  method RecordCycle(stats: map<nat, Stat>, c: ProbeCycle, threshold: nat, ghost past: seq<ProbeCycle>)
    returns (stats': map<nat, Stat>, best: Option<nat>)
    requires WellFormed(c) && Follows(stats, past)
    ensures Follows(stats', past + [c])
    ensures Chosen(stats', c.candidates, threshold, best)
  {
    var stat := Lookup(stats, c.active);
    if !c.healthy {
      stat := Stat(0, stat.fail + 1, stat.rtt);
    } else {
      stat := Stat(stat.success + 1, 0, c.rtt);
    }
    stats', best := UpdateCandidateStats(stats[c.active := stat], c.candidates, threshold);
    assert forall i | 0 <= i < |c.candidates| ::
           Lookup(stats[c.active := stat], c.candidates[i].path) == Lookup(stats, c.candidates[i].path);
    RecordedFollows(stats, past, c, stats');
  }

  /** How one cycle changes the counters, path by path. */
  ghost predicate Recorded(stats: map<nat, Stat>, c: ProbeCycle, stats': map<nat, Stat>) {
    && Lookup(stats', c.active) == Record(Lookup(stats, c.active), c.healthy, c.rtt)
    && (forall i | 0 <= i < |c.candidates| ::
          Lookup(stats', c.candidates[i].path)
              == Record(Lookup(stats, c.candidates[i].path), c.candidates[i].ok, c.candidates[i].rtt))
    && (forall p: nat | p != c.active && !IsProbed(c, p) :: Lookup(stats', p) == Lookup(stats, p))
  }

  ghost predicate IsProbed(c: ProbeCycle, p: nat) {
    exists i :: 0 <= i < |c.candidates| && c.candidates[i].path == p
  }

  lemma RecordedFollows(stats: map<nat, Stat>, past: seq<ProbeCycle>, c: ProbeCycle, stats': map<nat, Stat>)
    requires WellFormed(c) && Follows(stats, past) && Recorded(stats, c, stats')
    ensures Follows(stats', past + [c])
  {
    forall p: nat ensures Lookup(stats', p) == RecordAll(History(past + [c], p)) {
      OneMoreCycle(past, c, p);
      assert Lookup(stats, p) == RecordAll(History(past, p));
    }
  }

  /** What one more cycle adds to the counters of one path. */
  lemma OneMoreCycle(past: seq<ProbeCycle>, c: ProbeCycle, p: nat)
    requires WellFormed(c)
    ensures var before, after := RecordAll(History(past, p)), RecordAll(History(past + [c], p));
            && (p == c.active ==> after == Record(before, c.healthy, c.rtt))
            && (forall i | 0 <= i < |c.candidates| && c.candidates[i].path == p ::
                  after == Record(before, c.candidates[i].ok, c.candidates[i].rtt))
            && (p != c.active && (forall i | 0 <= i < |c.candidates| :: c.candidates[i].path != p) ==> after == before)
  {
    assert (past + [c])[..|past|] == past;
    var h := History(past, p);
    SeenOnce(c.candidates, p);
    if p == c.active {
      RecordMore(h, c.healthy, c.rtt);
    } else if i :| 0 <= i < |c.candidates| && c.candidates[i].path == p {
      RecordMore(h, c.candidates[i].ok, c.candidates[i].rtt);
    } else {
      assert h + [] == h;
    }
  }

  /** The last `k` outcomes all went one way. */
  ghost predicate LastAll(h: seq<(bool, int)>, k: nat, ok: bool) {
    k <= |h| && forall i | |h| - k <= i < |h| :: h[i].0 == ok
  }

  lemma CountersMeetThreshold(h: seq<(bool, int)>, k: nat)
    requires k > 0
    ensures RecordAll(h).success >= k <==> LastAll(h, k, true)
    ensures RecordAll(h).fail >= k <==> LastAll(h, k, false)
  {
    CountersAreRuns(h);
  }

  /** The active path's last `failThreshold` outcomes were failures. */
  ghost predicate Gone(policy: Policy, cycles: seq<ProbeCycle>)
    requires cycles != []
  {
    LastAll(History(cycles, cycles[|cycles| - 1].active), policy.failThreshold, false)
  }

  /** The candidate's last `successThreshold` outcomes, this one included, were successes. */
  ghost predicate Steady(policy: Policy, cycles: seq<ProbeCycle>, c: Candidate) {
    c.ok && LastAll(History(cycles, c.path), policy.successThreshold, true)
  }

  /** Faster by both thresholds, or preferred and no further than `minDelta` away;
      without a measured RTT only the preference counts. */
  predicate FasterOrPreferred(policy: Policy, activePriority: int, activeRtt: int, c: Candidate) {
    var gain := activeRtt - c.rtt;
    || (activeRtt > 0 && gain >= policy.minDelta && gain as real >= policy.ratio * activeRtt as real)
    || (c.priority > activePriority && (activeRtt <= 0 || -policy.minDelta <= gain <= policy.minDelta))
  }

  ghost predicate NoneSteady(policy: Policy, cycles: seq<ProbeCycle>, candidates: seq<Candidate>) {
    forall i | 0 <= i < |candidates| :: !Steady(policy, cycles, candidates[i])
  }

  ghost predicate FirstSteady(policy: Policy, cycles: seq<ProbeCycle>, candidates: seq<Candidate>, b: nat) {
    b < |candidates| && Steady(policy, cycles, candidates[b]) && forall i | 0 <= i < b ::
        !Steady(policy, cycles, candidates[i])
  }

  /** A switch to this candidate pays, with the active path alive. */
  predicate WorthIt(policy: Policy, c: ProbeCycle, candidate: Candidate) {
    c.healthy && c.since >= policy.cooldown && FasterOrPreferred(policy, c.activePriority, c.rtt, candidate)
  }

  /** What a history calls for after its last cycle. */
  ghost predicate Due(policy: Policy, cycles: seq<ProbeCycle>, v: Verdict)
    requires cycles != []
  {
    var last := cycles[|cycles| - 1];
    match v
    case DropActive => Gone(policy, cycles) && NoneSteady(policy, cycles, last.candidates)
    case Promote(b, dropped) =>
      && FirstSteady(policy, cycles, last.candidates, b)
      && dropped == Gone(policy, cycles) && (Gone(policy, cycles) || WorthIt(policy, last, last.candidates[b]))
    case Stay =>
      && !Gone(policy, cycles)
      && forall b: nat | FirstSteady(policy, cycles, last.candidates, b) :: !WorthIt(policy, last, last.candidates[b])
  }

  lemma LatencyRule(policy: Policy, since: int, activePriority: int, activeRtt: int, c: Candidate)
    ensures ShouldSwitch(policy, since, activePriority, activeRtt, c.priority, c.rtt)
            <==> since >= policy.cooldown && FasterOrPreferred(policy, activePriority, activeRtt, c)
  {
    if activeRtt > 0 {
      var gain := activeRtt - c.rtt;
      assert gain as real / activeRtt as real * activeRtt as real == gain as real;
    }
  }

  lemma ChosenIsFirstSteady(policy: Policy, cycles: seq<ProbeCycle>, stats: map<nat, Stat>, candidates: seq<Candidate>,
                            best: Option<nat>)
    requires policy.successThreshold > 0 && Follows(stats, cycles)
             && Chosen(stats, candidates, policy.successThreshold, best)
    ensures if best.Some? then FirstSteady(policy, cycles, candidates, best.value)
            else NoneSteady(policy, cycles, candidates)
  {
    forall i | 0 <= i < |candidates|
      ensures Eligible(stats, candidates[i], policy.successThreshold) <==> Steady(policy, cycles, candidates[i])
    {
      CountersMeetThreshold(History(cycles, candidates[i].path), policy.successThreshold);
    }
  }

  /** The counters of the active path after its heartbeat. */
  lemma ActiveFollows(policy: Policy, cycles: seq<ProbeCycle>, stats: map<nat, Stat>)
    requires policy.failThreshold > 0 && cycles != [] && WellFormed(cycles[|cycles| - 1]) && Follows(stats, cycles)
    ensures var last := cycles[|cycles| - 1];
            && (Lookup(stats, last.active).fail >= policy.failThreshold <==> Gone(policy, cycles))
            && (last.healthy ==> Lookup(stats, last.active).rtt == last.rtt)
  {
    var last := cycles[|cycles| - 1];
    CountersMeetThreshold(History(cycles, last.active), policy.failThreshold);
    assert cycles == cycles[..|cycles| - 1] + [last];
    OneMoreCycle(cycles[..|cycles| - 1], last, last.active);
  }

  lemma FirstSteadyIsUnique(policy: Policy, cycles: seq<ProbeCycle>, candidates: seq<Candidate>, a: nat, b: nat)
    requires FirstSteady(policy, cycles, candidates, a) && FirstSteady(policy, cycles, candidates, b)
    ensures a == b
  {
  }

  /** The verdict of a cycle is the one that the whole history so far calls for. */
  lemma VerdictFollowsHistory(policy: Policy, cycles: seq<ProbeCycle>, stats: map<nat, Stat>, best: Option<nat>)
    requires policy.failThreshold > 0 && policy.successThreshold > 0
    requires cycles != [] && WellFormed(cycles[|cycles| - 1]) && Follows(stats, cycles)
    requires Chosen(stats, cycles[|cycles| - 1].candidates, policy.successThreshold, best)
    ensures var c := cycles[|cycles| - 1];
            Due(policy, cycles, CycleVerdict(policy, c.since, c.activePriority, Lookup(stats, c.active), c.healthy,
                                             c.candidates, best))
  {
    var c := cycles[|cycles| - 1];
    ChosenIsFirstSteady(policy, cycles, stats, c.candidates, best);
    ActiveFollows(policy, cycles, stats);
    if best.Some? {
      LatencyRule(policy, c.since, c.activePriority, Lookup(stats, c.active).rtt, c.candidates[best.value]);
      forall b: nat | FirstSteady(policy, cycles, c.candidates, b) ensures b == best.value {
        FirstSteadyIsUnique(policy, cycles, c.candidates, b, best.value);
      }
    }
  }

  /** `switchLoop` over any sequence of cycles, from empty statistics: every
      verdict is the one its history calls for. */
  method SwitchLoop(policy: Policy, cycles: seq<ProbeCycle>) returns (verdicts: seq<Verdict>)
    requires policy.failThreshold > 0 && policy.successThreshold > 0
    requires forall i | 0 <= i < |cycles| :: WellFormed(cycles[i])
    ensures |verdicts| == |cycles|
    ensures forall i | 0 <= i < |cycles| :: Due(policy, cycles[..i + 1], verdicts[i])
  {
    verdicts := [];
    var stats: map<nat, Stat> := map[];
    for i := 0 to |cycles|
      invariant |verdicts| == i && Follows(stats, cycles[..i])
      invariant forall k | 0 <= k < i :: Due(policy, cycles[..k + 1], verdicts[k])
    {
      var c := cycles[i];
      assert cycles[..i + 1] == cycles[..i] + [c];
      var best;
      stats, best := RecordCycle(stats, c, policy.successThreshold, cycles[..i]);
      VerdictFollowsHistory(policy, cycles[..i + 1], stats, best);
      verdicts := verdicts + [CycleVerdict(policy, c.since, c.activePriority, Lookup(stats, c.active), c.healthy,
                                           c.candidates, best)];
    }
  }

  /** A history calls for exactly one verdict. */
  lemma OneVerdictIsDue(policy: Policy, cycles: seq<ProbeCycle>, v: Verdict, w: Verdict)
    requires cycles != [] && Due(policy, cycles, v) && Due(policy, cycles, w)
    ensures v == w
  {
    if v.Promote? && w.Promote? {
      FirstSteadyIsUnique(policy, cycles, cycles[|cycles| - 1].candidates, v.candidate, w.candidate);
    }
  }
}
