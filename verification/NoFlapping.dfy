/** With fixed round-trip times and the cooldown elapsed, latency switching
    settles after at most two switches, except in the cases `Critical` describes. */
module NoFlapping {
  import opened SwitchPolicy
  import opened Wire

  /** A path with its constant RTT; its place in the sequence is its declaration order. */
  datatype Path = Path(rtt: int, priority: int)

  function Probed(paths: seq<Path>, i: nat): Candidate
    requires i < |paths|
  {
    Candidate(i, paths[i].priority, paths[i].rtt, true, i)
  }

  predicate Better(paths: seq<Path>, i: nat, j: nat)
    requires i < |paths| && j < |paths|
  {
    Before(Probed(paths, i), Probed(paths, j))
  }

  /** The best-ranked among the first `k` paths, leaving out `skip`. */
  function BestOf(paths: seq<Path>, skip: int, k: nat): Option<nat>
    requires k <= |paths|
  {
    if k == 0 then None
    else
      var b := BestOf(paths, skip, k - 1);
      if k - 1 == skip then b
      else if b.Some? && b.value < |paths| && Better(paths, b.value, k - 1) then b
      else Some(k - 1)
  }

  lemma {:induction false} BestOfIsBest(paths: seq<Path>, skip: int, k: nat)
    requires k <= |paths|
    ensures var b := BestOf(paths, skip, k);
            && (b.None? <==> k == 0 || (k == 1 && skip == 0))
            && (b.Some? ==> b.value < k && b.value != skip
                            && forall j | 0 <= j < k && j != skip && j != b.value :: Better(paths, b.value, j))
  {
    if k > 0 {
      BestOfIsBest(paths, skip, k - 1);
      var b := BestOf(paths, skip, k - 1);
      if k - 1 != skip && b.Some? {
        var last := k - 1;
        BetterIsOrder(paths, b.value, last, b.value);
        if !Better(paths, b.value, last) {
          forall j | 0 <= j < last && j != skip && j != b.value ensures Better(paths, last, j) {
            assert Better(paths, b.value, j);
            BetterIsOrder(paths, last, b.value, j);
          }
        }
      }
    }
  }

  lemma BetterIsOrder(paths: seq<Path>, i: nat, j: nat, k: nat)
    requires i < |paths| && j < |paths| && k < |paths|
    ensures Better(paths, i, j) ==> !Better(paths, j, i)
    ensures Better(paths, i, j) && Better(paths, j, k) ==> Better(paths, i, k)
    ensures i != j ==> Better(paths, i, j) || Better(paths, j, i)
  {
    BeforeIsStrictOrder(Probed(paths, i), Probed(paths, j), Probed(paths, k));
  }

  /** What the validation of a configuration leaves, and what a clock can measure. */
  ghost predicate Sound(policy: Policy, paths: seq<Path>) {
    policy.minDelta >= 0 && policy.ratio >= 0.0 && paths != [] && forall i | 0 <= i < |paths| :: paths[i].rtt >= 0
  }

  predicate Leaves(policy: Policy, paths: seq<Path>, a: nat, b: nat)
    requires a < |paths| && b < |paths|
  {
    ShouldSwitch(policy, policy.cooldown, paths[a].priority, paths[a].rtt, paths[b].priority, paths[b].rtt)
  }

  /** One switch cycle on path `a`: every other path is probed, the best-ranked one
      is the candidate. */
  function Next(policy: Policy, paths: seq<Path>, a: nat): (r: nat)
    requires a < |paths|
    ensures r < |paths|
  {
    BestOfIsBest(paths, a, |paths|);
    match BestOf(paths, a, |paths|)
    case None => a
    case Some(b) => if Leaves(policy, paths, a, b) then b else a
  }

  function After(policy: Policy, paths: seq<Path>, a: nat, n: nat): (r: nat)
    requires a < |paths|
    ensures r < |paths|
  {
    if n == 0 then a else Next(policy, paths, After(policy, paths, a, n - 1))
  }

  /** The best-ranked path, and the runner-up if there is one. */
  function Top(paths: seq<Path>): (m: nat)
    requires paths != []
    ensures m < |paths|
  {
    BestOfIsBest(paths, -1, |paths|);
    BestOf(paths, -1, |paths|).value
  }

  function RunnerUp(paths: seq<Path>): Option<nat>
    requires paths != []
  {
    BestOf(paths, Top(paths), |paths|)
  }

  /** The best path and the runner-up pass the test against each other. In
      general: the runner-up is exactly `minDelta` slower, has the higher priority,
      and the difference also meets the ratio. Without any threshold, equal RTTs
      suffice. A best path that measured zero is left for any higher priority, and
      returned to if the runner-up's whole RTT meets the thresholds. */
  predicate Critical(policy: Policy, paths: seq<Path>)
    requires paths != []
  {
    var m := Top(paths);
    match RunnerUp(paths)
    case None => false
    case Some(u) =>
      u < |paths| &&
      var gap := paths[u].rtt - paths[m].rtt;
      if paths[m].rtt == 0 then
        paths[u].priority > paths[m].priority && gap >= policy.minDelta && policy.ratio <= 1.0
      else
        && gap == policy.minDelta
        && (gap > 0 ==> paths[u].priority > paths[m].priority)
        && gap as real >= policy.ratio * paths[u].rtt as real
  }

  lemma TopIsBest(paths: seq<Path>)
    requires paths != []
    ensures forall j | 0 <= j < |paths| && j != Top(paths) :: Better(paths, Top(paths), j)
  {
    BestOfIsBest(paths, -1, |paths|);
  }

  /** From any other path the candidate is always the best-ranked path. */
  lemma CandidateIsTop(paths: seq<Path>, a: nat)
    requires a < |paths| && a != Top(paths)
    ensures BestOf(paths, a, |paths|) == Some(Top(paths))
  {
    TopIsBest(paths);
    BestOfIsBest(paths, a, |paths|);
    var b := BestOf(paths, a, |paths|);
    var m := Top(paths);
    if b.Some? && b.value != m {
      BetterIsOrder(paths, m, b.value, m);
    }
  }

  lemma MeetsRatio(gap: int, rtt: int, ratio: real)
    requires rtt > 0
    ensures gap as real / rtt as real >= ratio <==> gap as real >= ratio * rtt as real
  {
    assert gap as real / rtt as real * rtt as real == gap as real;
  }

  lemma RunnerUpIsBehind(paths: seq<Path>, u: nat)
    requires paths != [] && RunnerUp(paths) == Some(u)
    ensures u < |paths| && u != Top(paths) && paths[Top(paths)].rtt <= paths[u].rtt
    ensures paths[Top(paths)].rtt == paths[u].rtt ==> paths[Top(paths)].priority >= paths[u].priority
  {
    BestOfIsBest(paths, Top(paths), |paths|);
    TopIsBest(paths);
    assert Better(paths, Top(paths), u);
  }

  /** When the best path is left for the runner-up: for a higher priority at most
      `minDelta` behind, or at equal RTT if there is no threshold at all. */
  lemma LeavingTop(policy: Policy, paths: seq<Path>, u: nat)
    requires Sound(policy, paths) && RunnerUp(paths) == Some(u)
    ensures u < |paths| && u != Top(paths)
    ensures var m := Top(paths);
            var gap := paths[u].rtt - paths[m].rtt;
            Leaves(policy, paths, m, u)
            <==> if paths[m].rtt == 0 then paths[u].priority > paths[m].priority
                 else (gap == 0 && policy.minDelta == 0 && policy.ratio == 0.0)
                      || (gap <= policy.minDelta && paths[u].priority > paths[m].priority)
  {
    RunnerUpIsBehind(paths, u);
    var m := Top(paths);
    if paths[m].rtt > 0 {
      MeetsRatio(paths[m].rtt - paths[u].rtt, paths[m].rtt, policy.ratio);
    }
  }

  /** When the runner-up is left for the best path: for an RTT that is better by
      both thresholds. */
  lemma LeavingRunnerUp(policy: Policy, paths: seq<Path>, u: nat)
    requires Sound(policy, paths) && RunnerUp(paths) == Some(u)
    ensures u < |paths|
    ensures var m := Top(paths);
            var gap := paths[u].rtt - paths[m].rtt;
            paths[u].rtt > 0 && paths[u].priority >= paths[m].priority ==>
              (Leaves(policy, paths, u, m) <==>
               gap >= policy.minDelta && gap as real >= policy.ratio * paths[u].rtt as real)
  {
    RunnerUpIsBehind(paths, u);
    if paths[u].rtt > 0 {
      MeetsRatio(paths[u].rtt - paths[Top(paths)].rtt, paths[u].rtt, policy.ratio);
    }
  }

  /** The best path and a runner-up admit each other exactly in the critical case. */
  lemma MutualIsCritical(policy: Policy, paths: seq<Path>, u: nat)
    requires Sound(policy, paths) && RunnerUp(paths) == Some(u)
    ensures u < |paths| && (Leaves(policy, paths, Top(paths), u) && Leaves(policy, paths, u, Top(paths)) <==>
                            Critical(policy, paths))
  {
    RunnerUpIsBehind(paths, u);
    LeavingTop(policy, paths, u);
    LeavingRunnerUp(policy, paths, u);
  }

  ghost predicate Settled(policy: Policy, paths: seq<Path>, a: nat)
    requires a < |paths|
  {
    Next(policy, paths, a) == a
  }

  /** Outside the critical case, wherever it starts, the client makes at most two
      switches and then stays. */
  lemma AtMostTwoSwitches(policy: Policy, paths: seq<Path>, a: nat, n: nat)
    requires Sound(policy, paths) && a < |paths| && !Critical(policy, paths) && n >= 2
    ensures After(policy, paths, a, n) == After(policy, paths, a, 2)
            && Settled(policy, paths, After(policy, paths, a, 2))
  {
    var m := Top(paths);
    var a1, a2 := After(policy, paths, a, 1), After(policy, paths, a, 2);
    assert After(policy, paths, a, 0) == a;
    OneSwitch(policy, paths, a);
    if a != m && !Settled(policy, paths, a) {
      OneSwitch(policy, paths, m);
    }
    assert Settled(policy, paths, a2);
    StaysSettled(policy, paths, a, 2, n);
  }

  /** One cycle from any path: stay, or go to the best path; from the best path
      stay, or go to a runner-up from which there is no way back. */
  lemma OneSwitch(policy: Policy, paths: seq<Path>, a: nat)
    requires Sound(policy, paths) && a < |paths| && !Critical(policy, paths)
    ensures a != Top(paths) ==> Next(policy, paths, a) == a || Next(policy, paths, a) == Top(paths)
    ensures a == Top(paths) ==> Settled(policy, paths, Next(policy, paths, a))
  {
    var m := Top(paths);
    if a != m {
      CandidateIsTop(paths, a);
    } else {
      BestOfIsBest(paths, m, |paths|);
      var u := RunnerUp(paths);
      if u.Some? {
        MutualIsCritical(policy, paths, u.value);
        RunnerUpIsBehind(paths, u.value);
        CandidateIsTop(paths, u.value);
      }
    }
  }

  lemma {:induction false} StaysSettled(policy: Policy, paths: seq<Path>, a: nat, i: nat, n: nat)
    requires a < |paths| && i <= n && Settled(policy, paths, After(policy, paths, a, i))
    ensures After(policy, paths, a, n) == After(policy, paths, a, i)
    decreases n
  {
    if i < n {
      StaysSettled(policy, paths, a, i, n - 1);
    }
  }

  /** In the critical case the client flaps for ever between the two best paths. */
  lemma {:induction false} CriticalFlaps(policy: Policy, paths: seq<Path>, n: nat)
    requires Sound(policy, paths) && Critical(policy, paths)
    ensures var m, u := Top(paths), RunnerUp(paths).value;
            m != u && After(policy, paths, m, n) == if n % 2 == 0 then m else u
  {
    CriticalPairSwaps(policy, paths);
    if n > 0 {
      CriticalFlaps(policy, paths, n - 1);
    }
  }

  lemma CriticalPairSwaps(policy: Policy, paths: seq<Path>)
    requires Sound(policy, paths) && Critical(policy, paths)
    ensures var m, u := Top(paths), RunnerUp(paths).value;
            m != u && u < |paths| && Next(policy, paths, m) == u && Next(policy, paths, u) == m
  {
    var u := RunnerUp(paths).value;
    MutualIsCritical(policy, paths, u);
    RunnerUpIsBehind(paths, u);
    CandidateIsTop(paths, u);
  }

  ghost predicate SettlesFrom(policy: Policy, paths: seq<Path>, a: nat)
    requires a < |paths|
  {
    exists n: nat :: Settled(policy, paths, After(policy, paths, a, n))
  }

  /** Switching settles from every starting path if and only if the policy is not
      critical for these paths. */
  lemma SettlesIffNotCritical(policy: Policy, paths: seq<Path>)
    requires Sound(policy, paths)
    ensures (forall a | 0 <= a < |paths| :: SettlesFrom(policy, paths, a)) <==> !Critical(policy, paths)
  {
    if Critical(policy, paths) {
      var m := Top(paths);
      forall n: nat ensures !Settled(policy, paths, After(policy, paths, m, n)) {
        CriticalFlaps(policy, paths, n);
        CriticalFlaps(policy, paths, n + 1);
      }
      assert !SettlesFrom(policy, paths, m);
    } else {
      forall a | 0 <= a < |paths| ensures SettlesFrom(policy, paths, a) {
        AtMostTwoSwitches(policy, paths, a, 2);
      }
    }
  }

  /** With positive RTTs of which no two are exactly `minDelta` apart, the client
      makes at most two switches from any path. */
  lemma DistinctGapsSettle(policy: Policy, paths: seq<Path>, a: nat, n: nat)
    requires Sound(policy, paths) && a < |paths| && n >= 2
    requires forall i | 0 <= i < |paths| :: paths[i].rtt > 0
    requires forall i, j | 0 <= i < |paths| && 0 <= j < |paths| && i != j ::
             paths[i].rtt - paths[j].rtt != policy.minDelta
    ensures After(policy, paths, a, n) == After(policy, paths, a, 2)
            && Settled(policy, paths, After(policy, paths, a, 2))
  {
    if RunnerUp(paths).Some? {
      RunnerUpIsBehind(paths, RunnerUp(paths).value);
    }
    AtMostTwoSwitches(policy, paths, a, n);
  }

  // ---- configurations that flap ----

  ghost predicate Flaps(policy: Policy, paths: seq<Path>)
    requires |paths| == 2
  {
    forall n: nat :: After(policy, paths, 0, n) == n % 2
  }

  lemma RankedPair(paths: seq<Path>)
    requires |paths| == 2 && Better(paths, 0, 1)
    ensures Top(paths) == 0 && RunnerUp(paths) == Some(1)
  {
    BestOfIsBest(paths, -1, 2);
    BetterIsOrder(paths, 0, 1, 0);
    BestOfIsBest(paths, 0, 2);
  }

  lemma CriticalPairFlaps(policy: Policy, paths: seq<Path>)
    requires |paths| == 2 && Sound(policy, paths) && Better(paths, 0, 1)
    ensures Critical(policy, paths) <==> Flaps(policy, paths)
  {
    RankedPair(paths);
    if Critical(policy, paths) {
      forall n: nat ensures After(policy, paths, 0, n) == n % 2 {
        CriticalFlaps(policy, paths, n);
      }
    } else {
      AtMostTwoSwitches(policy, paths, 0, 2);
      AtMostTwoSwitches(policy, paths, 0, 3);
      assert After(policy, paths, 0, 2) == After(policy, paths, 0, 3);
    }
  }

  /** With the default thresholds: 40 ms against 70 ms, the slower one preferred. */
  lemma FlappingExample()
    ensures Flaps(Policy(30, 0.25, 10000, 2, 3), [Path(40, 0), Path(70, 1)])
  {
    CriticalPairFlaps(Policy(30, 0.25, 10000, 2, 3), [Path(40, 0), Path(70, 1)]);
  }

  /** Without thresholds: two paths that do not differ at all. */
  lemma ZeroDeltaExample()
    ensures Flaps(Policy(0, 0.0, 10000, 2, 3), [Path(40, 0), Path(40, 0)])
  {
    CriticalPairFlaps(Policy(0, 0.0, 10000, 2, 3), [Path(40, 0), Path(40, 0)]);
  }

  /** A path that measures zero and a preferred slow one. */
  lemma ZeroRttExample()
    ensures Flaps(Policy(30, 0.25, 10000, 2, 3), [Path(0, 0), Path(500, 1)])
  {
    CriticalPairFlaps(Policy(30, 0.25, 10000, 2, 3), [Path(0, 0), Path(500, 1)]);
  }
}
