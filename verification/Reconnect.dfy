/** The reconnect loop: what one outage may cost, for any clock that never goes
    back and any outcome of waits and attempts. */
module Reconnect {
  import opened Retry

  /** What the environment answers during one round of the loop: whether the
      loop is told to stop, the state it reads, three clock readings (when the
      deadline is set, when the delay is chosen, after the wait), the random
      sample and what a product with it comes to, whether a wait was cut off
      by the end, and the attempt's outcome. */
  datatype Round = Round(stop: bool, active: bool, session: bool, t0: int, t1: int, t2: int,
                         sample: Float, times: (int, real) -> int, cutOff: bool, ok: bool)

  /** What the loop did, each with the number of its round. */
  datatype Event =
    | Reset(round: nat)                             // a live connection, or no session yet
    | Armed(round: nat, at: int)                    // an outage begins
    | Waited(round: nat, number: nat, delay: int, remaining: int)
    | Tried(round: nat, at: int, number: nat, ok: bool)
    | GaveUp(round: nat, at: int)                   // "resume timeout"
  {
    predicate Recovers() {
      Reset? || (Tried? && ok)
    }

    predicate EndsRound() {
      Reset? || Tried? || GaveUp?
    }
  }

  ghost predicate ClockOK(rounds: seq<Round>) {
    && (forall i | 0 <= i < |rounds| :: rounds[i].t0 <= rounds[i].t1 <= rounds[i].t2)
    && (forall i, j | 0 <= i < j < |rounds| :: rounds[i].t2 <= rounds[j].t0)
  }

  /** The deadline in force after a log, if an outage is on. */
  function Deadline(log: seq<Event>, timeout: int): (d: seq<int>)
    ensures |d| <= 1
    decreases |log|
  {
    if log == [] then []
    else
      var e := log[|log| - 1];
      if e.Recovers() then []
      else if e.Armed? then [e.at + timeout]
      else Deadline(log[..|log| - 1], timeout)
  }

  /** How many attempts have failed since the last success or live connection. */
  function Failures(log: seq<Event>): nat
    decreases |log|
  {
    if log == [] then 0
    else
      var e := log[|log| - 1];
      if e.Recovers() then 0
      else Failures(log[..|log| - 1]) + if e.Tried? then 1 else 0
  }

  /** How many rounds are over. */
  function Over(log: seq<Event>): nat
    decreases |log|
  {
    if log == [] then 0 else Over(log[..|log| - 1]) + if log[|log| - 1].EndsRound() then 1 else 0
  }

  /** One event is what its round calls for, and within the budget that the log
      before it leaves. */
  ghost predicate Due(rounds: seq<Round>, before: seq<Event>, e: Event, timeout: int) {
    e.round < |rounds| && e.round == Over(before) &&
    var d, r := Deadline(before, timeout), rounds[e.round];
    var down := !r.stop && !r.active && r.session;
    match e
    case Reset(_) => !r.stop && !down
    case Armed(_, at) => down && d == [] && at == r.t0
    case Waited(_, number, delay, remaining) =>
      && down && d != [] && number == Failures(before) && remaining == d[0] - r.t1
      && 0 < delay < remaining <= timeout && (number >= 1 ==> delay < Backoff(number))
    case Tried(_, at, number, ok) =>
      down && d != [] && at == r.t2 < d[0] && number == Failures(before) && ok == r.ok
    case GaveUp(_, at) => down && d != [] && at >= d[0] && (at == r.t1 || at == r.t2)
  }

  /** The wait a round calls for, by its number, the failures so far and the time left. */
  type Delays = (nat, nat, int) -> int

  /** The wait of one event's round: before an attempt it has just been made, and
      was not cut off, unless it is for no time. */
  ghost predicate Rested(delays: Delays, rounds: seq<Round>, before: seq<Event>, e: Event, timeout: int) {
    match e
    case Waited(i, number, delay, remaining) => !WaitedIn(before, i) && delay == delays(i, number, remaining)
    case Tried(i, _, number, _) => Slept(delays, rounds, before, i, number, timeout)
    case GaveUp(i, at) => i < |rounds|
        && (at == rounds[i].t1 || Slept(delays, rounds, before, i, Failures(before), timeout))
    case _ => true
  }

  ghost predicate WaitedIn(before: seq<Event>, i: nat) {
    before != [] && before[|before| - 1].Waited? && before[|before| - 1].round == i
  }

  ghost predicate Slept(delays: Delays, rounds: seq<Round>, before: seq<Event>, i: nat, number: nat, timeout: int) {
    i < |rounds| && Deadline(before, timeout) != [] &&
    var remaining := Deadline(before, timeout)[0] - rounds[i].t1;
    if delays(i, number, remaining) == 0 then !WaitedIn(before, i)
    else
      before != [] && before[|before| - 1] == Waited(i, number, delays(i, number, remaining), remaining)
      && !rounds[i].cutOff
  }

  ghost predicate AllRested(delays: Delays, rounds: seq<Round>, log: seq<Event>, timeout: int) {
    forall i {:trigger log[..i]} | 0 <= i < |log| :: Rested(delays, rounds, log[..i], log[i], timeout)
  }

  lemma RestGrows(delays: Delays, rounds: seq<Round>, log: seq<Event>, timeout: int, e: Event)
    requires AllRested(delays, rounds, log, timeout) && Rested(delays, rounds, log, e, timeout)
    ensures AllRested(delays, rounds, log + [e], timeout)
  {
    var l' := log + [e];
    assert l'[..|log|] == log;
    forall i | 0 <= i < |l'| ensures Rested(delays, rounds, l'[..i], l'[i], timeout) {
      if i < |log| {
        assert l'[..i] == log[..i];
      }
    }
  }

  ghost predicate LogOK(rounds: seq<Round>, log: seq<Event>, timeout: int) {
    forall i | 0 <= i < |log| :: Due(rounds, log[..i], log[i], timeout) && (log[i].GaveUp? ==> i == |log| - 1)
  }

  ghost predicate NotGivenUp(log: seq<Event>) {
    forall i | 0 <= i < |log| :: !log[i].GaveUp?
  }

  function DeadlineAfter(deadline: seq<int>, e: Event, timeout: int): seq<int> {
    if e.Recovers() then [] else if e.Armed? then [e.at + timeout] else deadline
  }

  function FailuresAfter(attempt: nat, e: Event): nat {
    if e.Recovers() then 0 else attempt + if e.Tried? then 1 else 0
  }

  /** The state the loop carries from round to round. */
  ghost predicate LoopOK(rounds: seq<Round>, log: seq<Event>, timeout: int, deadline: seq<int>, attempt: nat,
                         over: nat) {
    && LogOK(rounds, log, timeout) && NotGivenUp(log)
    && deadline == Deadline(log, timeout) && attempt == Failures(log) && over == Over(log)
  }

  lemma LoopGrows(rounds: seq<Round>, log: seq<Event>, timeout: int, deadline: seq<int>, attempt: nat, over: nat,
                  e: Event)
    requires LoopOK(rounds, log, timeout, deadline, attempt, over) && Due(rounds, log, e, timeout)
    ensures LogOK(rounds, log + [e], timeout) && Over(log + [e]) == over + if e.EndsRound() then 1 else 0
    ensures !e.GaveUp? ==>
              LoopOK(rounds, log + [e], timeout, DeadlineAfter(deadline, e, timeout), FailuresAfter(attempt, e),
                     over + if e.EndsRound() then 1 else 0)
  {
    LogGrows(rounds, log, timeout, e);
    assert (log + [e])[..|log|] == log;
  }

  lemma LogGrows(rounds: seq<Round>, log: seq<Event>, timeout: int, e: Event)
    requires LogOK(rounds, log, timeout) && NotGivenUp(log) && Due(rounds, log, e, timeout)
    ensures LogOK(rounds, log + [e], timeout)
  {
    var l' := log + [e];
    assert l'[..|log|] == log;
    forall i | 0 <= i < |l'| ensures Due(rounds, l'[..i], l'[i], timeout) && (l'[i].GaveUp? ==> i == |l'| - 1) {
      if i < |log| {
        assert l'[..i] == log[..i];
      }
    }
  }

  /** The wait of a round. */
  method Pause(ghost delays: Delays, timeout: int, rounds: seq<Round>, i: nat, log: seq<Event>, deadline: seq<int>,
               attempt: nat, delay: int)
    returns (log': seq<Event>, cut: bool)
    requires InOutage(delays, rounds, log, timeout, deadline, attempt, i) && !WaitedIn(log, i)
    requires 0 < deadline[0] - rounds[i].t1 <= timeout
    requires attempt >= 1 && 0 < delay < Backoff(attempt)
    requires delay == delays(i, attempt, deadline[0] - rounds[i].t1) < deadline[0] - rounds[i].t1
    ensures InOutage(delays, rounds, log', timeout, deadline, attempt, i)
    ensures cut == rounds[i].cutOff && WaitedIn(log', i)
    ensures !cut ==> Slept(delays, rounds, log', i, attempt, timeout)
  {
    var wait := Waited(i, attempt, delay, deadline[0] - rounds[i].t1);
    LoopGrows(rounds, log, timeout, deadline, attempt, i, wait);
    RestGrows(delays, rounds, log, timeout, wait);
    log', cut := log + [wait], rounds[i].cutOff;
    RestedNow(delays, rounds, log, wait, timeout);
  }

  /** After its wait a round has slept. */
  lemma RestedNow(delays: Delays, rounds: seq<Round>, log: seq<Event>, wait: Event, timeout: int)
    requires wait.Waited? && wait.round < |rounds| && Deadline(log, timeout) != [] && wait.delay > 0
    requires wait.remaining == Deadline(log, timeout)[0] - rounds[wait.round].t1
    requires wait.delay == delays(wait.round, wait.number, wait.remaining)
    ensures WaitedIn(log + [wait], wait.round)
    ensures !rounds[wait.round].cutOff ==> Slept(delays, rounds, log + [wait], wait.round, wait.number, timeout)
  {
    assert (log + [wait])[..|log|] == log;
  }

  /** These are the waits that the retry policy decides on. */
  ghost predicate FromPolicy(delays: Delays, rounds: seq<Round>) {
    forall i: nat, number: nat, remaining: int | i < |rounds| && remaining > 0 ::
      delays(i, number, remaining) == DelayFor(number, remaining, rounds[i].sample, rounds[i].times)
  }

  method Decide(ghost delays: Delays, rounds: seq<Round>, i: nat, attempt: nat, remaining: int) returns (d: Decision)
    requires FromPolicy(delays, rounds) && i < |rounds|
    ensures d.exhausted <==> remaining <= 0
    ensures !d.exhausted ==> 0 <= d.delay < remaining && d.delay == delays(i, attempt, remaining)
    ensures d.delay > 0 ==> attempt >= 1 && d.delay < Backoff(attempt)
  {
    d := Next(attempt, remaining, rounds[i].sample, rounds[i].times);
  }

  /** One round with the connection down: choose a delay, wait, try. */
  method TryOnce(ghost delays: Delays, timeout: int, rounds: seq<Round>, i: nat, log: seq<Event>, deadline: seq<int>,
                 attempt: nat)
    returns (log': seq<Event>, deadline': seq<int>, attempt': nat, ended: bool)
    requires timeout > 0 && InOutage(delays, rounds, log, timeout, deadline, attempt, i) && !WaitedIn(log, i)
    requires FromPolicy(delays, rounds) && deadline[0] <= rounds[i].t1 + timeout
    ensures LogOK(rounds, log', timeout) && AllRested(delays, rounds, log', timeout)
    ensures !ended ==>
            LoopOK(rounds, log', timeout, deadline', attempt', i + 1) && (deadline' == [] || deadline' == deadline) &&
            BetweenRounds(log')
    ensures ended ==>
            (log' != [] && log'[|log'| - 1].GaveUp? && Over(log') == i + 1) ||
            (rounds[i].cutOff && WaitedIn(log', i) && Over(log') == i)
  {
    log', deadline', attempt', ended := log, deadline, attempt, true;
    var r := rounds[i];
    var decision := Decide(delays, rounds, i, attempt, deadline[0] - r.t1);
    if decision.exhausted {
      GiveUpGrows(delays, rounds, log', timeout, deadline, attempt, i, r.t1);
      log' := log' + [GaveUp(i, r.t1)];
      return;
    }
    if decision.delay > 0 {
      var cut;
      log', cut := Pause(delays, timeout, rounds, i, log', deadline, attempt, decision.delay);
      if cut {
        return;
      }
    }
    if !(r.t2 < deadline[0]) {
      GiveUpGrows(delays, rounds, log', timeout, deadline, attempt, i, r.t2);
      log' := log' + [GaveUp(i, r.t2)];
      return;
    }
    TryGrows(delays, rounds, log', timeout, deadline, attempt, i);
    log' := log' + [Tried(i, r.t2, attempt, r.ok)];
    if r.ok {
      deadline', attempt' := [], 0;
    } else {
      attempt' := attempt + 1;
    }
    ended := false;
  }

  /** The connection is down in round `i`, and an outage is on. */
  ghost predicate InOutage(delays: Delays, rounds: seq<Round>, log: seq<Event>, timeout: int, deadline: seq<int>,
                           attempt: nat,
                           i: nat) {
    && LoopOK(rounds, log, timeout, deadline, attempt, i) && AllRested(delays, rounds, log, timeout)
    && i < |rounds| && !rounds[i].stop && !rounds[i].active && rounds[i].session && deadline != []
  }

  lemma GiveUpGrows(delays: Delays, rounds: seq<Round>, log: seq<Event>, timeout: int, deadline: seq<int>, attempt: nat,
                    i: nat,
                    at: int)
    requires InOutage(delays, rounds, log, timeout, deadline, attempt, i) && at >= deadline[0]
    requires at == rounds[i].t1 || (at == rounds[i].t2 && Slept(delays, rounds, log, i, attempt, timeout))
    ensures var log' := log + [GaveUp(i, at)];
            LogOK(rounds, log', timeout) && AllRested(delays, rounds, log', timeout) && Over(log') == i + 1
  {
    LoopGrows(rounds, log, timeout, deadline, attempt, i, GaveUp(i, at));
    RestGrows(delays, rounds, log, timeout, GaveUp(i, at));
  }

  lemma TryGrows(delays: Delays, rounds: seq<Round>, log: seq<Event>, timeout: int, deadline: seq<int>, attempt: nat,
                 i: nat)
    requires InOutage(delays, rounds, log, timeout, deadline, attempt, i)
    requires Slept(delays, rounds, log, i, attempt, timeout) && rounds[i].t2 < deadline[0]
    ensures var ok := rounds[i].ok;
            var log' := log + [Tried(i, rounds[i].t2, attempt, ok)];
            && LoopOK(rounds, log', timeout, if ok then [] else deadline, if ok then 0 else attempt + 1, i + 1)
            && AllRested(delays, rounds, log', timeout)
  {
    var e := Tried(i, rounds[i].t2, attempt, rounds[i].ok);
    LoopGrows(rounds, log, timeout, deadline, attempt, i, e);
    RestGrows(delays, rounds, log, timeout, e);
  }

  /** One round with the connection down, from an outage that may just begin. */
  method DownRound(ghost delays: Delays, timeout: int, rounds: seq<Round>, i: nat, log: seq<Event>, deadline: seq<int>,
                   attempt: nat)
    returns (log': seq<Event>, deadline': seq<int>, attempt': nat, ended: bool)
    requires timeout > 0 && ClockOK(rounds) && LoopOK(rounds, log, timeout, deadline, attempt, i) && i < |rounds|
    requires !rounds[i].stop && !rounds[i].active && rounds[i].session
    requires deadline != [] ==> deadline[0] <= rounds[i].t0 + timeout
    requires FromPolicy(delays, rounds) && AllRested(delays, rounds, log, timeout) && BetweenRounds(log)
    ensures LogOK(rounds, log', timeout) && AllRested(delays, rounds, log', timeout)
    ensures !ended ==>
            LoopOK(rounds, log', timeout, deadline', attempt', i + 1) && BetweenRounds(log') &&
            (deadline' != [] ==> deadline'[0] <= rounds[i].t0 + timeout)
    ensures ended ==> StopsFor(rounds, log')
  {
    log', deadline' := log, deadline;
    if deadline == [] {
      LoopGrows(rounds, log, timeout, deadline, attempt, i, Armed(i, rounds[i].t0));
      RestGrows(delays, rounds, log, timeout, Armed(i, rounds[i].t0));
      log' := log + [Armed(i, rounds[i].t0)];
      deadline' := [rounds[i].t0 + timeout];
    }
    log', deadline', attempt', ended := TryOnce(delays, timeout, rounds, i, log', deadline', attempt);
  }

  ghost predicate BetweenRounds(log: seq<Event>) {
    log == [] || log[|log| - 1].EndsRound()
  }

  /** Why the loop may end: it is out of rounds, told to stop between two rounds or
      while it waits, or has reported the timeout. */
  ghost predicate StopsFor(rounds: seq<Round>, log: seq<Event>) {
    var n := Over(log);
    || n == |rounds|
    || (n < |rounds| && rounds[n].stop && BetweenRounds(log))
    || (n < |rounds| && rounds[n].cutOff && WaitedIn(log, n))
    || (log != [] && log[|log| - 1].GaveUp?)
    || (0 < n <= |rounds| && log != [] && log[|log| - 1].Reset? && rounds[n - 1].cutOff)
  }

  lemma ResetGrows(delays: Delays, rounds: seq<Round>, log: seq<Event>, timeout: int, deadline: seq<int>, attempt: nat,
                   i: nat)
    requires LoopOK(rounds, log, timeout, deadline, attempt, i) && AllRested(delays, rounds, log, timeout)
    requires i < |rounds| && !rounds[i].stop && (rounds[i].active || !rounds[i].session)
    ensures LoopOK(rounds, log + [Reset(i)], timeout, [], 0, i + 1)
            && AllRested(delays, rounds, log + [Reset(i)], timeout)
    ensures BetweenRounds(log + [Reset(i)])
    ensures rounds[i].cutOff ==> StopsFor(rounds, log + [Reset(i)])
  {
    LoopGrows(rounds, log, timeout, deadline, attempt, i, Reset(i));
    RestGrows(delays, rounds, log, timeout, Reset(i));
  }

  /** `runReconnectLoop`, over the answers of as many rounds as the environment
      gives; a zero deadline is the empty sequence. */
  method RunReconnectLoop(timeout: int, rounds: seq<Round>) returns (log: seq<Event>, ghost delays: Delays)
    requires timeout > 0 && ClockOK(rounds)
    ensures LogOK(rounds, log, timeout)
    ensures FromPolicy(delays, rounds) && AllRested(delays, rounds, log, timeout)
    ensures StopsFor(rounds, log)
  {
    delays := PolicyOf(rounds);
    log := [];
    var deadline: seq<int>, attempt: nat := [], 0;
    for i := 0 to |rounds|
      invariant LoopOK(rounds, log, timeout, deadline, attempt, i)
      invariant AllRested(delays, rounds, log, timeout) && BetweenRounds(log)
      invariant deadline != [] && i < |rounds| ==> deadline[0] <= rounds[i].t0 + timeout
    {
      var r := rounds[i];
      if r.stop {
        return;
      }
      if r.active || !r.session {
        ResetGrows(delays, rounds, log, timeout, deadline, attempt, i);
        log := log + [Reset(i)];
        deadline, attempt := [], 0;
        if r.cutOff {
          return;
        }
      } else {
        var ended;
        log, deadline, attempt, ended := DownRound(delays, timeout, rounds, i, log, deadline, attempt);
        if ended {
          return;
        }
      }
    }
  }

  lemma PolicyOf(rounds: seq<Round>) returns (delays: Delays)
    ensures FromPolicy(delays, rounds)
  {
    delays := (i: nat, number: nat, remaining: int) =>
      if i < |rounds| && remaining > 0 then DelayFor(number, remaining, rounds[i].sample, rounds[i].times) else 0;
  }

  /** No success and no live connection between two places of a log. */
  ghost predicate SameOutage(log: seq<Event>, i: nat, j: nat) {
    i <= j < |log| && forall k | i <= k < j :: !log[k].Recovers()
  }

  lemma {:induction false} DeadlineStays(rounds: seq<Round>, log: seq<Event>, timeout: int, i: nat, j: nat)
    requires LogOK(rounds, log, timeout) && SameOutage(log, i, j) && Deadline(log[..i], timeout) != []
    ensures Deadline(log[..j], timeout) == Deadline(log[..i], timeout)
    ensures Failures(log[..i]) <= Failures(log[..j])
    decreases j - i
  {
    if i < j {
      DeadlineStays(rounds, log, timeout, i, j - 1);
      assert log[..j][..j - 1] == log[..j - 1];
      assert log[..j][j - 1] == log[j - 1];
      assert Due(rounds, log[..j - 1], log[j - 1], timeout);
    }
  }

  /** All attempts of one outage share the deadline set at its start, each one
      starts strictly before it, and their numbers count up; the loop reports the
      timeout only once that same deadline is reached, and nothing follows. */
  lemma OneDeadlinePerOutage(rounds: seq<Round>, log: seq<Event>, timeout: int, i: nat, j: nat)
    requires LogOK(rounds, log, timeout) && SameOutage(log, i, j) && log[i].Armed?
    ensures log[j].Tried? ==> log[j].at < log[i].at + timeout
    ensures log[j].Waited? ==> log[j].remaining == log[i].at + timeout - rounds[log[j].round].t1
    ensures log[j].GaveUp? ==> log[j].at >= log[i].at + timeout && j == |log| - 1
    ensures log[j].Armed? ==> i == j
    ensures log[j].Tried? && !log[j].ok ==> Failures(log[..j + 1]) == log[j].number + 1
    ensures log[j].Tried? && log[j].ok ==> Failures(log[..j + 1]) == 0 && Deadline(log[..j + 1], timeout) == []
  {
    if i < j {
      assert log[..i + 1][i] == log[i];
      assert SameOutage(log, i + 1, j);
      DeadlineStays(rounds, log, timeout, i + 1, j);
    }
    assert Due(rounds, log[..j], log[j], timeout);
    assert log[..j + 1][..j] == log[..j] && log[..j + 1][j] == log[j];
  }

  /** A delay, counted from when it is chosen, ends before the deadline of its outage. */
  lemma DelayFitsBudget(rounds: seq<Round>, log: seq<Event>, timeout: int, i: nat, j: nat)
    requires LogOK(rounds, log, timeout) && SameOutage(log, i, j) && log[i].Armed? && log[j].Waited?
    ensures rounds[log[j].round].t1 + log[j].delay < log[i].at + timeout
  {
    OneDeadlinePerOutage(rounds, log, timeout, i, j);
    assert Due(rounds, log[..j], log[j], timeout);
  }

  /** From one attempt of an outage to the next: the following round, and in it
      exactly the one wait that is due, not cut off, or none if it is for no time. */
  lemma OneWaitBetweenAttempts(delays: Delays, rounds: seq<Round>, log: seq<Event>, timeout: int, i: nat, j: nat)
    requires LogOK(rounds, log, timeout) && AllRested(delays, rounds, log, timeout)
    requires i < j && SameOutage(log, i, j) && log[i].Tried? && log[j].Tried?
    requires forall k | i < k < j :: !log[k].Tried?
    ensures log[j].round == log[i].round + 1 < |rounds| && log[j].number == log[i].number + 1
    ensures Deadline(log[..i], timeout) != []
    ensures var remaining := Deadline(log[..i], timeout)[0] - rounds[log[j].round].t1;
            var delay := delays(log[j].round, log[j].number, remaining);
            if delay == 0 then j == i + 1
            else j == i + 2 && !rounds[log[j].round].cutOff
                 && log[i + 1] == Waited(log[j].round, log[j].number, delay, remaining)
  {
    AttemptHasDeadline(rounds, log, timeout, i);
    DeadlineStays(rounds, log, timeout, i, j);
    NextIsDue(delays, rounds, log, timeout, i, j);
    assert Rested(delays, rounds, log[..j], log[j], timeout);
    if i + 1 < j {
      assert log[..j][j - 1] == log[j - 1];
    }
  }

  lemma AttemptHasDeadline(rounds: seq<Round>, log: seq<Event>, timeout: int, i: nat)
    requires LogOK(rounds, log, timeout) && i < |log| && log[i].Tried?
    ensures Deadline(log[..i], timeout) != [] && log[i].round == Over(log[..i]) < |rounds|
    ensures log[i].number == Failures(log[..i])
  {
    assert Due(rounds, log[..i], log[i], timeout);
  }

  /** What follows on a failed attempt within its outage: the next, or one wait and then that. */
  lemma NextIsDue(delays: Delays, rounds: seq<Round>, log: seq<Event>, timeout: int, i: nat, j: nat)
    requires LogOK(rounds, log, timeout) && AllRested(delays, rounds, log, timeout)
    requires i < j && SameOutage(log, i, j) && log[i].Tried? && log[j].Tried?
    requires forall k | i < k < j :: !log[k].Tried?
    ensures j == i + 1 || (j == i + 2 && WaitedIn(log[..j], log[j].round))
    ensures log[j].round == log[i].round + 1 && log[j].number == log[i].number + 1
  {
    AttemptHasDeadline(rounds, log, timeout, i);
    AttemptHasDeadline(rounds, log, timeout, j);
    CountsOn(log, i);
    if i + 1 < j {
      WaitsOnly(delays, rounds, log, timeout, i, i + 1);
      CountsOn(log, i + 1);
      if i + 2 < j {
        WaitsOnly(delays, rounds, log, timeout, i, i + 2);
        assert false;
      }
    }
  }

  lemma CountsOn(log: seq<Event>, i: nat)
    requires i < |log|
    ensures log[..i + 1][i] == log[i]
    ensures log[i].Waited? ==> Over(log[..i + 1]) == Over(log[..i]) && Failures(log[..i + 1]) == Failures(log[..i])
    ensures log[i].Tried? && !log[i].ok ==>
              Over(log[..i + 1]) == Over(log[..i]) + 1 && Failures(log[..i + 1]) == Failures(log[..i]) + 1
  {
    assert log[..i + 1][..i] == log[..i] && log[..i + 1][i] == log[i];
  }

  /** Between two attempts of an outage there are only waits, each the first of its round. */
  lemma WaitsOnly(delays: Delays, rounds: seq<Round>, log: seq<Event>, timeout: int, i: nat, k: nat)
    requires LogOK(rounds, log, timeout) && AllRested(delays, rounds, log, timeout)
    requires i < k < |log| - 1 && SameOutage(log, i, k + 1) && log[i].Tried? && !log[k].Tried?
    ensures log[k].Waited? && log[k].round == Over(log[..k]) && !WaitedIn(log[..k], log[k].round)
  {
    AttemptHasDeadline(rounds, log, timeout, i);
    DeadlineStays(rounds, log, timeout, i, k);
    assert Due(rounds, log[..k], log[k], timeout) && Rested(delays, rounds, log[..k], log[k], timeout);
  }
}
