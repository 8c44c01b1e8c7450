/** Capped exponential backoff with full jitter; durations are nanoseconds. */
module Retry {
  const BASE_DELAY: int := 200_000_000
  const MAX_DELAY: int := 5_000_000_000

  /** A double. */
  datatype Float = NaN | NegInf | PosInf | Finite(value: real)

  /** The largest double below one. */
  const BELOW_ONE: real := 1.0 - 1.0 / 9007199254740992.0

  datatype Decision = Decision(delay: int, effectiveCap: int, exhausted: bool)

  /** The base delay, doubled `n` times. */
  function Doubled(n: nat): (d: int)
    ensures d >= BASE_DELAY
  {
    if n == 0 then BASE_DELAY else 2 * Doubled(n - 1)
  }

  /** The documented law: 200ms doubled with every further attempt, at most 5s. */
  function Backoff(attempt: nat): int
    requires attempt >= 1
  {
    if Doubled(attempt - 1) < MAX_DELAY then Doubled(attempt - 1) else MAX_DELAY
  }

  lemma {:induction false} DoubledMonotone(a: nat, b: nat)
    requires a <= b
    ensures Doubled(a) <= Doubled(b)
    decreases b
  {
    if a < b {
      DoubledMonotone(a, b - 1);
    }
  }

  lemma BackoffMonotone(a: nat, b: nat)
    requires 1 <= a <= b
    ensures BASE_DELAY <= Backoff(a) <= Backoff(b) <= MAX_DELAY
  {
    DoubledMonotone(a - 1, b - 1);
  }

  /** The law in numbers. */
  lemma BackoffInNumbers(n: nat)
    requires n >= 1
    ensures Backoff(n) == if n == 1 then 200_000_000 else if n == 2 then 400_000_000 else if n == 3 then 800_000_000
                          else if n == 4 then 1_600_000_000 else if n == 5 then 3_200_000_000 else 5_000_000_000
  {
    assert Doubled(1) == 400_000_000 && Doubled(2) == 800_000_000 && Doubled(3) == 1_600_000_000;
    assert Doubled(4) == 3_200_000_000 && Doubled(5) == 6_400_000_000;
    if n >= 6 {
      DoubledMonotone(5, n - 1);
    }
  }

  /** The cap is reached with the sixth attempt and not before. */
  lemma BackoffSaturates(n: nat)
    requires n >= 1
    ensures Backoff(n) == MAX_DELAY <==> n >= 6
  {
    BackoffInNumbers(n);
  }

  /** The doubling loop of `retryCap`. It never leaves the range of a duration,
      and for an attempt below one it gives the base delay. */
  method RetryCap(attempt: int) returns (cap: int)
    ensures attempt >= 1 ==> cap == Backoff(attempt)
    ensures attempt < 1 ==> cap == BASE_DELAY
  {
    cap := BASE_DELAY;
    var step := 1;
    while step < attempt && cap < MAX_DELAY
      invariant 1 <= step && (attempt >= 1 ==> step <= attempt) && (attempt < 1 ==> step == 1)
      invariant cap == Doubled(step - 1) && cap <= MAX_DELAY
      decreases attempt - step
    {
      if cap > MAX_DELAY / 2 {
        DoubledMonotone(step, attempt - 1);
        return MAX_DELAY;
      }
      cap := cap * 2;
      step := step + 1;
    }
    if attempt >= 1 {
      DoubledMonotone(step - 1, attempt - 1);
    }
  }

  /** Kept within [0, cap). */
  function Clamped(d: int, cap: int): (delay: int)
    ensures cap > 0 ==> 0 <= delay < cap && (0 <= d < cap ==> delay == d)
    ensures cap > 0 ==> (d < 0 ==> delay == 0) && (d >= cap ==> delay == cap - 1)
  {
    if d < 0 then 0 else if d >= cap then cap - 1 else d
  }

  /** `retryJitter`: a delay strictly below a positive cap. `times` is the product
      of cap and sample as the machine computes it, cut to a duration. */
  function Jitter(cap: int, sample: Float, times: (int, real) -> int): (delay: int)
    ensures cap <= 0 ==> delay == 0
    ensures cap > 0 ==> 0 <= delay < cap
    ensures sample.NaN? || sample.NegInf? || (sample.Finite? && sample.value <= 0.0) ==> delay == 0
    ensures cap > 0 && sample.Finite? && 0.0 < sample.value < 1.0 ==> delay == Clamped(times(cap, sample.value), cap)
    ensures cap > 0 && (sample.PosInf? || (sample.Finite? && sample.value >= 1.0)) ==>
              delay == Clamped(times(cap, BELOW_ONE), cap)
  {
    if cap <= 0 then 0
    else if sample.NaN? || sample.NegInf? || (sample.Finite? && sample.value <= 0.0) then 0
    else Clamped(times(cap, if sample.PosInf? || sample.value >= 1.0 then BELOW_ONE else sample.value), cap)
  }

  /** Full jitter: with a product that is exact on whole numbers, every whole delay
      below the cap is the outcome of some sample in [0, 1). */
  lemma JitterReachesAll(cap: int, delay: int, times: (int, real) -> int)
    requires 0 <= delay < cap && times(cap, delay as real / cap as real) == delay
    ensures exists x: real :: 0.0 <= x < 1.0 && Jitter(cap, Finite(x), times) == delay
  {
    var x := delay as real / cap as real;
    assert 0.0 <= x < 1.0 && Jitter(cap, Finite(x), times) == delay;
  }

  /** The wait before the next attempt, when `attempt` have failed and there is time left. */
  function DelayFor(attempt: int, remaining: int, sample: Float, times: (int, real) -> int): (delay: int)
    requires remaining > 0
    ensures 0 <= delay < remaining
    ensures attempt <= 0 ==> delay == 0
  {
    if attempt <= 0 then 0
    else
      BackoffMonotone(1, attempt);
      Jitter(if remaining < Backoff(attempt) then remaining else Backoff(attempt), sample, times)
  }

  /** That wait in numbers: the product of the sample and the lesser of backoff and
      time left, rounded in whatever way, and cut to whole nanoseconds. */
  lemma DelayInNumbers(attempt: int, remaining: int, x: real, times: (int, real) -> int, round: real -> real,
                       backoff: int, cap: int, product: real)
    requires attempt >= 1 && remaining > 0 && 0.0 < x < 1.0
    requires backoff == if attempt == 1 then 200_000_000 else if attempt == 2 then 400_000_000
                        else if attempt == 3 then 800_000_000 else if attempt == 4 then 1_600_000_000
                        else if attempt == 5 then 3_200_000_000 else 5_000_000_000
    requires cap == if remaining < backoff then remaining else backoff
    requires product == round(cap as real * x) && times(cap, x) == product.Floor && 0.0 <= product < cap as real
    ensures DelayFor(attempt, remaining, Finite(x), times) as real <= product
            < DelayFor(attempt, remaining, Finite(x), times) as real + 1.0
  {
    BackoffInNumbers(attempt);
    BackoffMonotone(1, attempt);
    assert 0 <= times(cap, x) < cap;
  }

  /** `retryPolicy.next`. The attempt number counts failures so far, so the first
      attempt goes out at once. */
  method Next(attempt: int, remaining: int, sample: Float, times: (int, real) -> int) returns (d: Decision)
    ensures d.exhausted <==> remaining <= 0
    ensures if d.exhausted then d.delay == 0 else 0 <= d.delay < remaining
    ensures attempt <= 0 ==> d.delay == 0 && d.effectiveCap == 0
    ensures attempt >= 1 && remaining > 0 ==>
              d.effectiveCap == (if remaining < Backoff(attempt) then remaining else Backoff(attempt))
              && d.delay < d.effectiveCap
    ensures remaining > 0 ==> d.delay == DelayFor(attempt, remaining, sample, times)
  {
    if remaining <= 0 {
      return Decision(0, 0, true);
    }
    if attempt <= 0 {
      return Decision(0, 0, false);
    }
    var cap := RetryCap(attempt);
    BackoffMonotone(1, attempt);
    if remaining < cap {
      cap := remaining;
    }
    d := Decision(Jitter(cap, sample, times), cap, false);
  }
}
