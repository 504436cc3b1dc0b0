/** Retry decisions: the coordinator's per-message state refines a plain counter of
    failures, and the backoff it grants is bounded over all retries of a message. */
module Retry {
  import opened Types

  // ---------------------------------------------------------------------------------------
  // Backoff schedule (seconds, over the reals; `random` is the random draw in [0, 1))
  // ---------------------------------------------------------------------------------------

  datatype RetryPolicy = RetryPolicy(maxAttempts: nat, baseDelay: real, maxDelay: real, jitter: real)
  {
    ghost predicate Valid() {
      baseDelay >= 0.0 && maxDelay >= 0.0 && 0.0 <= jitter <= 1.0
    }
  }

  function Pow2(n: nat): real {
    if n == 0 then 1.0 else 2.0 * Pow2(n - 1)
  }

  function Min(a: real, b: real): real {
    if a <= b then a else b
  }

  /** The delay before jitter: exponential growth up to the cap. */
  function Capped(p: RetryPolicy, attempt: nat): real {
    Min(Doubled(p, attempt), p.maxDelay)
  }

  /** base * 2^attempt (see `DoubledClosed`). */
  function Doubled(p: RetryPolicy, attempt: nat): real {
    if attempt == 0 then p.baseDelay else 2.0 * Doubled(p, attempt - 1)
  }

  lemma {:induction false} DoubledClosed(p: RetryPolicy, attempt: nat)
    ensures Doubled(p, attempt) == p.baseDelay * Pow2(attempt)
  {
    if attempt > 0 {
      DoubledClosed(p, attempt - 1);
    }
  }

  function JitterFactor(p: RetryPolicy, random: real): real {
    1.0 - p.jitter + random * p.jitter * 2.0
  }

  function NextDelay(p: RetryPolicy, attempt: nat, random: real): real {
    Capped(p, attempt) * JitterFactor(p, random)
  }

  /** The delay before jitter doubles from attempt to attempt until it meets the cap, and stays there. */
  lemma CappedExactly(p: RetryPolicy, attempt: nat)
    requires p.Valid()
    ensures Capped(p, 0) == Min(p.baseDelay, p.maxDelay)
    ensures Capped(p, attempt + 1) == Min(2.0 * Capped(p, attempt), p.maxDelay)
  {
  }

  /** The multiplier runs evenly from 1 - jitter to 1 + jitter with the random draw. */
  lemma JitterExactly(p: RetryPolicy, random: real)
    ensures JitterFactor(p, random) == 1.0 + (2.0 * random - 1.0) * p.jitter
  {
    Distribute(p.jitter, 2.0 * random, -1.0);
    assert random * p.jitter * 2.0 == (2.0 * random) * p.jitter;
  }

  lemma MulMono(a: real, b: real, c: real)
    requires a <= b && c >= 0.0
    ensures a * c <= b * c && c * a <= c * b
  {
  }

  lemma Scaled(x: real, low: real, y: real, high: real)
    requires x >= 0.0 && low <= y <= high
    ensures x * low <= x * y <= x * high
  {
    MulMono(low, y, x);
    MulMono(y, high, x);
  }

  lemma Distribute(x: real, a: real, b: real)
    ensures x * (a + b) == x * a + x * b
  {
  }

  lemma {:induction false} CappedNondecreasing(p: RetryPolicy, m: nat, n: nat)
    requires p.Valid() && m <= n
    ensures 0.0 <= Doubled(p, m)
    ensures 0.0 <= Capped(p, m) <= Capped(p, n) <= p.maxDelay
    decreases n
  {
    if m < n {
      CappedNondecreasing(p, m, n - 1);
      CappedNondecreasing(p, n - 1, n - 1);
    } else if n > 0 {
      CappedNondecreasing(p, n - 1, n - 1);
    }
  }

  lemma JitterRange(p: RetryPolicy, random: real)
    requires p.Valid() && 0.0 <= random < 1.0
    ensures 1.0 - p.jitter <= JitterFactor(p, random) <= 1.0 + p.jitter
  {
    var drawn := random * p.jitter;
    MulMono(0.0, random, p.jitter);
    MulMono(random, 1.0, p.jitter);
    assert JitterFactor(p, random) == 1.0 - p.jitter + drawn * 2.0;
  }

  lemma DelayWithinJitter(p: RetryPolicy, attempt: nat, random: real)
    requires p.Valid() && 0.0 <= random < 1.0
    ensures Capped(p, attempt) * (1.0 - p.jitter) <= NextDelay(p, attempt, random) <= Capped(p, attempt) * (1.0 + p.jitter)
  {
    JitterRange(p, random);
    CappedNondecreasing(p, attempt, attempt);
    Scaled(Capped(p, attempt), 1.0 - p.jitter, JitterFactor(p, random), 1.0 + p.jitter);
  }

  // ---------------------------------------------------------------------------------------
  // The coordinator's state and its step
  // ---------------------------------------------------------------------------------------

  datatype RetryKey = RetryKey(home: TopicPartition, offset: int)

  datatype RetryState = Retrying(attempt: nat) | Exhausted
  {
    function Attempt(): nat {
      match this
      case Retrying(n) => n
      case Exhausted => 0
    }
  }

  datatype Decision = Decision(shouldRetry: bool, shouldDlq: bool, delay: Option<real>)

  const DEAD_LETTER := Decision(false, true, None)

  type RetryBook = map<RetryKey, RetryState>

  /** The number of the attempt that just failed, for a message that is not exhausted. */
  function FailedAttempt(book: RetryBook, key: RetryKey): nat {
    1 + if key in book && book[key].Retrying? then book[key].attempt else 0
  }

  predicate WillRetry(p: RetryPolicy, book: RetryBook, key: RetryKey, reason: FailureReason) {
    && reason.Category() == RetryableCategory
    && (key in book ==> !book[key].Exhausted?)
    && FailedAttempt(book, key) < p.maxAttempts
  }

  function FailureBook(p: RetryPolicy, book: RetryBook, key: RetryKey, reason: FailureReason): RetryBook {
    if reason.Category() != RetryableCategory || (key in book && book[key].Exhausted?) then book
    else if FailedAttempt(book, key) >= p.maxAttempts then book[key := Exhausted]
    else book[key := Retrying(FailedAttempt(book, key))]
  }

  function Decide(p: RetryPolicy, book: RetryBook, key: RetryKey, reason: FailureReason, random: real): Decision {
    if WillRetry(p, book, key, reason)
    then Decision(true, false, Some(NextDelay(p, FailedAttempt(book, key) - 1, random)))
    else DEAD_LETTER
  }

  function AttemptCount(book: RetryBook, key: RetryKey): nat {
    if key in book then book[key].Attempt() else 0
  }

  class RetryCoordinator {
    var state: RetryBook
    const policy: RetryPolicy

    constructor (policy: RetryPolicy)
      ensures state == map[] && this.policy == policy
    {
      this.policy := policy;
      state := map[];
    }

    method RecordFailure(key: RetryKey, reason: FailureReason, random: real) returns (d: Decision)
      modifies this
      ensures state == FailureBook(policy, old(state), key, reason)
      ensures d == Decide(policy, old(state), key, reason, random)
    {
      if reason.Category() != RetryableCategory {
        return DEAD_LETTER;
      }
      if key in state && state[key].Exhausted? {
        return DEAD_LETTER;
      }
      if key in state {
        var attempt := state[key].attempt + 1;
        if attempt >= policy.maxAttempts {
          state := state[key := Exhausted];
          return DEAD_LETTER;
        }
        var delay := NextDelay(policy, attempt - 1, random);
        state := state[key := Retrying(attempt)];
        return Decision(true, false, Some(delay));
      }
      if 1 >= policy.maxAttempts {
        state := state[key := Exhausted];
        return DEAD_LETTER;
      }
      var delay := NextDelay(policy, 0, random);
      state := state[key := Retrying(1)];
      return Decision(true, false, Some(delay));
    }

    method RecordSuccess(key: RetryKey)
      modifies this
      ensures state == old(state) - {key}
    {
      state := state - {key};
    }

    method Attempts(key: RetryKey) returns (n: nat)
      ensures n == AttemptCount(state, key)
    {
      n := if key in state then state[key].Attempt() else 0;
    }
  }

  // ---------------------------------------------------------------------------------------
  // Refinement: a per-message counter
  // ---------------------------------------------------------------------------------------

  datatype RetryEvent =
    | Failure(key: RetryKey, reason: FailureReason, random: real)
    | Success(key: RetryKey)

  function StepBook(p: RetryPolicy, book: RetryBook, e: RetryEvent): RetryBook {
    match e
    case Failure(key, reason, _) => FailureBook(p, book, key, reason)
    case Success(key) => book - {key}
  }

  function ReplayBook(p: RetryPolicy, h: seq<RetryEvent>): RetryBook {
    if h == [] then map[] else StepBook(p, ReplayBook(p, h[..|h| - 1]), h[|h| - 1])
  }

  /** Retryable failures of `key` since its last success. */
  function Failures(h: seq<RetryEvent>, key: RetryKey): nat {
    if h == [] then 0
    else
      var before := Failures(h[..|h| - 1], key);
      match h[|h| - 1]
      case Success(k) => if k == key then 0 else before
      case Failure(k, reason, _) =>
        if k == key && reason.Retryable? then before + 1 else before
  }

  /** The state a counter value stands for. */
  ghost predicate Counts(p: RetryPolicy, book: RetryBook, key: RetryKey, n: nat) {
    if n == 0 then key !in book
    else key in book && book[key] == if n < p.maxAttempts then Retrying(n) else Exhausted
  }

  lemma {:induction false} BookRefinesCounter(p: RetryPolicy, h: seq<RetryEvent>, key: RetryKey)
    ensures Counts(p, ReplayBook(p, h), key, Failures(h, key))
  {
    if h != [] {
      BookRefinesCounter(p, h[..|h| - 1], key);
    }
  }

  /** The decision on the next failure depends only on how many retryable failures came
      before it: the k-th one is retried exactly when k is below the maximum. */
  lemma DecisionByCount(p: RetryPolicy, h: seq<RetryEvent>, key: RetryKey, reason: FailureReason, random: real)
    ensures var k := Failures(h, key) + 1;
            var d := Decide(p, ReplayBook(p, h), key, reason, random);
            && d.shouldDlq == !d.shouldRetry
            && d.delay.Some? == d.shouldRetry
            && (d.shouldRetry <==> reason.Retryable? && k < p.maxAttempts)
            && (d.shouldRetry ==> d.delay.value == NextDelay(p, k - 1, random))
            && (!reason.Retryable? ==> FailureBook(p, ReplayBook(p, h), key, reason) == ReplayBook(p, h))
            && AttemptCount(ReplayBook(p, h), key) == (if k - 1 < p.maxAttempts then k - 1 else 0)
  {
    BookRefinesCounter(p, h, key);
  }

  lemma SameProduct(a: real, b: real, c: real, d: real)
    requires a == b && c == d
    ensures a * c == b * d
  {
  }

  /** The documented backoff, in closed form. */
  function Backoff(p: RetryPolicy, attempt: nat, random: real): real {
    var capped := Min(p.baseDelay * Pow2(attempt), p.maxDelay);
    var spread := 1.0 + (2.0 * random - 1.0) * p.jitter;
    capped * spread
  }

  lemma DelayValue(p: RetryPolicy, attempt: nat, random: real)
    ensures NextDelay(p, attempt, random) == Backoff(p, attempt, random)
  {
    DoubledClosed(p, attempt);
    JitterExactly(p, random);
    hide Doubled, Pow2, JitterFactor;
    var capped := Min(p.baseDelay * Pow2(attempt), p.maxDelay);
    var spread := 1.0 + (2.0 * random - 1.0) * p.jitter;
    assert Capped(p, attempt) == capped;
    assert JitterFactor(p, random) == spread;
    SameProduct(Capped(p, attempt), capped, JitterFactor(p, random), spread);
  }

  /** The value of a granted delay: after any history, the k-th retryable failure of a message is
      retried after min(base * 2^(k - 1), cap), spread evenly by the jitter. */
  lemma GrantedDelay(p: RetryPolicy, h: seq<RetryEvent>, key: RetryKey, reason: FailureReason, random: real)
    requires reason.Retryable? && Failures(h, key) + 1 < p.maxAttempts
    ensures Decide(p, ReplayBook(p, h), key, reason, random).delay == Some(Backoff(p, Failures(h, key), random))
  {
    var n := Failures(h, key);
    DecisionByCount(p, h, key, reason, random);
    assert Decide(p, ReplayBook(p, h), key, reason, random).delay == Some(NextDelay(p, n, random));
    DelayValue(p, n, random);
  }

  // ---------------------------------------------------------------------------------------
  // Total backoff
  // ---------------------------------------------------------------------------------------

  /** The delay granted for the last event of `h`, if it was a retried failure of `key`. */
  function Granted(p: RetryPolicy, h: seq<RetryEvent>, key: RetryKey): real
    requires h != []
  {
    var e := h[|h| - 1];
    if e.Failure? && e.key == key then
      var d := Decide(p, ReplayBook(p, h[..|h| - 1]), key, e.reason, e.random);
      if d.delay.Some? then d.delay.value else 0.0
    else 0.0
  }

  /** All delays granted to `key` since its last success. */
  function TotalDelay(p: RetryPolicy, h: seq<RetryEvent>, key: RetryKey): real {
    if h == [] || h[|h| - 1] == Success(key) then 0.0
    else TotalDelay(p, h[..|h| - 1], key) + Granted(p, h, key)
  }

  ghost predicate Draws(h: seq<RetryEvent>) {
    forall i :: 0 <= i < |h| && h[i].Failure? ==> 0.0 <= h[i].random < 1.0
  }

  /** The bound for `n` granted retries, before jitter:
      min(base * (2^n - 1), n * cap) (see `AllowanceClosed`). */
  function Allowance(p: RetryPolicy, n: nat): real {
    Min(Doubled(p, n) - p.baseDelay, Plateau(p, n))
  }

  function Plateau(p: RetryPolicy, n: nat): real {
    if n == 0 then 0.0 else Plateau(p, n - 1) + p.maxDelay
  }

  lemma {:induction false} PlateauClosed(p: RetryPolicy, n: nat)
    ensures Plateau(p, n) == n as real * p.maxDelay
  {
    if n > 0 {
      PlateauClosed(p, n - 1);
      Distribute(p.maxDelay, (n - 1) as real, 1.0);
    }
  }

  lemma AllowanceClosed(p: RetryPolicy, n: nat)
    ensures Allowance(p, n) == Min(p.baseDelay * (Pow2(n) - 1.0), n as real * p.maxDelay)
  {
    DoubledClosed(p, n);
    PlateauClosed(p, n);
    Distribute(p.baseDelay, Pow2(n), -1.0);
  }

  function Budget(p: RetryPolicy, n: nat): real {
    Allowance(p, n) * (1.0 + p.jitter)
  }

  function Retries(p: RetryPolicy, failures: nat): nat {
    if failures < p.maxAttempts then failures else if p.maxAttempts == 0 then 0 else p.maxAttempts - 1
  }

  lemma BudgetStep(p: RetryPolicy, n: nat)
    requires p.Valid()
    ensures Budget(p, n) + Capped(p, n) * (1.0 + p.jitter) <= Budget(p, n + 1)
  {
    var factor := 1.0 + p.jitter;
    Distribute(factor, Allowance(p, n), Capped(p, n));
    MulMono(Allowance(p, n) + Capped(p, n), Allowance(p, n + 1), factor);
  }

  lemma {:induction false} BudgetGrows(p: RetryPolicy, m: nat, n: nat)
    requires p.Valid() && m <= n
    ensures Budget(p, m) <= Budget(p, n)
    decreases n - m
  {
    if m < n {
      BudgetStep(p, m);
      CappedNondecreasing(p, m, m);
      MulMono(0.0, Capped(p, m), 1.0 + p.jitter);
      BudgetGrows(p, m + 1, n);
    }
  }

  lemma {:induction false} DelayWithinBudget(p: RetryPolicy, h: seq<RetryEvent>, key: RetryKey)
    requires p.Valid() && Draws(h)
    ensures TotalDelay(p, h, key) <= Budget(p, Retries(p, Failures(h, key)))
  {
    assert Budget(p, 0) == 0.0 by {
      assert Allowance(p, 0) == Min(0.0, 0.0);
    }
    if h != [] && h[|h| - 1] != Success(key) {
      var before := h[..|h| - 1];
      DelayWithinBudget(p, before, key);
      BookRefinesCounter(p, before, key);
      var e := h[|h| - 1];
      var n := Failures(before, key);
      if Failures(h, key) == n + 1 && n + 1 < p.maxAttempts {
        DelayWithinJitter(p, n, e.random);
        BudgetStep(p, n);
      }
    }
  }

  /** Over all its retries since the last success a message waits at most
      (1 + jitter) * min(base * (2^(max - 1) - 1), (max - 1) * cap). */
  lemma TotalBackoffBound(p: RetryPolicy, h: seq<RetryEvent>, key: RetryKey)
    requires p.Valid() && Draws(h) && p.maxAttempts >= 1
    ensures TotalDelay(p, h, key) <= Budget(p, p.maxAttempts - 1)
  {
    DelayWithinBudget(p, h, key);
    BudgetGrows(p, Retries(p, Failures(h, key)), p.maxAttempts - 1);
  }
}
