/**
 The backoff computation and the three retry loops whose recovery is not epoch-aware
 (api/lib/src/resiliency.rs).  A closure that is called repeatedly is a function of the
 iteration it is called in, so every behaviour of the environment is some argument.
 */
module Retry {
  import opened Common

  // ---- error classes ----

  predicate IsOpenSessionRetryable<T>(r: Result<T>) {
    r.Err? &&
    (r.error.IoAborted? || r.error.IoAbortInProgress? || r.error.DeviceNotReady?
     || r.error.CredentialsNotEstablished? || r.error.NonceMismatch? || r.error.PartitionNotProvisioned?)
  }

  predicate IsKeyOpRetryable(e: HsmError) {
    e.SessionNeedsRenegotiation? || e.PendingKeyGeneration? || e.IoAborted?
    || e.IoAbortInProgress? || e.DeviceNotReady? || e.KeyNotFound?
  }

  predicate IsKeyGenRetryable<T>(r: Result<T>) {
    r.Err? && IsKeyOpRetryable(r.error)
  }

  predicate IsAlreadyEstablished(e: HsmError) {
    e.KeyNotFound? || e.PartitionAlreadyProvisioned? || e.VaultAppLimitReached?
  }

  // ---- backoff ----

  function Pow2(n: nat): nat {
    if n == 0 then 1 else 2 * Pow2(n - 1)
  }

  /** The exponential part of the delay: a 64-bit saturating product with a shift of at most 63. */
  function BackoffMs(attempt: nat, base: nat): nat {
    Min(U64_MAX, base * Pow2(Min(attempt, 63)))
  }

  lemma {:induction false} Pow2Monotone(m: nat, n: nat)
    requires m <= n
    ensures 1 <= Pow2(m) <= Pow2(n)
    decreases n
  {
    if m < n {
      Pow2Monotone(m, n - 1);
    } else if n > 0 {
      Pow2Monotone(m - 1, n - 1);
    }
  }

  lemma MulMonotone(a: nat, x: nat, y: nat)
    requires x <= y
    ensures a * x <= a * y
  {
  }

  lemma BackoffBelow(attempt: nat, base: nat)
    ensures BackoffMs(attempt, base) <= base * Pow2(attempt)
  {
    var e := Min(attempt, 63);
    Pow2Monotone(e, attempt);
    MulMonotone(base, Pow2(e), Pow2(attempt));
  }

  /** The bound on the time slept once the attempt counter has reached `attempt`. */
  function SleepBound(attempt: nat, base: nat, jitterMax: nat): nat {
    Pow2Monotone(0, attempt);
    base * (Pow2(attempt) - 1) + attempt * jitterMax
  }

  lemma DoubledProduct(a: nat, p: nat, q: nat)
    requires 1 <= p && 2 * p <= q
    ensures a * (p - 1) + a * p <= a * (q - 1)
  {
    MulMonotone(a, 2 * p - 1, q - 1);
    assert a * (p - 1) + a * p == a * (2 * p - 1);
  }

  lemma NextProduct(m: nat, n: nat, a: nat, b: nat)
    requires m < n && b <= a
    ensures m * a + b <= n * a
  {
    MulMonotone(a, m + 1, n);
    assert a * (m + 1) == m * a + a;
  }

  /** Sleeping once at index `attempt` and moving past it keeps the bound, even if indices are skipped. */
  lemma SleepBoundStep(attempt: nat, next: nat, base: nat, jitterMax: nat, jitter: nat)
    requires attempt < next && jitter <= jitterMax
    ensures SleepBound(attempt, base, jitterMax) + BackoffMs(attempt, base) + jitter <= SleepBound(next, base, jitterMax)
  {
    BackoffBelow(attempt, base);
    Pow2Monotone(attempt + 1, next);
    Pow2Monotone(0, attempt);
    DoubledProduct(base, Pow2(attempt), Pow2(next));
    NextProduct(attempt, next, jitterMax, jitter);
  }

  lemma SleepBoundMonotone(m: nat, n: nat, base: nat, jitterMax: nat)
    requires m <= n
    ensures SleepBound(m, base, jitterMax) <= SleepBound(n, base, jitterMax)
  {
    Pow2Monotone(m, n);
    Pow2Monotone(0, m);
    MulMonotone(base, Pow2(m) - 1, Pow2(n) - 1);
    MulMonotone(jitterMax, m, n);
  }

  /** `apply_backoff`: the delay slept before the retry at index `attempt`. */
  function Delay(base: nat, jitter: nat -> nat): nat -> nat {
    (attempt: nat) => BackoffMs(attempt, base) + jitter(attempt)
  }

  /** The time slept in the first `k` retries. */
  function TotalSleep(delay: nat -> nat, k: nat): nat {
    if k == 0 then 0 else TotalSleep(delay, k - 1) + delay(k - 1)
  }

  /** A loop with at most `maxRetries` retries sleeps at most base·(2^maxRetries − 1) + maxRetries·jitter. */
  lemma {:induction false} TotalSleepBound(base: nat, jitterMax: nat, jitter: nat -> nat, k: nat, maxRetries: nat)
    requires k <= maxRetries && forall i :: 0 <= i < k ==> jitter(i) <= jitterMax
    ensures TotalSleep(Delay(base, jitter), k) <= SleepBound(k, base, jitterMax) <= SleepBound(maxRetries, base, jitterMax)
    decreases k
  {
    if k > 0 {
      TotalSleepBound(base, jitterMax, jitter, k - 1, k);
      SleepBoundStep(k - 1, k, base, jitterMax, jitter(k - 1));
    }
    SleepBoundMonotone(k, maxRetries, base, jitterMax);
  }

  predicate Overflows(attempt: nat, base: nat, jitter: nat) {
    BackoffMs(attempt, base) + jitter > U64_MAX
  }

  /**
   The 64-bit addition of backoff and jitter cannot overflow at any attempt of a loop with
   `maxRetries` retries when the longest delay fits; and at a given attempt some jitter overflows
   it exactly when the saturated product leaves less room than the largest jitter.
   */
  lemma DelayFits(maxRetries: nat, base: nat, jitterMax: nat, attempt: nat)
    requires maxRetries > 0 && attempt < maxRetries
    ensures base * Pow2(maxRetries - 1) + jitterMax <= U64_MAX ==>
      forall j: nat :: j <= jitterMax ==> !Overflows(attempt, base, j)
    ensures (exists j: nat :: j <= jitterMax && Overflows(attempt, base, j))
      <==> jitterMax > U64_MAX - BackoffMs(attempt, base)
  {
    BackoffBelow(attempt, base);
    Pow2Monotone(attempt, maxRetries - 1);
    MulMonotone(base, Pow2(attempt), Pow2(maxRetries - 1));
    if jitterMax > U64_MAX - BackoffMs(attempt, base) {
      assert Overflows(attempt, base, jitterMax);
    }
  }

  // ---- the fold all three loops compute ----

  /** What one retry iteration did: recovery failed and the operation was skipped, or it ran. */
  datatype Attempt<+T> = Skipped | Ran(res: Result<T>)

  /** The result in hand after `k` retries. */
  function ResultAfter<T>(first: Result<T>, later: nat -> Attempt<T>, k: nat): Result<T> {
    if k == 0 then first
    else match later(k - 1)
      case Skipped => ResultAfter(first, later, k - 1)
      case Ran(r) => r
  }

  /** How many times the operation has run after `k` retries. */
  function CallsAfter<T>(later: nat -> Attempt<T>, k: nat): nat {
    if k == 0 then 1 else CallsAfter(later, k - 1) + if later(k - 1).Ran? then 1 else 0
  }

  /** The loop stops after `k` retries: the first time the result is final or the budget is spent. */
  predicate StopsAt<T>(first: Result<T>, later: nat -> Attempt<T>, retryable: Result<T> -> bool, maxRetries: nat, k: nat) {
    && k <= maxRetries
    && (forall j :: 0 <= j < k ==> retryable(ResultAfter(first, later, j)))
    && (k == maxRetries || !retryable(ResultAfter(first, later, k)))
  }

  /** There is exactly one stopping point, so the fold is a function of the outcomes. */
  lemma {:induction false} StopsOnce<T>(first: Result<T>, later: nat -> Attempt<T>, retryable: Result<T> -> bool, maxRetries: nat)
    ensures exists k: nat :: StopsAt(first, later, retryable, maxRetries, k)
    ensures forall j: nat, k: nat :: StopsAt(first, later, retryable, maxRetries, j) && StopsAt(first, later, retryable, maxRetries, k) ==> j == k
  {
    if maxRetries == 0 {
      assert StopsAt(first, later, retryable, 0, 0);
    } else {
      StopsOnce(first, later, retryable, maxRetries - 1);
      var k: nat :| StopsAt(first, later, retryable, maxRetries - 1, k);
      if retryable(ResultAfter(first, later, k)) {
        assert StopsAt(first, later, retryable, maxRetries, k + 1);
      } else {
        assert StopsAt(first, later, retryable, maxRetries, k);
      }
    }
    forall j: nat, k: nat | StopsAt(first, later, retryable, maxRetries, j) && StopsAt(first, later, retryable, maxRetries, k)
      ensures j == k
    {
    }
  }

  /** The operation runs at least once and at most once per retry, and the result is that of the last run. */
  lemma {:induction false} FoldCalls<T>(first: Result<T>, later: nat -> Attempt<T>, k: nat)
    ensures 1 <= CallsAfter(later, k) <= k + 1
    ensures (ResultAfter(first, later, k) == first && CallsAfter(later, k) == 1)
      || (exists j :: 0 <= j < k && later(j) == Ran(ResultAfter(first, later, k)) && CallsAfter(later, j + 1) == CallsAfter(later, k))
  {
    if k > 0 {
      FoldCalls(first, later, k - 1);
      if later(k - 1).Ran? {
        assert later(k - 1) == Ran(ResultAfter(first, later, k));
      }
    }
  }

  // ---- execute_with_retry ----

  /** The error handed to the operation after `r`. */
  function ErrorOf<T>(r: Result<T>): Option<HsmError> {
    if r.Err? then Some(r.error) else None
  }

  /** The iterations of `execute_with_retry`: each call receives the error of the one before it. */
  function Chained<T>(op: (nat, Option<HsmError>) -> Result<T>, i: nat): Result<T> {
    if i == 0 then op(0, None) else op(i, ErrorOf(Chained(op, i - 1)))
  }

  function ChainedAttempt<T>(op: (nat, Option<HsmError>) -> Result<T>): nat -> Attempt<T> {
    (i: nat) => Ran(Chained(op, i + 1))
  }

  lemma ChainedStops<T>(op: (nat, Option<HsmError>) -> Result<T>, retryable: Result<T> -> bool, maxRetries: nat, k: nat)
    requires k <= maxRetries && (forall i :: 0 <= i < k ==> retryable(Chained(op, i)))
    requires k == maxRetries || !retryable(Chained(op, k))
    ensures StopsAt(Chained(op, 0), ChainedAttempt(op), retryable, maxRetries, k)
  {
    assert forall i: nat :: ResultAfter(Chained(op, 0), ChainedAttempt(op), i) == Chained(op, i);
  }

  /** The error handed to the `i`-th call. */
  function HandedTo<T>(op: (nat, Option<HsmError>) -> Result<T>, i: nat): Option<HsmError> {
    if i == 0 then None else ErrorOf(Chained(op, i - 1))
  }

  method ExecuteWithRetry<T>(op: (nat, Option<HsmError>) -> Result<T>, retryable: Result<T> -> bool,
                             maxRetries: nat, delay: nat -> nat)
    returns (result: Result<T>, handed: seq<Option<HsmError>>, slept: nat)
    ensures 1 <= |handed| <= maxRetries + 1
    ensures StopsAt(Chained(op, 0), ChainedAttempt(op), retryable, maxRetries, |handed| - 1)
    ensures result == Chained(op, |handed| - 1)
    ensures retryable(result) ==> |handed| == maxRetries + 1
    ensures forall i :: 0 <= i < |handed| ==> handed[i] == HandedTo(op, i)
    ensures slept == TotalSleep(delay, |handed| - 1)
  {
    var attempt := 0;
    result := op(0, None);
    handed := [None];
    slept := 0;
    while retryable(result) && attempt < maxRetries
      invariant attempt <= maxRetries && |handed| == attempt + 1
      invariant result == Chained(op, attempt)
      invariant forall i :: 0 <= i < attempt ==> retryable(Chained(op, i))
      invariant forall i :: 0 <= i <= attempt ==> handed[i] == HandedTo(op, i)
      invariant slept == TotalSleep(delay, attempt)
      decreases maxRetries - attempt
    {
      slept := slept + delay(attempt);
      var prev := ErrorOf(result);
      attempt := attempt + 1;
      result := op(attempt, prev);
      handed := handed + [prev];
    }
    ChainedStops(op, retryable, maxRetries, attempt);
  }

  // ---- execute_open_session_with_retry ----

  /** One retry of session opening: the operation runs only after a successful restore. */
  function OpenAttempt<T>(restoreOk: nat -> bool, op: nat -> Result<T>): nat -> Attempt<T> {
    (i: nat) => if restoreOk(i) then Ran(op(i + 1)) else Skipped
  }

  method ExecuteOpenSession<T>(op: nat -> Result<T>, restoreOk: nat -> bool, maxRetries: nat,
                               delay: nat -> nat)
    returns (result: Result<T>, calls: nat, restores: nat, slept: nat)
    ensures StopsAt(op(0), OpenAttempt(restoreOk, op), r => IsOpenSessionRetryable(r), maxRetries, restores)
    ensures result == ResultAfter(op(0), OpenAttempt(restoreOk, op), restores)
    ensures calls == CallsAfter(OpenAttempt(restoreOk, op), restores)
    ensures 1 <= calls <= maxRetries + 1 && restores <= maxRetries
    ensures IsOpenSessionRetryable(result) ==> restores == maxRetries
    ensures slept == TotalSleep(delay, restores)
  {
    ghost var later := OpenAttempt(restoreOk, op);
    result := op(0);
    calls, restores, slept := 1, 0, 0;
    var attempt := 0;
    while IsOpenSessionRetryable(result) && attempt < maxRetries
      invariant attempt <= maxRetries && restores == attempt
      invariant result == ResultAfter(op(0), later, attempt) && calls == CallsAfter(later, attempt)
      invariant forall i :: 0 <= i < attempt ==> IsOpenSessionRetryable(ResultAfter(op(0), later, i))
      invariant slept == TotalSleep(delay, attempt)
      decreases maxRetries - attempt
    {
      slept := slept + delay(attempt);
      restores := restores + 1;
      if !restoreOk(attempt) {
        attempt := attempt + 1;
        continue;
      }
      result := op(attempt + 1);
      calls := calls + 1;
      attempt := attempt + 1;
    }
    FoldCalls(op(0), later, attempt);
  }

  // ---- execute_key_gen_with_retry ----

  /** One retry of key generation: restore, then reopen the session, then run. */
  function GenAttempt<T>(restoreOk: nat -> bool, reopenOk: nat -> bool, op: nat -> Result<T>): nat -> Attempt<T> {
    (i: nat) => if restoreOk(i) && reopenOk(i) then Ran(op(i + 1)) else Skipped
  }

  method ExecuteKeyGen<T>(op: nat -> Result<T>, restoreOk: nat -> bool, reopenOk: nat -> bool, maxRetries: nat,
                          delay: nat -> nat)
    returns (result: Result<T>, calls: nat, restores: nat, slept: nat)
    ensures StopsAt(op(0), GenAttempt(restoreOk, reopenOk, op), r => IsKeyGenRetryable(r), maxRetries, restores)
    ensures result == ResultAfter(op(0), GenAttempt(restoreOk, reopenOk, op), restores)
    ensures calls == CallsAfter(GenAttempt(restoreOk, reopenOk, op), restores)
    ensures 1 <= calls <= maxRetries + 1 && restores <= maxRetries
    ensures IsKeyGenRetryable(result) ==> restores == maxRetries
    ensures slept == TotalSleep(delay, restores)
  {
    ghost var later := GenAttempt(restoreOk, reopenOk, op);
    result := op(0);
    calls, restores, slept := 1, 0, 0;
    var attempt := 0;
    while IsKeyGenRetryable(result) && attempt < maxRetries
      invariant attempt <= maxRetries && restores == attempt
      invariant result == ResultAfter(op(0), later, attempt) && calls == CallsAfter(later, attempt)
      invariant forall i :: 0 <= i < attempt ==> IsKeyGenRetryable(ResultAfter(op(0), later, i))
      invariant slept == TotalSleep(delay, attempt)
      decreases maxRetries - attempt
    {
      slept := slept + delay(attempt);
      restores := restores + 1;
      if !restoreOk(attempt) {
        attempt := attempt + 1;
        continue;
      }
      if !reopenOk(attempt) {
        attempt := attempt + 1;
        continue;
      }
      result := op(attempt + 1);
      calls := calls + 1;
      attempt := attempt + 1;
    }
    FoldCalls(op(0), later, attempt);
  }
}
