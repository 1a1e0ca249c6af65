/**
 The epoch-aware retry loop of key operations (`execute_key_op_with_retry`).  One pass of the loop
 is a function of the loop's own counters and of what the pass reads and gets back; the method is
 the loop itself, proved to follow those passes.  Every epoch is read afresh and other threads and
 processes may move it between any two reads, so each read of a pass is a value of its own.
 */
module KeyOpRetry {
  import opened Common
  import opened Retry

  /** One comparison of the epoch check: two reads, of the key's and of the partition's epoch. */
  datatype Reads = Reads(key: nat, part: nat)

  /**
   What happens in one pass: the reads of the two comparisons, how the operation ends, whether
   `restore_partition` succeeds, what session reopen reads (the partition, then the session without
   and with the session lock) and whether its device call succeeds, what key restore reads and
   whether its device call succeeds, and the jitter drawn.
   */
  datatype Pass<+T> = Pass(first: Reads, second: Reads, op: Result<T>, restoreOk: bool,
                           part: nat, sess: nat, guarded: nat, reopenOk: bool,
                           rekey: Reads, rekeyOk: bool, jitter: nat)

  /**
   The loop: `attempt` is its counter and `v2` the kind of its session.  The rest is measured:
   operation calls, time slept, passes, the epoch to which the last pass restored the key, if it
   did, and how often that was undone before the next pass looked.
   */
  datatype Loop = Loop(attempt: nat, v2: bool, calls: nat, slept: nat, passes: nat,
                       restored: Option<nat>, disturbed: nat)

  /** Why the loop stopped. */
  datatype Stop = Completed | StaleExhausted | KeyNewer

  datatype Status<+T> = Running(l: Loop) | Stopped(l: Loop, result: Result<T>, why: Stop)

  /** `reopen_session_if_needed` succeeds: the session is, or is brought, to the epoch read. */
  predicate Reopens<T>(v2: bool, e: Pass<T>) {
    e.sess == e.part || (e.sess < e.part && !v2 && (e.guarded == e.part || (e.guarded < e.part && e.reopenOk)))
  }

  predicate Rekeys<T>(e: Pass<T>) {
    e.rekey.key == e.rekey.part || e.rekeyOk
  }

  /** Phase 3, under the write barrier. */
  function Recover<T>(l: Loop, e: Pass<T>): Loop {
    if e.restoreOk && Reopens(l.v2, e) && Rekeys(e) then l.(restored := Some(e.rekey.part))
    else l.(attempt := l.attempt + 1, restored := None)
  }

  /** Between a key restore at epoch `at` and the next check the key went back or the partition on. */
  predicate Undone(at: nat, check: Reads) {
    !(check.part <= at <= check.key)
  }

  /** The state at the epoch check of phase 1. */
  function Enter<T>(l: Loop, e: Pass<T>): Loop {
    var undone := l.restored.Some? && Undone(l.restored.value, e.first);
    l.(passes := l.passes + 1, disturbed := l.disturbed + if undone then 1 else 0)
  }

  /** How phases 1 and 2 end: stop, or go on to recovery. */
  datatype Verdict<+T> = GoOn(l: Loop) | Halt(l: Loop, result: Result<T>, why: Stop)

  predicate Stale<T>(e: Pass<T>) {
    e.first.key < e.first.part
  }

  predicate FoundNewer<T>(e: Pass<T>) {
    !Stale(e) && e.second.key > e.second.part
  }

  /** Phases 1 and 2: the epoch check, the operation, and the decision what to do about its result. */
  function Judge<T>(l: Loop, e: Pass<T>, maxRetries: nat, delay: (nat, nat) -> nat): Verdict<T> {
    if Stale(e) then
      if l.attempt >= maxRetries then Halt(l, Err(RetryExhausted), StaleExhausted) else GoOn(l)
    else if FoundNewer(e) then Halt(l, Err(InternalError), KeyNewer)
    else
      var l1 := l.(calls := l.calls + 1);
      if e.op.Err? && IsKeyOpRetryable(e.op.error) && l.attempt < maxRetries then
        GoOn(l1.(attempt := l.attempt + 1, slept := l.slept + delay(l.attempt, e.jitter)))
      else Halt(l1, e.op, Completed)
  }

  /** One pass of the loop. */
  function OnePass<T>(l: Loop, e: Pass<T>, maxRetries: nat, delay: (nat, nat) -> nat): Status<T> {
    match Judge(Enter(l, e), e, maxRetries, delay)
    case GoOn(l1) => Running(Recover(l1, e))
    case Halt(l1, r, why) => Stopped(l1, r, why)
  }

  /** The loop after `n` passes. */
  function RunPasses<T>(l: Loop, env: nat -> Pass<T>, maxRetries: nat, delay: (nat, nat) -> nat, n: nat): Status<T> {
    if n == 0 then Running(l)
    else match RunPasses(l, env, maxRetries, delay, n - 1)
      case Running(l1) => OnePass(l1, env(n - 1), maxRetries, delay)
      case stopped => stopped
  }

  /** The loop's entry. */
  function Start(v2: bool): Loop {
    Loop(0, v2, 0, 0, 0, None, 0)
  }

  // ---- what every pass keeps, whatever it reads ----

  function JustRestored(l: Loop): nat {
    if l.restored.Some? then 1 else 0
  }

  predicate Going(l: Loop, maxRetries: nat) {
    && l.attempt <= maxRetries + 1
    && l.calls <= l.attempt && l.calls <= maxRetries
    && l.passes <= 2 * l.attempt + l.disturbed + JustRestored(l)
  }

  /** How the loop may stop in its last pass `e`. */
  ghost predicate Halted<T>(l: Loop, e: Pass<T>, result: Result<T>, why: Stop, maxRetries: nat) {
    && l.calls <= maxRetries + 1
    && l.attempt <= maxRetries + 1
    && l.passes <= 2 * l.attempt + l.disturbed + 2
    && (why == KeyNewer <==> FoundNewer(e)) && (why == KeyNewer ==> result == Err(InternalError))
    && (why == StaleExhausted <==> Stale(e))
    && (why == StaleExhausted ==> result == Err(RetryExhausted) && l.attempt >= maxRetries)
    && (why == Completed ==> l.calls >= 1 && result == e.op)
    && (why == Completed && result.Err? && IsKeyOpRetryable(result.error) ==> l.attempt >= maxRetries)
  }

  ghost predicate WithinBounds<T>(st: Status<T>, env: nat -> Pass<T>, maxRetries: nat, n: nat) {
    match st
    case Running(l) => Going(l, maxRetries) && l.passes == n
    case Stopped(l, r, why) => 0 < l.passes <= n && Halted(l, env(l.passes - 1), r, why, maxRetries)
  }

  /** Before recovery: within the budget, with a pass to spare if the operation was tried. */
  predicate RoomToRecover<T>(l: Loop, e: Pass<T>, maxRetries: nat) {
    && l.attempt <= maxRetries && l.calls <= l.attempt && l.calls <= maxRetries
    && l.passes <= 2 * l.attempt + l.disturbed + if Stale(e) then 1 else 0
  }

  lemma JudgeKeeps<T>(l: Loop, e: Pass<T>, maxRetries: nat, delay: (nat, nat) -> nat)
    requires Going(l, maxRetries)
    ensures
      match Judge(Enter(l, e), e, maxRetries, delay)
      case Halt(l1, r, why) => Halted(l1, e, r, why, maxRetries) && l1.passes == l.passes + 1
      case GoOn(l1) => RoomToRecover(l1, e, maxRetries) && l1.passes == l.passes + 1
  {
  }

  lemma PassKeeps<T>(l: Loop, e: Pass<T>, maxRetries: nat, delay: (nat, nat) -> nat)
    requires Going(l, maxRetries)
    ensures
      match OnePass(l, e, maxRetries, delay)
      case Running(l1) => Going(l1, maxRetries) && l1.passes == l.passes + 1
      case Stopped(l1, r, why) => Halted(l1, e, r, why, maxRetries) && l1.passes == l.passes + 1
  {
    JudgeKeeps(l, e, maxRetries, delay);
  }

  /**
   In every environment, with no assumption about any epoch it shows: the operation runs at most
   maxRetries+1 times; the attempt counter stays within maxRetries+1; a retryable error or
   `RetryExhausted` is returned only once the budget is spent; the loop reports a key newer than
   its partition exactly when its last pass read one in the second comparison; and the passes are
   bounded by the budget plus the number of restored keys that were found undone.
   */
  lemma {:induction false} KeyOpBounds<T>(v2: bool, env: nat -> Pass<T>, maxRetries: nat, delay: (nat, nat) -> nat, n: nat)
    ensures WithinBounds(RunPasses(Start(v2), env, maxRetries, delay, n), env, maxRetries, n)
  {
    if n > 0 {
      KeyOpBounds(v2, env, maxRetries, delay, n - 1);
      var prev := RunPasses(Start(v2), env, maxRetries, delay, n - 1);
      if prev.Running? {
        PassKeeps(prev.l, env(n - 1), maxRetries, delay);
      }
    }
  }

  /** `apply_backoff` with the jitter drawn in the pass. */
  function Delay(base: nat): (nat, nat) -> nat {
    (attempt: nat, jitter: nat) => BackoffMs(attempt, base) + jitter
  }

  predicate SleptWithin(l: Loop, maxRetries: nat, base: nat, jitterMax: nat) {
    l.slept <= SleepBound(Min(l.attempt, maxRetries), base, jitterMax)
  }

  /** A pass either does not sleep, or sleeps once at its attempt index and moves past it. */
  lemma PassSleeps<T>(l: Loop, e: Pass<T>, maxRetries: nat, delay: (nat, nat) -> nat)
    ensures
      var l1 := OnePass(l, e, maxRetries, delay).l;
      && l.attempt <= l1.attempt
      && (l1.slept == l.slept
          || (l.attempt < maxRetries && l.attempt < l1.attempt && l1.slept == l.slept + delay(l.attempt, e.jitter)))
  {
  }

  lemma PassSleepBound<T>(l: Loop, e: Pass<T>, maxRetries: nat, base: nat, jitterMax: nat)
    requires SleptWithin(l, maxRetries, base, jitterMax) && e.jitter <= jitterMax
    ensures SleptWithin(OnePass(l, e, maxRetries, Delay(base)).l, maxRetries, base, jitterMax)
  {
    PassSleeps(l, e, maxRetries, Delay(base));
    var l1 := OnePass(l, e, maxRetries, Delay(base)).l;
    SleepBoundMonotone(Min(l.attempt, maxRetries), Min(l1.attempt, maxRetries), base, jitterMax);
    if l1.slept != l.slept {
      SleepBoundStep(l.attempt, Min(l1.attempt, maxRetries), base, jitterMax, e.jitter);
    }
  }

  /**
   In every environment the time slept stays within the common bound, although failed recoveries
   skip attempt indices.
   */
  lemma {:induction false} KeyOpSleepBound<T>(v2: bool, env: nat -> Pass<T>, maxRetries: nat, base: nat, jitterMax: nat, n: nat)
    requires forall i :: env(i).jitter <= jitterMax
    ensures
      var l1 := RunPasses(Start(v2), env, maxRetries, Delay(base), n).l;
      SleptWithin(l1, maxRetries, base, jitterMax) && l1.slept <= SleepBound(maxRetries, base, jitterMax)
  {
    if n > 0 {
      KeyOpSleepBound(v2, env, maxRetries, base, jitterMax, n - 1);
      var prev := RunPasses(Start(v2), env, maxRetries, Delay(base), n - 1);
      if prev.Running? {
        PassSleepBound(prev.l, env(n - 1), maxRetries, base, jitterMax);
      }
    }
    var l1 := RunPasses(Start(v2), env, maxRetries, Delay(base), n).l;
    SleepBoundMonotone(Min(l1.attempt, maxRetries), maxRetries, base, jitterMax);
  }

  // ---- the epoch check ----

  /** The pass reaches the operation. */
  predicate Calls<T>(l: Loop, e: Pass<T>, maxRetries: nat, delay: (nat, nat) -> nat) {
    OnePass(l, e, maxRetries, delay).l.calls == l.calls + 1
  }

  /**
   The operation runs exactly when the first comparison does not find the key older and the second
   does not find it newer.  When both comparisons read the same values that is exactly when the
   key is current; a partition epoch that moves on in between lets the operation run on a key
   that is older than the epoch just read.
   */
  lemma OperationRunsIff<T>(l: Loop, e: Pass<T>, maxRetries: nat, delay: (nat, nat) -> nat)
    ensures Calls(l, e, maxRetries, delay) <==> e.first.key >= e.first.part && e.second.key <= e.second.part
    ensures e.first == e.second ==> (Calls(l, e, maxRetries, delay) <==> e.first.key == e.first.part)
    ensures e.second.key == e.first.key == e.first.part < e.second.part ==> Calls(l, e, maxRetries, delay)
  {
  }

  // ---- recovery and termination ----

  /**
   After a stale pass that cost no attempt, the session is at the epoch reopen read and the key at
   the epoch key restore read.  If that is not undone before the next check, the next pass does
   not recover again: it runs the operation, or finds the key newer in its second comparison.
   */
  lemma RecoveryReachesOperation<T>(l: Loop, e: Pass<T>, next: Pass<T>, maxRetries: nat, delay: (nat, nat) -> nat)
    requires Stale(e) && l.attempt < maxRetries && OnePass(l, e, maxRetries, delay).l.attempt == l.attempt
    ensures
      var l1 := OnePass(l, e, maxRetries, delay).l;
      && e.restoreOk && Reopens(l.v2, e) && Rekeys(e) && l1.restored == Some(e.rekey.part) && l1.calls == l.calls
      && (!Undone(e.rekey.part, next.first) ==> (Calls(l1, next, maxRetries, delay) <==> next.second.key <= next.second.part))
  {
  }

  /** A session of the second kind is never reopened, so each recovery that finds it stale costs an attempt. */
  lemma V2RecoveryCosts<T>(l: Loop, e: Pass<T>)
    requires l.v2 && e.sess != e.part
    ensures Recover(l, e).attempt == l.attempt + 1
  {
  }

  /** So with a session of the second kind that stays stale the loop ends within maxRetries+2 passes. */
  lemma {:induction false} V2Exhausts<T>(env: nat -> Pass<T>, maxRetries: nat, delay: (nat, nat) -> nat, n: nat)
    requires forall i :: env(i).sess != env(i).part
    ensures
      var st := RunPasses(Start(true), env, maxRetries, delay, n);
      st.Running? ==> st.l.v2 && n <= st.l.attempt <= maxRetries + 1
  {
    if n > 0 {
      V2Exhausts(env, maxRetries, delay, n - 1);
      var prev := RunPasses(Start(true), env, maxRetries, delay, n - 1);
      if prev.Running? {
        V2RecoveryCosts(prev.l, env(n - 1));
      }
    }
  }

  /** An environment that moves the epoch before every pass and lets every recovery succeed. */
  function Hostile<T>(op: Result<T>): nat -> Pass<T> {
    (i: nat) => Pass(Reads(i, i + 1), Reads(i, i + 1), op, true, i + 1, i, i, true, Reads(i, i + 1), true, 0)
  }

  /**
   Without a bound on outside epoch moves the loop need not end: it can be kept recovering for
   ever, never running the operation and never spending an attempt.
   */
  lemma {:induction false} OutsideMovesStarve<T>(op: Result<T>, maxRetries: nat, delay: (nat, nat) -> nat, n: nat)
    requires maxRetries > 0
    ensures
      var st := RunPasses(Start(false), Hostile(op), maxRetries, delay, n);
      && st.Running? && st.l.calls == 0 && st.l.attempt == 0 && !st.l.v2
      && st.l.restored == (if n == 0 then None else Some(n)) && st.l.disturbed == (if n == 0 then 0 else n - 1)
  {
    if n > 0 {
      OutsideMovesStarve(op, maxRetries, delay, n - 1);
    }
  }

  /** Passes left, after `n`, before which a restored key may still be undone. */
  function Remaining(settled: nat, n: nat): nat {
    if n < settled then settled - n else 0
  }

  /** Phases 1 and 2 of the loop: the read barrier is held only inside phase 1. */
  method RunOperation<T>(l: Loop, e: Pass<T>, maxRetries: nat, delay: (nat, nat) -> nat) returns (v: Verdict<T>)
    ensures v == Judge(l, e, maxRetries, delay)
  {
    var attempt, calls, slept := l.attempt, l.calls, l.slept;
    var res: Option<Result<T>> := None;
    if e.first.key < e.first.part {
    } else if e.second.key > e.second.part {
      return Halt(l, Err(InternalError), KeyNewer);
    } else {
      calls := calls + 1;
      res := Some(e.op);
    }
    match res {
      case Some(Ok(value)) =>
        return Halt(l.(calls := calls), Ok(value), Completed);
      case Some(Err(err)) =>
        if IsKeyOpRetryable(err) && attempt < maxRetries {
          slept := slept + delay(attempt, e.jitter);
          attempt := attempt + 1;
        } else {
          return Halt(l.(calls := calls), Err(err), Completed);
        }
      case None =>
        if attempt >= maxRetries {
          return Halt(l, Err(RetryExhausted), StaleExhausted);
        }
    }
    v := GoOn(l.(attempt := attempt, calls := calls, slept := slept));
  }

  /** Session reopen: the check without the lock, the kind of the session, and the check under the lock. */
  method RunReopen<T>(v2: bool, e: Pass<T>) returns (ok: bool)
    ensures ok == Reopens(v2, e)
  {
    if e.sess == e.part {
      return true;
    } else if e.sess > e.part || v2 {
      return false;
    }
    if e.guarded == e.part {
      return true;
    } else if e.guarded > e.part {
      return false;
    }
    ok := e.reopenOk;
  }

  /** Phase 3 of the loop, under the write barrier: restore the partition, the session and the key. */
  method RunRecovery<T>(l: Loop, e: Pass<T>) returns (l': Loop)
    ensures l' == Recover(l, e)
  {
    if !e.restoreOk {
      return l.(attempt := l.attempt + 1, restored := None);
    }
    var reopened := RunReopen(l.v2, e);
    if !reopened {
      return l.(attempt := l.attempt + 1, restored := None);
    }
    if e.rekey.key != e.rekey.part && !e.rekeyOk {
      return l.(attempt := l.attempt + 1, restored := None);
    }
    l' := l.(restored := Some(e.rekey.part));
  }

  /** No key restored in pass `i` is undone before pass `i + 1` looks. */
  predicate Calm<T>(env: nat -> Pass<T>, i: nat) {
    !Undone(env(i).rekey.part, env(i + 1).first)
  }

  /** Nothing is still restored, or the next check finds it undone. */
  function Loose<T>(l: Loop, env: nat -> Pass<T>): nat {
    if l.restored.Some? && !Undone(l.restored.value, env(l.passes).first) then 0 else 1
  }

  /** A continuing pass makes progress unless it leaves behind a restored key that is undone. */
  lemma PassProgress<T>(l: Loop, env: nat -> Pass<T>, maxRetries: nat, delay: (nat, nat) -> nat)
    requires OnePass(l, env(l.passes), maxRetries, delay).Running? && Calm(env, l.passes)
    ensures
      var l1 := OnePass(l, env(l.passes), maxRetries, delay).l;
      l1.attempt > l.attempt || (l1.attempt == l.attempt && Loose(l1, env) < Loose(l, env))
  {
  }

  /** One pass of the loop: operation, verdict, recovery. */
  method RunPass<T>(l: Loop, e: Pass<T>, maxRetries: nat, delay: (nat, nat) -> nat) returns (st: Status<T>)
    ensures st == OnePass(l, e, maxRetries, delay)
  {
    var v := RunOperation(Enter(l, e), e, maxRetries, delay);
    match v {
      case Halt(l1, r, w) => return Stopped(l1, r, w);
      case GoOn(l1) =>
        var l2 := RunRecovery(l1, e);
        return Running(l2);
    }
  }

  lemma NextPass<T>(v2: bool, env: nat -> Pass<T>, maxRetries: nat, delay: (nat, nat) -> nat, l: Loop, st: Status<T>)
    requires RunPasses(Start(v2), env, maxRetries, delay, l.passes) == Running(l) && Going(l, maxRetries)
    requires st == OnePass(l, env(l.passes), maxRetries, delay)
    ensures RunPasses(Start(v2), env, maxRetries, delay, l.passes + 1) == st && st.l.passes == l.passes + 1
    ensures st.Stopped? ==> Halted(st.l, env(l.passes), st.result, st.why, maxRetries)
    ensures st.Running? ==> Going(st.l, maxRetries)
    ensures st.Running? && Calm(env, l.passes) ==>
      st.l.attempt > l.attempt || (st.l.attempt == l.attempt && Loose(st.l, env) < Loose(l, env))
  {
    PassKeeps(l, env(l.passes), maxRetries, delay);
    if st.Running? && Calm(env, l.passes) {
      PassProgress(l, env, maxRetries, delay);
    }
  }

  /** The next pass of a loop that is still going. */
  method Advance<T>(v2: bool, env: nat -> Pass<T>, maxRetries: nat, delay: (nat, nat) -> nat, l: Loop) returns (st: Status<T>)
    requires RunPasses(Start(v2), env, maxRetries, delay, l.passes) == Running(l) && Going(l, maxRetries)
    ensures st.l.passes == l.passes + 1 && RunPasses(Start(v2), env, maxRetries, delay, st.l.passes) == st
    ensures st.Stopped? ==> Halted(st.l, env(l.passes), st.result, st.why, maxRetries)
    ensures st.Running? ==> Going(st.l, maxRetries)
    ensures st.Running? && Calm(env, l.passes) ==>
      st.l.attempt > l.attempt || (st.l.attempt == l.attempt && Loose(st.l, env) < Loose(l, env))
  {
    st := RunPass(l, env(l.passes), maxRetries, delay);
    NextPass(v2, env, maxRetries, delay, l, st);
  }

  /**
   The loop.  It ends in every environment in which, from some pass on, restored keys are not
   undone before the next pass looks, by the lexicographic measure (passes before that, attempts
   left, whether the last restore holds).
   */
  method ExecuteKeyOp<T>(v2: bool, env: nat -> Pass<T>, maxRetries: nat, delay: (nat, nat) -> nat, ghost settled: nat)
    returns (result: Result<T>, last: Loop, why: Stop)
    requires maxRetries < U32_MAX
    requires forall i :: i >= settled ==> Calm(env, i)
    ensures RunPasses(Start(v2), env, maxRetries, delay, last.passes) == Stopped(last, result, why)
    ensures last.passes > 0 && Halted(last, env(last.passes - 1), result, why, maxRetries) && last.attempt <= U32_MAX
  {
    var l := Start(v2);
    while true
      invariant RunPasses(Start(v2), env, maxRetries, delay, l.passes) == Running(l) && Going(l, maxRetries)
      decreases Remaining(settled, l.passes), maxRetries + 1 - l.attempt, Loose(l, env)
    {
      var st := Advance(v2, env, maxRetries, delay, l);
      match st {
        case Stopped(l1, r, w) => return r, l1, w;
        case Running(l1) => l := l1;
      }
    }
  }
}
