/** What the invariants of the protocol say about every run. */
module ProtocolTheorems {
  import opened Common
  import opened Epoch
  import opened LockOrder
  import opened Trace
  import opened Protocol
  import opened ProtocolLocks
  import opened ProtocolEpochs

  // ---- epoch conservation ----

  /**
   Over any run the stored epoch is its initial value plus the number of restores whose epoch
   write was published, saturating at the word size.  Below saturation it counts every restore
   that entered the success arm, in all processes, exactly when none of them was given up, none
   lost its write and none is still under way.
   */
  lemma EpochConservation(run: seq<State>, sched: seq<Label>, n: nat)
    requires IsRun(run, sched) && n < |run|
    ensures
      var s := run[n];
      var base := Val(run[0].stored);
      && Val(s.stored) == Min(U64_MAX, base + Count(s.log, IsPublished))
      && (base + Count(s.log, IsEntered) <= U64_MAX ==>
            (Val(s.stored) == base + Count(s.log, IsEntered)
             <==> Count(s.log, IsLost) == 0 && Count(s.log, IsGaveUp) == 0 && !Open(s.log)))
  {
    RunInv(run, sched, n);
    Conservation(run[n].log, run[0].stored);
    ArmsSplit(run[n].log, run[0].stored);
  }

  /** A thread of process `p` has moved memory and is about to write the store. */
  predicate PendingWrite(s: State, p: nat) {
    exists t :: 0 <= t < |s.threads| && s.threads[t].proc == p && Writing(s.threads[t])
  }

  /** A pending write shows in the history, and the other way round. */
  lemma PendingInLog(s: State, base: Option<nat>, p: nat)
    requires Inv(s, base)
    ensures PendingWrite(s, p) <==> Writes(s.log, p)
  {
    if PendingWrite(s, p) {
      var t :| 0 <= t < |s.threads| && s.threads[t].proc == p && Writing(s.threads[t]);
      assert Fits(s, s.threads[t]) && ThreadInv(s, t);
    }
    if Writes(s.log, p) {
      assert Writing(s.threads[s.log[|s.log| - 1].thread]);
    }
  }

  /**
   No in-memory epoch is ever more than one ahead of the store; and while no epoch write was lost
   it is not ahead at all, except between a process's own memory and store updates.
   */
  lemma MemoryBehindStore(run: seq<State>, sched: seq<Label>, n: nat, p: nat)
    requires IsRun(run, sched) && n < |run| && p < |run[n].procs|
    ensures Mem(run[n], p) <= Val(run[n].stored) + 1
    ensures Clean(run[n].log) && !PendingWrite(run[n], p) ==> Mem(run[n], p) <= Val(run[n].stored)
  {
    RunInv(run, sched, n);
    MemBounded(run[n].log, run[0].stored, p);
    PendingInLog(run[n], run[0].stored, p);
    if Clean(run[n].log) {
      MemBehind(run[n].log, run[0].stored, p);
    }
  }

  /** No two restores whose write was published were given the same epoch below the word size. */
  lemma RestoresGetDistinctEpochs(run: seq<State>, sched: seq<Label>, n: nat, i: nat, j: nat)
    requires IsRun(run, sched) && n < |run| && i < j < |run[n].log|
    requires Published(run[n].log[i]) && Published(run[n].log[j])
    ensures run[n].log[i].epoch < run[n].log[j].epoch || run[n].log[i].epoch == U64_MAX
  {
    RunInv(run, sched, n);
    PublishedGrow(run[n].log, run[0].stored, i, j);
  }

  lemma StepGuaranteed(s: State, t: nat, c: Choice, s': State, base: Option<nat>)
    requires Inv(s, base) && Step(s, t, c, s')
    ensures Guarantee(s, t, s')
  {
    StepEffect(s, t, c, s', base);
    ApplyGuarantee(s, t, Plan(s, s.threads[t], c).eff, s', base);
  }

  lemma HistoryStep(run: seq<State>, sched: seq<Label>, n: nat)
    requires IsRun(run, sched) && n < |sched|
    ensures run[n].log <= run[n + 1].log && |run[n].procs| == |run[n + 1].procs|
  {
    RunInv(run, sched, n);
    StepGuaranteed(run[n], sched[n].thread, sched[n].choice, run[n + 1], run[0].stored);
  }

  lemma {:induction false} HistoryGrows(run: seq<State>, sched: seq<Label>, m: nat, n: nat)
    requires IsRun(run, sched) && m <= n < |run|
    ensures run[m].log <= run[n].log && |run[m].procs| == |run[n].procs|
    decreases n - m
  {
    if m < n {
      HistoryGrows(run, sched, m, n - 1);
      HistoryStep(run, sched, n - 1);
    }
  }

  /** In-memory epochs never go backwards in a run in which no epoch write was lost. */
  lemma MemoryMonotone(run: seq<State>, sched: seq<Label>, m: nat, n: nat, p: nat)
    requires IsRun(run, sched) && m <= n < |run| && p < |run[m].procs| && Clean(run[n].log)
    ensures p < |run[n].procs| && Mem(run[m], p) <= Mem(run[n], p)
  {
    HistoryGrows(run, sched, m, n);
    RunInv(run, sched, m);
    RunInv(run, sched, n);
    var a, b := run[m].log, run[n].log;
    assert b[..|a|] == a && b[..|b|] == b;
    MemGrows(b, run[0].stored, p, |a|, |b|);
  }

  // ---- how often one snapshot is used ----

  /**
   After a restore that entered the success arm, wrote the backup masking key, read the stored
   epoch and published the next one, with memory not ahead of the store when it began, every later
   restore of the process enters the success arm from a later snapshot, whatever else fails.
   */
  lemma OneInitPerSnapshot(run: seq<State>, sched: seq<Label>, n: nat, i: nat, j: nat)
    requires IsRun(run, sched) && n < |run| && i < j < |run[n].log|
    requires run[n].log[i].Entered? && run[n].log[j].Entered? && run[n].log[i].proc == run[n].log[j].proc
    requires Completed(run[n].log, run[0].stored, i) && Val(StoredAfter(run[n].log[..i], run[0].stored)) < U64_MAX
    ensures run[n].log[i].snap < run[n].log[j].snap
  {
    RunInv(run, sched, n);
    CompletedOnce(run[n].log, run[0].stored, i, j);
  }

  /**
   Exactly when the success arm is entered again from the same snapshot, while no write was lost:
   nothing in between moved the memory of the process off it.  An earlier restore that moved
   memory rules that out below saturation, so it must have been given up.
   */
  lemma SameSnapshotIff(run: seq<State>, sched: seq<Label>, n: nat, i: nat, j: nat)
    requires IsRun(run, sched) && n < |run| && i < j < |run[n].log| && Clean(run[n].log)
    requires run[n].log[i].Entered? && run[n].log[j].Entered? && run[n].log[i].proc == run[n].log[j].proc
    ensures
      var log := run[n].log;
      && (log[i].snap == log[j].snap <==> forall k | i < k < j && Moves(log[k], log[i].proc) :: log[k].epoch == log[i].snap)
      && (log[i].snap == log[j].snap && Val(StoredAfter(log[..i], run[0].stored)) < U64_MAX ==>
            log[i + 1] == GaveUp(log[i].thread, log[i].proc, log[i].snap))
  {
    var log, base := run[n].log, run[0].stored;
    RunInv(run, sched, n);
    Prefix(log, base, j);
    SnapshotAgainIff(log, base, i, j);
    EntryFollowed(log, base, i);
    Around(log, base, i);
    Around(log, base, i + 1);
    MemBehind(log[..i], base, log[i].proc);
  }

  /** A restore whose snapshot a completed restore has used skips the device call and reports success. */
  lemma LateRestoreSkips(run: seq<State>, sched: seq<Label>, n: nat, t: nat, i: nat, c: Choice)
    requires IsRun(run, sched) && n < |run|
    requires t < |run[n].threads| && run[n].threads[t].pc == Rs(RsCheck)
    requires i < |run[n].log| && run[n].log[i].Entered? && run[n].log[i].proc == run[n].threads[t].proc
    requires run[n].log[i].snap == run[n].threads[t].snap
    requires Completed(run[n].log, run[0].stored, i) && Val(StoredAfter(run[n].log[..i], run[0].stored)) < U64_MAX
    ensures
      var th := run[n].threads[t];
      Fits(run[n], th) && Plan(run[n], th, c) == Move(th.(pc := AfterRestore(th)), NoEffect)
  {
    var s, log, base := run[n], run[n].log, run[0].stored;
    RunInv(run, sched, n);
    assert Fits(s, s.threads[t]);
    CompletedMoves(log, base, i);
    MemAbove(log, base, log[i].proc, log[i + 2].epoch, i + 3, |log|);
    assert log[..|log|] == log;
  }

  // ---- sessions and keys ----

  /** No session or key is newer than its partition while no epoch write was lost. */
  lemma NeverNewer(run: seq<State>, sched: seq<Label>, n: nat)
    requires IsRun(run, sched) && n < |run| && Clean(run[n].log)
    ensures forall i :: 0 <= i < |run[n].sessions| ==>
      run[n].sessions[i].proc < |run[n].procs| && run[n].sessions[i].epoch <= Mem(run[n], run[n].sessions[i].proc)
    ensures forall k :: 0 <= k < |run[n].keys| ==>
      run[n].keys[k].proc < |run[n].procs| && run[n].keys[k].epoch <= Mem(run[n], run[n].keys[k].proc)
  {
    var s := run[n];
    RunInv(run, sched, n);
    forall i | 0 <= i < |s.sessions| ensures s.sessions[i].proc < |s.procs| && s.sessions[i].epoch <= Mem(s, s.sessions[i].proc) {
      assert SessionInv(s, i);
    }
    forall k | 0 <= k < |s.keys| ensures s.keys[k].proc < |s.procs| && s.keys[k].epoch <= Mem(s, s.keys[k].proc) {
      assert KeyInv(s, k);
    }
  }

  /**
   The thread's next step reports that a session or key is newer than its partition.  Each of the
   four places compares what it read at different moments.
   */
  predicate FindsNewer(s: State, th: Thread)
    requires Fits(s, th)
  {
    match th.pc
    case Ro(pc) => (pc.RoSession? || pc.RoGuard?) && s.sessions[th.task.sess].epoch > th.cur
    case Op(pc) => pc.OpCompareNew? && th.cur > Mem(s, th.proc)
    case Dl(pc) => pc.DlCompare? && s.keys[th.task.key].epoch > Mem(s, th.proc)
    case _ => false
  }

  /** None of the four "newer than the partition" errors is ever reported while no write was lost. */
  lemma NewerErrorsUnreachable(run: seq<State>, sched: seq<Label>, n: nat, t: nat)
    requires IsRun(run, sched) && n < |run| && t < |run[n].threads| && Clean(run[n].log)
    ensures Fits(run[n], run[n].threads[t]) && !FindsNewer(run[n], run[n].threads[t])
  {
    var s := run[n];
    RunInv(run, sched, n);
    FactsFor(s, t, run[0].stored);
    assert ThreadInv(s, t);
    if s.threads[t].pc.Dl? {
      assert KeyInv(s, s.threads[t].task.key);
    }
  }

  /**
   The double check under the session lock never finds the session already reopened or newer:
   the barrier keeps every other reopen of the process out.  This holds whatever writes fail.
   */
  lemma GuardFindsStale(run: seq<State>, sched: seq<Label>, n: nat, t: nat)
    requires IsRun(run, sched) && n < |run|
    requires t < |run[n].threads| && run[n].threads[t].pc == Ro(RoGuard)
    ensures
      var th := run[n].threads[t];
      TaskSess(th.task) < |run[n].sessions| && run[n].sessions[TaskSess(th.task)].epoch < th.cur
  {
    RunInv(run, sched, n);
    assert Fits(run[n], run[n].threads[t]) && ThreadInv(run[n], t);
  }

  /** For each session and epoch at most one open or reopen succeeds, whatever races or fails. */
  lemma OneReopenPerEpoch(run: seq<State>, sched: seq<Label>, n: nat, i: nat, j: nat)
    requires IsRun(run, sched) && n < |run| && i < j < |run[n].issued| && run[n].issued[i].sess == run[n].issued[j].sess
    ensures run[n].issued[i].epoch < run[n].issued[j].epoch
  {
    RunInv(run, sched, n);
  }

  /**
   Although the masking key of a reopen is stored after the session lock was released: whenever no
   thread is about to store one, the session carries the epoch and the key of its last reopen.
   */
  lemma LastReopenWins(run: seq<State>, sched: seq<Label>, n: nat, i: nat)
    requires IsRun(run, sched) && n < |run| && i < |run[n].sessions| && !PendingBmk(run[n].threads, i)
    ensures LastIssue(run[n].issued, i) == Some(Issue(i, run[n].sessions[i].epoch, run[n].sessions[i].bmk))
  {
    RunInv(run, sched, n);
    assert CarriesIssue(run[n], i);
    LastIssueFor(run[n].issued, i);
  }

  lemma {:induction false} LastIssueFor(issued: seq<Issue>, i: nat)
    ensures LastIssue(issued, i).Some? ==> LastIssue(issued, i).value.sess == i
  {
    if issued != [] {
      LastIssueFor(issued[..|issued| - 1], i);
    }
  }

  // ---- recovery ----

  /**
   When recovery has completed, the session and the key carry the epochs recovery read, in order,
   and none is ahead of memory; if nobody else moved an epoch meanwhile, all four are equal.
   */
  lemma RecoveryCoherence(run: seq<State>, sched: seq<Label>, n: nat, t: nat)
    requires IsRun(run, sched) && n < |run| && Clean(run[n].log)
    requires t < |run[n].threads| && run[n].threads[t].pc == Rk(RkDone)
    ensures
      var s := run[n];
      var th := s.threads[t];
      && Fits(s, th)
      && s.sessions[th.task.sess].epoch <= s.keys[th.task.key].epoch <= Mem(s, th.proc)
      && (Quiet(s, t) ==>
            s.sessions[th.task.sess].epoch == s.keys[th.task.key].epoch == Mem(s, th.proc) == Val(s.stored))
  {
    RunInv(run, sched, n);
    assert Fits(run[n], run[n].threads[t]) && ThreadInv(run[n], t);
  }

  // ---- the epoch an operation runs under ----

  /**
   At a key operation's device call the key still has the epoch that was checked.  That epoch is
   the partition's exactly when no event since the check moved the memory of the process off it,
   and only session opening and initialisation, which do not take the barrier, can have done so.
   */
  lemma OperationEpoch(run: seq<State>, sched: seq<Label>, n: nat, t: nat)
    requires IsRun(run, sched) && n < |run| && t < |run[n].threads| && run[n].threads[t].pc == Op(OpDevice)
    ensures
      var s := run[n];
      var th := s.threads[t];
      && Fits(s, th) && s.keys[th.task.key].epoch == th.cur && NoRecoverySince(s.log, th.mark, th.proc)
      && (Clean(s.log) ==>
            (s.keys[th.task.key].epoch == Mem(s, th.proc)
             <==> forall k | th.mark <= k < |s.log| && Moves(s.log[k], th.proc) :: s.log[k].epoch == th.cur))
  {
    var s := run[n];
    RunInv(run, sched, n);
    assert Fits(s, s.threads[t]) && ThreadInv(s, t);
    if Clean(s.log) {
      assert s.log[..|s.log|] == s.log;
      SameMemIff(s.log, run[0].stored, s.threads[t].proc, s.threads[t].mark, |s.log|);
    }
  }

  // ---- handles do not move under an operation ----

  /** Between the start of a key operation's epoch check and the end of its device call. */
  predicate InOperation(th: Thread) {
    th.pc.Op? && BarrierR(th) in Holds(th)
  }

  /** No thread of the process is about to reopen a session, restore a key or retry a key generation. */
  predicate NobodyReassigns(s: State, p: nat) {
    forall u :: 0 <= u < |s.threads| && s.threads[u].proc == p ==>
      !s.threads[u].pc.Ro? && !s.threads[u].pc.Rk? && s.threads[u].pc != Gn(GnDevice(true))
  }

  lemma OperationExcludes(s: State, t: nat)
    requires MutEx(s) && AllFit(s) && t < |s.threads| && InOperation(s.threads[t])
    ensures NobodyReassigns(s, s.threads[t].proc)
  {
    forall u | 0 <= u < |s.threads| && s.threads[u].proc == s.threads[t].proc
      ensures !s.threads[u].pc.Ro? && !s.threads[u].pc.Rk? && s.threads[u].pc != Gn(GnDevice(true))
    {
      assert Fits(s, s.threads[u]);
      if u != t && BarrierW(s.threads[u]) in Holds(s.threads[u]) {
        BarrierExcludes(s, u, t);
      }
    }
  }

  /** Every session and key of process `p` that exists in `s` has the same epoch in `s'`. */
  predicate HandlesStay(s: State, s': State, p: nat) {
    && |s.sessions| <= |s'.sessions| && |s.keys| <= |s'.keys|
    && (forall i :: 0 <= i < |s.sessions| && s.sessions[i].proc == p ==>
          s'.sessions[i].proc == p && s'.sessions[i].epoch == s.sessions[i].epoch)
    && (forall k :: 0 <= k < |s.keys| && s.keys[k].proc == p ==>
          s'.keys[k].proc == p && s'.keys[k].epoch == s.keys[k].epoch)
  }

  /** Handles of a process move only under its barrier. */
  lemma HandlesStayOneStep(s: State, u: nat, s': State, t: nat)
    requires MutEx(s) && AllFit(s) && u < |s.threads| && Guarantee(s, u, s')
    requires t < |s.threads| && InOperation(s.threads[t])
    ensures HandlesStay(s, s', s.threads[t].proc)
  {
    if BarrierW(s.threads[u]) in Holds(s.threads[u]) && s.threads[u].proc == s.threads[t].proc {
      assert Fits(s, s.threads[u]) && u != t;
      BarrierExcludes(s, u, t);
    }
    assert forall i :: 0 <= i < |s.sessions| && s.sessions[i].proc == s.threads[t].proc ==> SessionKept(s, s', i);
    assert forall k :: 0 <= k < |s.keys| && s.keys[k].proc == s.threads[t].proc ==> KeyKept(s, s', k);
  }

  lemma HandlesStayTrans(a: State, b: State, c: State, p: nat)
    requires HandlesStay(a, b, p) && HandlesStay(b, c, p)
    ensures HandlesStay(a, c, p)
  {
  }

  lemma OperationStep(run: seq<State>, sched: seq<Label>, t: nat, n: nat)
    requires IsRun(run, sched) && n < |run| && t < |run[n].threads| && InOperation(run[n].threads[t])
    ensures NobodyReassigns(run[n], run[n].threads[t].proc)
    ensures n + 1 < |run| ==> HandlesStay(run[n], run[n + 1], run[n].threads[t].proc)
  {
    RunInv(run, sched, n);
    OperationExcludes(run[n], t);
    if n + 1 < |run| {
      var l := sched[n];
      StepGuaranteed(run[n], l.thread, l.choice, run[n + 1], run[0].stored);
      HandlesStayOneStep(run[n], l.thread, run[n + 1], t);
    }
  }

  /**
   ABA safety over every run: as long as a thread stays between its epoch check and the end of
   its device call, no session of its process is reopened and no key of its process is restored,
   whatever the other threads do.
   */
  lemma {:induction false} NoHandleMovesUnderOperation(run: seq<State>, sched: seq<Label>, t: nat, p: nat, m: nat, n: nat)
    requires IsRun(run, sched) && m <= n < |run|
    requires forall i :: m <= i <= n ==>
      t < |run[i].threads| && InOperation(run[i].threads[t]) && run[i].threads[t].proc == p
    ensures HandlesStay(run[m], run[n], p) && NobodyReassigns(run[n], p)
    decreases n - m
  {
    OperationStep(run, sched, t, m);
    if m < n {
      NoHandleMovesUnderOperation(run, sched, t, p, m + 1, n);
      HandlesStayTrans(run[m], run[m + 1], run[n], p);
    }
  }

  // ---- where the documented epoch promises end ----

  /** Memory is ahead of the store and no write is pending that would close the gap. */
  predicate Gap(s: State, p: nat)
    requires p < |s.procs|
  {
    Mem(s, p) > Val(s.stored) && !PendingWrite(s, p)
  }

  /** The epoch write of a thread of process `p` is about to be lost. */
  predicate LosesWrite(s: State, t: nat, c: Choice, p: nat)
    requires t < |s.threads|
  {
    s.threads[t].proc == p && Writing(s.threads[t]) && c.write.Lost? && Val(s.stored) < U64_MAX
  }

  predicate GapIn(log: seq<Event>, base: Option<nat>, p: nat) {
    MemAfter(log, p) > Val(StoredAfter(log, base)) && !Writes(log, p)
  }

  lemma GapInLog(s: State, base: Option<nat>, p: nat)
    requires Inv(s, base) && p < |s.procs|
    ensures Gap(s, p) <==> GapIn(s.log, base, p)
  {
    PendingInLog(s, base, p);
  }

  /** What one event does to a gap between memory and store, in histories. */
  lemma GapStep(log: seq<Event>, e: Event, base: Option<nat>, p: nat)
    requires LogOk(log, base) && EventOk(log, e, base) && !GapIn(log, base, p)
    ensures GapIn(log + [e], base, p)
      <==> e.Wrote? && e.proc == p && e.out.Lost? && Val(StoredAfter(log, base)) < U64_MAX
  {
    Append(log, e, base);
    AppendOk(log, e, base);
    StoredBounded(log, base);
    if e.Wrote? {
      WriteBumps(log + [e], base);
      assert (log + [e])[..|log|] == log;
      Last(log, base);
    }
  }

  lemma StepLog(s: State, t: nat, c: Choice, s': State, base: Option<nat>)
    requires Inv(s, base) && Step(s, t, c, s')
    ensures
      var e := EventOf(t, s.threads[t].proc, Plan(s, s.threads[t], c).eff);
      s'.log == (if e.Some? then s.log + [e.value] else s.log) && (e.Some? ==> EventOk(s.log, e.value, base))
    ensures |s'.procs| == |s.procs|
  {
    StepEffect(s, t, c, s', base);
  }

  /** A step writes an epoch exactly at the write point, with the outcome chosen. */
  lemma WritesWhere(s: State, t: nat, th: Thread, c: Choice)
    requires Fits(s, th)
    ensures
      var e := EventOf(t, th.proc, Plan(s, th, c).eff);
      (e.Some? && e.value.Wrote? <==> Writing(th)) && (Writing(th) ==> e.value.out == c.write && e.value.proc == th.proc)
  {
    if th.pc.Rs? {
      RestoreEffects(s, th, c);
    } else if th.pc.In? {
      InitEffects(s, th, c);
    } else {
      ObjectEffects(s, th, c);
    }
  }

  /**
   A step puts a process's memory ahead of the store for good exactly when it is an epoch write
   that is lost below saturation.  A write that is published but reported as failed does not.
   */
  lemma GapIffWriteLost(s: State, t: nat, c: Choice, s': State, p: nat, base: Option<nat>)
    requires Inv(s, base) && Step(s, t, c, s') && p < |s.procs| && !Gap(s, p)
    ensures p < |s'.procs| && (Gap(s', p) <==> LosesWrite(s, t, c, p))
  {
    var e := EventOf(t, s.threads[t].proc, Plan(s, s.threads[t], c).eff);
    StepInv(s, t, c, s', base);
    StepLog(s, t, c, s', base);
    GapInLog(s, base, p);
    GapInLog(s', base, p);
    WritesWhere(s, t, s.threads[t], c);
    if e.Some? {
      GapStep(s.log, e.value, base, p);
    }
  }

  predicate Reinit(th: Thread, c: Choice) {
    th.pc == In(InReadEpoch) && c.io
  }

  /** Which points move memory, sessions and keys, and to what. */
  predicate MovesWhere(s: State, th: Thread, c: Choice, eff: Effect) {
    && th.proc < |s.procs|
    && (Reinit(th, c) ==> eff.SetMem? && eff.epoch == Val(s.stored))
    && (eff.SetMem? && !Reinit(th, c) ==> Mem(s, th.proc) <= eff.epoch)
    && (eff.MoveSession? <==> th.pc == Ro(RoDevice) && c.io)
    && (eff.MoveSession? ==> eff.sess == TaskSess(th.task) && eff.epoch == th.cur)
    && (eff.MoveKey? <==> th.pc == Rk(RkDevice) && c.io)
    && (eff.MoveKey? ==> eff.key == TaskKey(th.task) && eff.epoch == th.cur)
  }

  lemma StepMovesWhere(s: State, t: nat, c: Choice, base: Option<nat>)
    requires Inv(s, base) && t < |s.threads| && Fits(s, s.threads[t])
    ensures MovesWhere(s, s.threads[t], c, Plan(s, s.threads[t], c).eff)
  {
    var th := s.threads[t];
    MemBounded(s.log, base, th.proc);
    if th.pc.Rs? {
      RestoreEffects(s, th, c);
      assert ThreadInv(s, t);
    } else if th.pc.In? {
      InitEffects(s, th, c);
    } else {
      ObjectEffects(s, th, c);
    }
  }

  /** The step re-initialises process `p` from a stored epoch below `epoch`. */
  predicate ReinitBelow(s: State, t: nat, c: Choice, p: nat, epoch: nat)
    requires t < |s.threads|
  {
    Reinit(s.threads[t], c) && s.threads[t].proc == p && Val(s.stored) < epoch
  }

  /** The step completes a reopen of session `i` for an epoch above the partition's. */
  predicate ReopensAbove(s: State, t: nat, c: Choice, i: nat)
    requires t < |s.threads| && s.threads[t].proc < |s.procs|
  {
    s.threads[t].pc == Ro(RoDevice) && c.io && TaskSess(s.threads[t].task) == i && s.threads[t].cur > Mem(s, s.threads[t].proc)
  }

  predicate RekeysAbove(s: State, t: nat, c: Choice, k: nat)
    requires t < |s.threads| && s.threads[t].proc < |s.procs|
  {
    s.threads[t].pc == Rk(RkDevice) && c.io && TaskKey(s.threads[t].task) == k && s.threads[t].cur > Mem(s, s.threads[t].proc)
  }

  lemma EffectMakesNewer(s: State, t: nat, c: Choice, eff: Effect, s': State, base: Option<nat>)
    requires Shared(s, t, eff, s', base) && MovesWhere(s, s.threads[t], c, eff)
    ensures |s'.procs| == |s.procs| && |s.sessions| <= |s'.sessions| && |s.keys| <= |s'.keys|
    ensures forall i | 0 <= i < |s.sessions| && s.sessions[i].proc < |s.procs| ::
      && s'.sessions[i].proc == s.sessions[i].proc
      && (s.sessions[i].epoch <= Mem(s, s.sessions[i].proc) ==>
            (s'.sessions[i].epoch > Mem(s', s.sessions[i].proc)
             <==> ReinitBelow(s, t, c, s.sessions[i].proc, s.sessions[i].epoch) || ReopensAbove(s, t, c, i)))
    ensures forall k | 0 <= k < |s.keys| && s.keys[k].proc < |s.procs| ::
      && s'.keys[k].proc == s.keys[k].proc
      && (s.keys[k].epoch <= Mem(s, s.keys[k].proc) ==>
            (s'.keys[k].epoch > Mem(s', s.keys[k].proc)
             <==> ReinitBelow(s, t, c, s.keys[k].proc, s.keys[k].epoch) || RekeysAbove(s, t, c, k)))
  {
  }

  /**
   A step makes a session newer than its partition exactly when it re-initialises the partition
   from a stored epoch below the session's, or completes a reopen for an epoch that was read
   before such a re-initialisation.
   */
  lemma SessionNewerIff(s: State, t: nat, c: Choice, s': State, i: nat, base: Option<nat>)
    requires Inv(s, base) && Step(s, t, c, s') && i < |s.sessions| && s.sessions[i].proc < |s.procs|
    requires s.sessions[i].epoch <= Mem(s, s.sessions[i].proc)
    ensures i < |s'.sessions| && s'.sessions[i].proc == s.sessions[i].proc < |s'.procs|
    ensures s'.sessions[i].epoch > Mem(s', s.sessions[i].proc)
      <==> ReinitBelow(s, t, c, s.sessions[i].proc, s.sessions[i].epoch) || ReopensAbove(s, t, c, i)
  {
    StepEffect(s, t, c, s', base);
    StepMovesWhere(s, t, c, base);
    EffectMakesNewer(s, t, c, Plan(s, s.threads[t], c).eff, s', base);
  }

  /** The same for keys. */
  lemma KeyNewerIff(s: State, t: nat, c: Choice, s': State, k: nat, base: Option<nat>)
    requires Inv(s, base) && Step(s, t, c, s') && k < |s.keys| && s.keys[k].proc < |s.procs|
    requires s.keys[k].epoch <= Mem(s, s.keys[k].proc)
    ensures k < |s'.keys| && s'.keys[k].proc == s.keys[k].proc < |s'.procs|
    ensures s'.keys[k].epoch > Mem(s', s.keys[k].proc)
      <==> ReinitBelow(s, t, c, s.keys[k].proc, s.keys[k].epoch) || RekeysAbove(s, t, c, k)
  {
    StepEffect(s, t, c, s', base);
    StepMovesWhere(s, t, c, base);
    EffectMakesNewer(s, t, c, Plan(s, s.threads[t], c).eff, s', base);
  }
}
