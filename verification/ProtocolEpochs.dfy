/**
 What every step of the protocol keeps about epochs: the history stays a word of the grammar of
 `Trace` and gives the stored and the in-memory epochs; sessions and keys are not ahead of their
 partition while no write was lost; sessions carry what the device last issued; and every thread
 knows what its code relies on at each point.
 */
module ProtocolEpochs {
  import opened Common
  import opened Epoch
  import opened LockOrder
  import opened Trace
  import opened Protocol
  import opened ProtocolLocks

  // ---- issued masking keys ----

  function LastIssue(issued: seq<Issue>, i: nat): Option<Issue> {
    if issued == [] then None
    else
      var e := issued[|issued| - 1];
      if e.sess == i then Some(e) else LastIssue(issued[..|issued| - 1], i)
  }

  lemma AppendIssue(issued: seq<Issue>, e: Issue, i: nat)
    ensures LastIssue(issued + [e], i) == if e.sess == i then Some(e) else LastIssue(issued, i)
  {
    assert (issued + [e])[..|issued|] == issued;
  }

  // ---- invariants of one thread ----

  /** The epoch check of `restore_partition` has passed and memory has not moved yet. */
  predicate Checked(pc: RsPc) {
    pc.RsDevice? || pc.RsWantApply? || pc.RsPersist? || pc.RsReadEpoch? || pc.RsSetMem? || pc.RsSync?
  }

  /** Inside the success arm, before memory moves. */
  predicate InArm(pc: RsPc) {
    pc.RsPersist? || pc.RsReadEpoch? || pc.RsSetMem?
  }

  predicate Writing(th: Thread) {
    th.pc == Rs(RsWriteEpoch)
  }

  predicate RestoreInv(s: State, t: nat, th: Thread, pc: RsPc)
    requires Fits(s, th)
  {
    && (Checked(pc) ==> Mem(s, th.proc) == th.snap)
    && (InArm(pc) ==> s.log != [] && s.log[|s.log| - 1] == Entered(t, th.proc, th.snap))
    && (pc.RsSetMem? ==> th.cur == Bumped(s.stored))
    && (pc.RsWriteEpoch? ==>
          && |s.log| >= 2 && s.log[|s.log| - 2] == Entered(t, th.proc, th.snap)
          && s.log[|s.log| - 1] == MemSet(t, th.proc, th.cur, ByRestore, UnderBarrier(th)))
  }

  /** The session has been found stale and its reopen has not succeeded yet. */
  predicate Reopening(pc: RoPc) {
    pc.RoCreds? || pc.RoSeed? || pc.RoWantSession? || pc.RoGuard? || pc.RoInner? || pc.RoDevice?
  }

  predicate ReopenInv(s: State, th: Thread, pc: RoPc)
    requires Fits(s, th) && (th.task.KeyOp? || th.task.KeyGen?)
  {
    var i := th.task.sess;
    && (pc.RoSession? && Clean(s.log) ==> s.sessions[i].epoch <= th.cur)
    && (Reopening(pc) ==> s.sessions[i].epoch < th.cur)
    && (pc.RoBmk? ==> s.sessions[i].epoch == th.cur && LastIssue(s.issued, i) == Some(Issue(i, th.cur, th.issue)))
    && (!pc.RoEpoch? && Clean(s.log) ==> th.cur <= Mem(s, th.proc))
  }

  predicate RekeyInv(s: State, th: Thread, pc: RkPc)
    requires Fits(s, th) && th.task.KeyOp?
  {
    && s.sessions[th.task.sess].epoch == (if pc.RkEpoch? then th.cur else th.snap)
    && (Clean(s.log) ==> th.cur <= Mem(s, th.proc) && (!pc.RkEpoch? ==> th.snap <= th.cur))
    && (pc.RkDone? ==> s.keys[th.task.key].epoch == th.cur)
  }

  /** A key operation has read the key's epoch and still holds the barrier for reading. */
  predicate HasRead(pc: OpPc) {
    pc.OpCompareOld? || Compared(pc)
  }

  /** ... and has found it not behind the partition. */
  predicate Compared(pc: OpPc) {
    pc.OpReadKeyAgain? || pc.OpCompareNew? || pc.OpLockKey? || pc.OpLockSession? || pc.OpLockInner? || pc.OpDevice?
  }

  /** Since `mark` nobody has moved the memory of process `p` under the key barrier. */
  predicate NoRecoverySince(log: seq<Event>, mark: nat, p: nat) {
    forall i | mark <= i < |log| && Moves(log[i], p) :: !log[i].barrier
  }

  predicate OperationInv(s: State, th: Thread, pc: OpPc)
    requires Fits(s, th) && th.task.KeyOp? && th.mark <= |s.log|
  {
    && (HasRead(pc) ==> s.keys[th.task.key].epoch == th.cur)
    && (Compared(pc) ==>
          && NoRecoverySince(s.log, th.mark, th.proc)
          && (Clean(s.log) ==> th.cur == MemAfter(s.log[..th.mark], th.proc)))
  }

  /** Since thread `t` last took the barrier for writing, nobody else has moved an epoch. */
  predicate Quiet(s: State, t: nat)
    requires t < |s.threads|
  {
    forall i :: s.threads[t].mark <= i < |s.log| && (s.log[i].MemSet? || s.log[i].Wrote?) ==> s.log[i].thread == t
  }

  /** What an undisturbed recovery has established so far. */
  predicate Coherent(s: State, th: Thread)
    requires Fits(s, th)
  {
    match th.pc
    case Rs(pc) => !pc.RsSnapshot? && !pc.RsWriteEpoch? ==> Mem(s, th.proc) == th.snap
    case Ro(pc) => Mem(s, th.proc) == Val(s.stored) && (!pc.RoEpoch? ==> th.cur == Val(s.stored))
    case Rk(pc) => Mem(s, th.proc) == Val(s.stored) == th.cur && (!pc.RkEpoch? ==> th.snap == th.cur)
    case _ => true
  }

  predicate ThreadInv(s: State, t: nat)
    requires t < |s.threads| && Fits(s, s.threads[t])
  {
    var th := s.threads[t];
    && th.mark <= |s.log|
    && (th.pc.Op? ==> OperationInv(s, th, th.pc.op))
    && (th.pc.Rs? ==> RestoreInv(s, t, th, th.pc.rs))
    && (th.pc.Ro? ==> ReopenInv(s, th, th.pc.ro))
    && (th.pc.Rk? ==> RekeyInv(s, th, th.pc.rk))
    && (Clean(s.log) && Quiet(s, t) ==> Coherent(s, th))
  }

  // ---- invariants of the shared state ----

  /** The history is well-formed and tells the stored and the in-memory epochs. */
  predicate TraceInv(s: State, base: Option<nat>) {
    && LogOk(s.log, base) && s.stored == StoredAfter(s.log, base)
    && forall p :: 0 <= p < |s.procs| ==> Mem(s, p) == MemAfter(s.log, p)
  }

  /** An open restore belongs to the thread that is at that point of its code. */
  predicate OwnerInv(s: State) {
    Open(s.log) ==>
      var e := s.log[|s.log| - 1];
      && e.thread < |s.threads| && s.threads[e.thread].proc == e.proc && s.threads[e.thread].pc.Rs?
      && if e.Entered? then InArm(s.threads[e.thread].pc.rs) else s.threads[e.thread].pc.rs.RsWriteEpoch?
  }

  predicate SessionInv(s: State, i: nat)
    requires i < |s.sessions|
  {
    s.sessions[i].proc < |s.procs| && (Clean(s.log) ==> s.sessions[i].epoch <= Mem(s, s.sessions[i].proc))
  }

  predicate KeyInv(s: State, k: nat)
    requires k < |s.keys|
  {
    s.keys[k].proc < |s.procs| && (Clean(s.log) ==> s.keys[k].epoch <= Mem(s, s.keys[k].proc))
  }

  predicate ObjectInv(s: State) {
    && (forall i :: 0 <= i < |s.sessions| ==> SessionInv(s, i))
    && (forall k :: 0 <= k < |s.keys| ==> KeyInv(s, k))
  }

  /** A thread is about to store the masking key issued for session `i`. */
  predicate PendingBmk(threads: seq<Thread>, i: nat) {
    exists t :: 0 <= t < |threads| && threads[t].pc == Ro(RoBmk) && TaskSess(threads[t].task) == i
  }

  predicate CarriesIssue(s: State, i: nat)
    requires i < |s.sessions|
  {
    var last := LastIssue(s.issued, i);
    && last.Some? && last.value.epoch == s.sessions[i].epoch
    && (s.sessions[i].bmk == last.value.bmk || PendingBmk(s.threads, i))
  }

  /** Sessions carry what was issued last, and what is issued for one session has growing epochs. */
  predicate IssueInv(s: State) {
    && (forall i :: 0 <= i < |s.sessions| ==> CarriesIssue(s, i))
    && (forall a :: 0 <= a < |s.issued| ==>
          s.issued[a].sess < |s.sessions| && s.issued[a].epoch <= s.sessions[s.issued[a].sess].epoch)
    && (forall a, b :: 0 <= a < b < |s.issued| && s.issued[a].sess == s.issued[b].sess ==>
          s.issued[a].epoch < s.issued[b].epoch)
  }

  predicate SharedInv(s: State, base: Option<nat>) {
    TraceInv(s, base) && OwnerInv(s) && ObjectInv(s) && IssueInv(s)
  }

  predicate Inv(s: State, base: Option<nat>) {
    && MutEx(s) && AllFit(s) && SharedInv(s, base)
    && forall t :: 0 <= t < |s.threads| ==> ThreadInv(s, t)
  }

  // ---- which points have which effect ----

  /** The shared state after a step depends on the effect only. */
  lemma NextShared(s: State, t: nat, c: Choice)
    requires t < |s.threads| && Fits(s, s.threads[t])
    ensures
      var m := Plan(s, s.threads[t], c);
      && EffectFits(s, s.threads[t].proc, m.eff)
      && Next(s, t, c) == Apply(s, t, s.threads[t].proc, m.eff).(threads := s.threads[t := m.th])
  {
    PlanEffectFits(s, s.threads[t], c);
  }

  /** The event an effect adds to the history. */
  function EventOf(t: nat, p: nat, eff: Effect): Option<Event> {
    match eff
    case EnterArm(snap) => Some(Entered(t, p, snap))
    case LeaveArm(snap) => Some(GaveUp(t, p, snap))
    case SetMem(e, how, barrier) => Some(MemSet(t, p, e, how, barrier))
    case WriteStore(snap, e, out) => Some(Wrote(t, p, snap, e, out))
    case _ => None
  }

  /** Restores are the only code that enters and leaves the success arm and writes the store. */
  predicate RestoreEffect(s: State, th: Thread, m: Move, c: Choice)
    requires Fits(s, th) && th.pc.Rs?
  {
    var pc := th.pc.rs;
    match m.eff
    case NoEffect =>
      && !pc.RsSetMem? && !pc.RsWriteEpoch? && !(pc == RsWantApply(Established))
      && (InArm(pc) <==> m.th.pc.Rs? && InArm(m.th.pc.rs)) && !Writing(m.th)
    case EnterArm(snap) => pc == RsWantApply(Established) && snap == th.snap && m.th.pc == Rs(RsPersist)
    case LeaveArm(snap) => (pc.RsPersist? || pc.RsReadEpoch?) && snap == th.snap
    case SetMem(e, how, barrier) =>
      && barrier == UnderBarrier(th)
      && ((pc.RsSetMem? && how.ByRestore? && e == th.cur && m.th.pc == Rs(RsWriteEpoch))
          || (pc.RsSync? && how.BySync? && s.stored == Some(e) && e > Mem(s, th.proc)))
    case WriteStore(snap, e, out) => pc.RsWriteEpoch? && snap == th.snap && e == th.cur && out == c.write
    case _ => false
  }

  lemma RestoreEffects(s: State, th: Thread, c: Choice)
    requires Fits(s, th) && th.pc.Rs?
    ensures RestoreEffect(s, th, Plan(s, th, c), c)
    ensures Plan(s, th, c).th.mark == th.mark && Plan(s, th, c).th.proc == th.proc
  {
  }

  /** Initialisation sets memory to the stored epoch. */
  predicate InitEffect(s: State, th: Thread, m: Move) {
    match m.eff
    case NoEffect => true
    case SetMem(e, how, barrier) => th.pc == In(InReadEpoch) && e == Val(s.stored) && how.ByInit? && !barrier
    case _ => false
  }

  lemma InitEffects(s: State, th: Thread, c: Choice)
    requires Fits(s, th) && th.pc.In?
    ensures InitEffect(s, th, Plan(s, th, c)) && !Plan(s, th, c).th.pc.Rs?
    ensures th.pc == In(InReadEpoch) && c.io ==> Plan(s, th, c).eff.SetMem?
  {
  }

  /** The other points touch sessions and keys only. */
  predicate ObjectEffect(th: Thread, m: Move, c: Choice) {
    match m.eff
    case NoEffect => th.pc != Ro(RoBmk) && m.th.pc != Ro(RoBmk) && (c.io ==> th.pc != Ro(RoDevice) && th.pc != Rk(RkDevice))
    case MoveSession(i, e, bmk) =>
      && th.pc == Ro(RoDevice) && c.io && i == TaskSess(th.task) && e == th.cur && bmk == c.bmk
      && m.th.pc == Ro(RoBmk) && m.th.issue == bmk && m.th.task == th.task && m.th.cur == th.cur
    case StoreBmk(i, bmk) => th.pc == Ro(RoBmk) && i == TaskSess(th.task) && bmk == th.issue && m.th.pc != Ro(RoBmk)
    case MoveKey(k, e) => th.pc == Rk(RkDevice) && c.io && k == TaskKey(th.task) && e == th.cur && m.th.pc != Ro(RoBmk)
    case AddSession(_, _) | AddKey(_) | DropKey(_) => !th.pc.Ro? && !th.pc.Rk? && m.th.pc == Idle
    case _ => false
  }

  lemma RecoveryObjectEffects(s: State, th: Thread, c: Choice)
    requires Fits(s, th) && (th.pc.Ro? || th.pc.Rk?)
    ensures ObjectEffect(th, Plan(s, th, c), c) && !Plan(s, th, c).th.pc.Rs?
  {
  }

  lemma OtherObjectEffects(s: State, th: Thread, c: Choice)
    requires Fits(s, th) && !th.pc.Rs? && !th.pc.In? && !th.pc.Ro? && !th.pc.Rk?
    ensures ObjectEffect(th, Plan(s, th, c), c)
    ensures Plan(s, th, c).th.pc.Rs? ==> Plan(s, th, c).th.pc.rs.RsSnapshot?
  {
  }

  lemma ObjectEffects(s: State, th: Thread, c: Choice)
    requires Fits(s, th) && !th.pc.Rs? && !th.pc.In?
    ensures ObjectEffect(th, Plan(s, th, c), c)
    ensures Plan(s, th, c).th.pc.Rs? ==> Plan(s, th, c).th.pc.rs.RsSnapshot?
  {
    if th.pc.Ro? || th.pc.Rk? {
      RecoveryObjectEffects(s, th, c);
    } else {
      OtherObjectEffects(s, th, c);
    }
  }

  // ---- what the invariant says about an effect ----

  /** While one thread holds the cross-process lock, no other thread does. */
  lemma ResExcludes(s: State, t: nat, u: nat)
    requires MutEx(s) && t < |s.threads| && u < |s.threads| && t != u && ResLock in Holds(s.threads[t])
    ensures ResLock !in Holds(s.threads[u])
  {
    assert Conflict(ResLock, ResLock);
    if u < t {
      assert Compatible(Holds(s.threads[u]), Holds(s.threads[t]));
    } else {
      assert Compatible(Holds(s.threads[t]), Holds(s.threads[u]));
    }
  }

  /** A thread that holds the cross-process lock outside the success arm finds no restore open. */
  lemma NothingOpen(s: State, t: nat)
    requires MutEx(s) && OwnerInv(s) && t < |s.threads| && ResLock in Holds(s.threads[t])
    requires s.threads[t].pc.Rs? ==> !InArm(s.threads[t].pc.rs) && !Writing(s.threads[t])
    ensures !Open(s.log)
  {
    if Open(s.log) {
      var u := s.log[|s.log| - 1].thread;
      assert ResLock in Holds(s.threads[u]);
      ResExcludes(s, t, u);
    }
  }

  predicate EffectOk(s: State, t: nat, th: Thread, eff: Effect, base: Option<nat>) {
    && EffectFits(s, th.proc, eff)
    && (EventOf(t, th.proc, eff).Some? ==> ResLock in Holds(th) && EventOk(s.log, EventOf(t, th.proc, eff).value, base))
    && (eff.SetMem? && eff.barrier ==> BarrierW(th) in Holds(th))
    && (eff.MoveSession? ==>
          && BarrierW(th) in Holds(th) && s.sessions[eff.sess].epoch < eff.epoch
          && (Clean(s.log) ==> eff.epoch <= Mem(s, th.proc)))
    && (eff.StoreBmk? ==>
          BarrierW(th) in Holds(th) && LastIssue(s.issued, eff.sess).Some? && LastIssue(s.issued, eff.sess).value.bmk == eff.bmk)
    && (eff.MoveKey? ==> BarrierW(th) in Holds(th) && (Clean(s.log) ==> eff.epoch <= Mem(s, th.proc)))
  }

  lemma RestoreEffectOk(s: State, t: nat, c: Choice, base: Option<nat>)
    requires Inv(s, base) && t < |s.threads| && s.threads[t].pc.Rs?
    ensures EffectOk(s, t, s.threads[t], Plan(s, s.threads[t], c).eff, base)
  {
    var th := s.threads[t];
    assert Fits(s, th) && ThreadInv(s, t);
    RestoreEffects(s, th, c);
    PlanEffectFits(s, th, c);
    if ResLock in Holds(th) && !InArm(th.pc.rs) && !Writing(th) {
      NothingOpen(s, t);
    }
  }

  lemma InitEffectOk(s: State, t: nat, c: Choice, base: Option<nat>)
    requires Inv(s, base) && t < |s.threads| && s.threads[t].pc.In?
    ensures EffectOk(s, t, s.threads[t], Plan(s, s.threads[t], c).eff, base)
  {
    var th := s.threads[t];
    assert Fits(s, th);
    InitEffects(s, th, c);
    PlanEffectFits(s, th, c);
    if ResLock in Holds(th) {
      NothingOpen(s, t);
    }
  }

  lemma ObjectEffectOk(s: State, t: nat, c: Choice, base: Option<nat>)
    requires Inv(s, base) && t < |s.threads| && !s.threads[t].pc.Rs? && !s.threads[t].pc.In?
    ensures EffectOk(s, t, s.threads[t], Plan(s, s.threads[t], c).eff, base)
  {
    var th := s.threads[t];
    assert Fits(s, th) && ThreadInv(s, t);
    ObjectEffects(s, th, c);
    PlanEffectFits(s, th, c);
  }

  lemma PlanEffectOk(s: State, t: nat, c: Choice, base: Option<nat>)
    requires Inv(s, base) && t < |s.threads|
    ensures EffectOk(s, t, s.threads[t], Plan(s, s.threads[t], c).eff, base)
  {
    if s.threads[t].pc.Rs? {
      RestoreEffectOk(s, t, c, base);
    } else if s.threads[t].pc.In? {
      InitEffectOk(s, t, c, base);
    } else {
      ObjectEffectOk(s, t, c, base);
    }
  }

  // ---- the history ----

  /** A step of thread `t` with effect `eff`, as the shared state sees it. */
  predicate Shared(s: State, t: nat, eff: Effect, s': State, base: Option<nat>) {
    && t < |s.threads| && EffectOk(s, t, s.threads[t], eff, base)
    && s' == Apply(s, t, s.threads[t].proc, eff).(threads := s'.threads)
  }

  /** What an effect does to the history, the store and memory. */
  lemma SharedLog(s: State, t: nat, eff: Effect, s': State, base: Option<nat>)
    requires Shared(s, t, eff, s', base)
    ensures
      var e := EventOf(t, s.threads[t].proc, eff);
      && |s'.procs| == |s.procs| && (e == None ==> s'.log == s.log && s'.stored == s.stored && s'.procs == s.procs)
      && (e.Some? ==>
            && s'.log == s.log + [e.value] && EventOk(s.log, e.value, base)
            && s'.stored == (if Published(e.value) then Some(e.value.epoch) else s.stored)
            && forall p :: 0 <= p < |s.procs| ==> Mem(s', p) == if Moves(e.value, p) then e.value.epoch else Mem(s, p))
  {
  }

  lemma TraceGrows(s: State, e: Event, s': State, base: Option<nat>)
    requires TraceInv(s, base) && EventOk(s.log, e, base) && s'.log == s.log + [e] && |s'.procs| == |s.procs|
    requires s'.stored == if Published(e) then Some(e.epoch) else s.stored
    requires forall p :: 0 <= p < |s.procs| ==> Mem(s', p) == if Moves(e, p) then e.epoch else Mem(s, p)
    ensures TraceInv(s', base) && (Clean(s'.log) ==> Clean(s.log))
  {
    Append(s.log, e, base);
    AppendOk(s.log, e, base);
  }

  lemma KeepTrace(s: State, t: nat, eff: Effect, s': State, base: Option<nat>)
    requires Shared(s, t, eff, s', base) && TraceInv(s, base)
    ensures TraceInv(s', base) && (Clean(s'.log) ==> Clean(s.log))
  {
    var e := EventOf(t, s.threads[t].proc, eff);
    SharedLog(s, t, eff, s', base);
    if e.Some? {
      TraceGrows(s, e.value, s', base);
    }
  }

  /** Memory does not move back in a step after which no write is lost. */
  lemma MemoryRises(s: State, t: nat, eff: Effect, s': State, base: Option<nat>)
    requires Shared(s, t, eff, s', base) && TraceInv(s, base) && TraceInv(s', base) && Clean(s'.log)
    ensures |s'.procs| == |s.procs| && forall p :: 0 <= p < |s.procs| ==> Mem(s, p) <= Mem(s', p)
  {
    var e := EventOf(t, s.threads[t].proc, eff);
    if e.Some? {
      var n := |s.log|;
      assert s'.log[..n] == s.log && s'.log[..n + 1] == s'.log;
      forall p | 0 <= p < |s.procs| ensures Mem(s, p) <= Mem(s', p) {
        MemStep(s'.log, base, p, n);
      }
    }
  }

  lemma KeepOwner(s: State, t: nat, c: Choice, s': State)
    requires t < |s.threads| && Fits(s, s.threads[t]) && OwnerInv(s)
    requires s' == Next(s, t, c)
    requires Open(s.log) && s.log[|s.log| - 1].thread != t ==> ResLock !in Holds(s.threads[t])
    requires EventOf(t, s.threads[t].proc, Plan(s, s.threads[t], c).eff).Some? ==> ResLock in Holds(s.threads[t])
    ensures OwnerInv(s')
  {
    var th := s.threads[t];
    NextShared(s, t, c);
    if th.pc.Rs? {
      RestoreEffects(s, th, c);
    } else if th.pc.In? {
      InitEffects(s, th, c);
    } else {
      ObjectEffects(s, th, c);
    }
  }

  // ---- sessions, keys and what was issued ----

  /** No write is lost later that was not lost before, and memory does not move back if none is. */
  predicate Rises(s: State, s': State) {
    && |s'.procs| == |s.procs| && (Clean(s'.log) ==> Clean(s.log))
    && (Clean(s'.log) ==> forall p :: 0 <= p < |s.procs| ==> Mem(s, p) <= Mem(s', p))
  }

  lemma KeepSessions(s: State, t: nat, eff: Effect, s': State, base: Option<nat>)
    requires Shared(s, t, eff, s', base) && ObjectInv(s) && Rises(s, s')
    ensures forall i :: 0 <= i < |s'.sessions| ==> SessionInv(s', i)
  {
    forall i | 0 <= i < |s'.sessions| ensures SessionInv(s', i) {
      assert i < |s.sessions| ==> SessionInv(s, i);
    }
  }

  lemma KeepKeys(s: State, t: nat, eff: Effect, s': State, base: Option<nat>)
    requires Shared(s, t, eff, s', base) && ObjectInv(s) && Rises(s, s')
    ensures forall k :: 0 <= k < |s'.keys| ==> KeyInv(s', k)
  {
    forall k | 0 <= k < |s'.keys| ensures KeyInv(s', k) {
      assert k < |s.keys| ==> KeyInv(s, k);
    }
  }

  /** Where a masking key waits to be stored, before and after a step. */
  predicate BmkMoves(th: Thread, eff: Effect, th': Thread) {
    && (eff.MoveSession? ==> th'.pc == Ro(RoBmk) && TaskSess(th'.task) == eff.sess)
    && (eff.StoreBmk? <==> th.pc == Ro(RoBmk))
    && (eff.StoreBmk? ==> eff.sess == TaskSess(th.task))
  }

  lemma PendingStays(threads: seq<Thread>, t: nat, th': Thread, i: nat)
    requires t < |threads| && PendingBmk(threads, i)
    requires threads[t].pc == Ro(RoBmk) ==> TaskSess(threads[t].task) != i
    ensures PendingBmk(threads[t := th'], i)
  {
    var u :| 0 <= u < |threads| && threads[u].pc == Ro(RoBmk) && TaskSess(threads[u].task) == i;
    assert threads[t := th'][u] == threads[u];
  }

  lemma KeepCarries(s: State, t: nat, eff: Effect, s': State, base: Option<nat>, i: nat)
    requires Shared(s, t, eff, s', base) && i < |s'.sessions| && (i < |s.sessions| ==> CarriesIssue(s, i))
    requires |s'.threads| == |s.threads| && s'.threads == s.threads[t := s'.threads[t]]
    requires BmkMoves(s.threads[t], eff, s'.threads[t])
    ensures CarriesIssue(s', i)
  {
    if s'.issued != s.issued {
      AppendIssue(s.issued, s'.issued[|s.issued|], i);
    }
    if eff.MoveSession? && eff.sess == i {
      assert s'.threads[t].pc == Ro(RoBmk);
    } else if i < |s.sessions| && PendingBmk(s.threads, i) && !(eff.StoreBmk? && eff.sess == i) {
      PendingStays(s.threads, t, s'.threads[t], i);
    }
  }

  lemma KeepIssues(s: State, t: nat, eff: Effect, s': State, base: Option<nat>)
    requires Shared(s, t, eff, s', base) && IssueInv(s)
    requires |s'.threads| == |s.threads| && s'.threads == s.threads[t := s'.threads[t]]
    requires BmkMoves(s.threads[t], eff, s'.threads[t])
    ensures IssueInv(s')
  {
    forall i | 0 <= i < |s'.sessions| ensures CarriesIssue(s', i) {
      assert i < |s.sessions| ==> CarriesIssue(s, i);
      KeepCarries(s, t, eff, s', base, i);
    }
  }

  // ---- rely and guarantee ----

  predicate SameEpochs(s: State, s': State) {
    s.stored == s'.stored && s.procs == s'.procs
  }

  predicate SessionKept(s: State, s': State, i: nat)
    requires i < |s.sessions| && i < |s'.sessions|
  {
    s.sessions[i].epoch == s'.sessions[i].epoch && LastIssue(s.issued, i) == LastIssue(s'.issued, i)
  }

  predicate KeyKept(s: State, s': State, k: nat)
    requires k < |s.keys| && k < |s'.keys|
  {
    s.keys[k].epoch == s'.keys[k].epoch
  }

  /** The event a step of thread `t` may add. */
  predicate AddedOk(th: Thread, t: nat, e: Event) {
    && ResLock in Holds(th) && e.thread == t && e.proc == th.proc
    && (e.MemSet? && e.barrier ==> BarrierW(th) in Holds(th))
  }

  /**
   Guarantee: epochs in memory or in the store move only under the cross-process lock and leave a
   trace in the history; session and key epochs move only under the barrier; and memory never
   goes backwards while no write is lost.
   */
  predicate Guarantee(s: State, t: nat, s': State)
    requires t < |s.threads|
  {
    var th := s.threads[t];
    && Grows(s, s') && Rises(s, s') && s.log <= s'.log && |s'.log| <= |s.log| + 1
    && (s'.log != s.log ==> AddedOk(th, t, s'.log[|s.log|]))
    && (!SameEpochs(s, s') ==> s'.log != s.log && (s'.log[|s.log|].MemSet? || s'.log[|s.log|].Wrote?))
    && (forall i :: 0 <= i < |s.sessions| && !SessionKept(s, s', i) ==>
          BarrierW(th) in Holds(th) && s.sessions[i].proc == th.proc)
    && (forall k :: 0 <= k < |s.keys| && !KeyKept(s, s', k) ==> BarrierW(th) in Holds(th) && s.keys[k].proc == th.proc)
  }

  lemma ObjectsGuaranteed(s: State, t: nat, eff: Effect, s': State, base: Option<nat>)
    requires Shared(s, t, eff, s', base)
    ensures |s.sessions| <= |s'.sessions| && |s.keys| <= |s'.keys|
    ensures forall i :: 0 <= i < |s.sessions| && !SessionKept(s, s', i) ==>
      BarrierW(s.threads[t]) in Holds(s.threads[t]) && s.sessions[i].proc == s.threads[t].proc
    ensures forall k :: 0 <= k < |s.keys| && !KeyKept(s, s', k) ==>
      BarrierW(s.threads[t]) in Holds(s.threads[t]) && s.keys[k].proc == s.threads[t].proc
  {
    forall i | 0 <= i < |s.sessions| && !SessionKept(s, s', i)
      ensures BarrierW(s.threads[t]) in Holds(s.threads[t]) && s.sessions[i].proc == s.threads[t].proc
    {
      if s'.issued != s.issued {
        AppendIssue(s.issued, s'.issued[|s.issued|], i);
      }
    }
  }

  /** An effect the invariant allows stays within the guarantee. */
  lemma ApplyGuarantee(s: State, t: nat, eff: Effect, s': State, base: Option<nat>)
    requires Shared(s, t, eff, s', base) && Rises(s, s')
    ensures Guarantee(s, t, s')
  {
    ApplyGrows(s, t, s.threads[t].proc, eff);
    ObjectsGuaranteed(s, t, eff, s', base);
  }

  /** Two threads of one process cannot both be in recovery under the barrier. */
  lemma BarrierExcludes(s: State, t: nat, u: nat)
    requires MutEx(s) && t < |s.threads| && u < |s.threads| && t != u
    requires BarrierW(s.threads[t]) in Holds(s.threads[t]) && s.threads[t].proc == s.threads[u].proc
    ensures BarrierW(s.threads[u]) !in Holds(s.threads[u]) && BarrierR(s.threads[u]) !in Holds(s.threads[u])
  {
    if t < u {
      assert Compatible(Holds(s.threads[t]), Holds(s.threads[u]));
    } else {
      assert Compatible(Holds(s.threads[u]), Holds(s.threads[t]));
    }
    assert Conflict(BarrierW(s.threads[t]), BarrierW(s.threads[u]));
    assert Conflict(BarrierW(s.threads[t]), BarrierR(s.threads[u]));
    assert Conflict(BarrierR(s.threads[u]), BarrierW(s.threads[t]));
  }

  /** What a thread relies on while another thread takes a step. */
  predicate Rely(s: State, u: nat, s': State)
    requires u < |s.threads|
  {
    var th := s.threads[u];
    && Grows(s, s') && Rises(s, s') && s.log <= s'.log
    && (forall i :: |s.log| <= i < |s'.log| ==> s'.log[i].thread != u)
    && (ResLock in Holds(th) ==> s'.log == s.log)
    && (!SameEpochs(s, s') ==> exists i :: |s.log| <= i < |s'.log| && (s'.log[i].MemSet? || s'.log[i].Wrote?))
    && (BarrierW(th) in Holds(th) ==>
          forall i :: 0 <= i < |s.sessions| && s.sessions[i].proc == th.proc ==> SessionKept(s, s', i))
    && (BarrierW(th) in Holds(th) || BarrierR(th) in Holds(th) ==>
          && (forall k :: 0 <= k < |s.keys| && s.keys[k].proc == th.proc ==> KeyKept(s, s', k))
          && (forall i :: |s.log| <= i < |s'.log| && Moves(s'.log[i], th.proc) ==> !s'.log[i].barrier))
  }

  lemma GuaranteeGivesRely(s: State, t: nat, s': State, u: nat)
    requires MutEx(s) && t < |s.threads| && u < |s.threads| && t != u && Guarantee(s, t, s')
    ensures Rely(s, u, s')
  {
    if ResLock in Holds(s.threads[t]) {
      ResExcludes(s, t, u);
    }
    if BarrierW(s.threads[t]) in Holds(s.threads[t]) && s.threads[t].proc == s.threads[u].proc {
      BarrierExcludes(s, t, u);
    }
    if !SameEpochs(s, s') {
      assert s'.log[|s.log|].MemSet? || s'.log[|s.log|].Wrote?;
    }
  }

  // ---- preservation by the other threads ----

  lemma QuietBefore(s: State, u: nat, s': State)
    requires u < |s.threads| && u < |s'.threads| && s.threads[u] == s'.threads[u]
    requires Rely(s, u, s') && s.threads[u].mark <= |s.log| && Quiet(s', u)
    ensures Quiet(s, u) && SameEpochs(s, s')
  {
    forall i | s.threads[u].mark <= i < |s.log| && (s.log[i].MemSet? || s.log[i].Wrote?)
      ensures s.log[i].thread == u
    {
      assert s'.log[i] == s.log[i];
    }
  }

  lemma OthersKeepOperation(s: State, u: nat, s': State, pc: OpPc)
    requires u < |s.threads| && Fits(s, s.threads[u]) && s.threads[u].pc == Op(pc) && s.threads[u].mark <= |s.log|
    requires OperationInv(s, s.threads[u], pc) && Rely(s, u, s') && Fits(s', s.threads[u])
    ensures OperationInv(s', s.threads[u], pc)
  {
    var th := s.threads[u];
    if HasRead(pc) {
      assert BarrierR(th) in Holds(th);
      assert KeyKept(s, s', th.task.key);
    }
    if Compared(pc) {
      assert s'.log[..th.mark] == s.log[..th.mark];
      forall i | th.mark <= i < |s'.log| && Moves(s'.log[i], th.proc) ensures !s'.log[i].barrier {
        assert i < |s.log| ==> s'.log[i] == s.log[i];
      }
    }
  }

  lemma OthersKeepRecovery(s: State, u: nat, s': State)
    requires u < |s.threads| && u < |s'.threads| && s.threads[u] == s'.threads[u]
    requires Fits(s, s.threads[u]) && ThreadInv(s, u) && Rely(s, u, s') && Fits(s', s.threads[u])
    requires s.threads[u].pc.Ro? || s.threads[u].pc.Rk?
    ensures ThreadInv(s', u)
  {
    var th := s.threads[u];
    assert BarrierW(th) in Holds(th) && SessionKept(s, s', th.task.sess);
    if th.pc.Rk? {
      assert KeyKept(s, s', th.task.key);
    }
    if Quiet(s', u) {
      QuietBefore(s, u, s');
    }
  }

  lemma OthersKeepRestore(s: State, u: nat, s': State)
    requires u < |s.threads| && u < |s'.threads| && s.threads[u] == s'.threads[u]
    requires Fits(s, s.threads[u]) && ThreadInv(s, u) && Rely(s, u, s') && Fits(s', s.threads[u])
    requires s.threads[u].pc.Rs?
    ensures ThreadInv(s', u)
  {
    if Quiet(s', u) {
      QuietBefore(s, u, s');
    }
  }

  /** A thread that does not step keeps its invariant. */
  lemma OthersKeep(s: State, u: nat, s': State)
    requires u < |s.threads| && u < |s'.threads| && s.threads[u] == s'.threads[u]
    requires Fits(s, s.threads[u]) && ThreadInv(s, u) && Rely(s, u, s')
    ensures Fits(s', s'.threads[u]) && ThreadInv(s', u)
  {
    var th := s.threads[u];
    FitsGrows(s, s', th);
    match th.pc
    case Op(pc) => OthersKeepOperation(s, u, s', pc);
    case Rs(_) => OthersKeepRestore(s, u, s');
    case Ro(_) => OthersKeepRecovery(s, u, s');
    case Rk(_) => OthersKeepRecovery(s, u, s');
    case _ =>
  }

  // ---- preservation by the thread that steps ----

  /** A thread's own step never turns a disturbed recovery into a quiet one. */
  lemma OwnQuiet(s: State, t: nat, s': State)
    requires t < |s.threads| && t < |s'.threads| && s.log <= s'.log
    requires s'.threads[t].mark == s.threads[t].mark && Quiet(s', t)
    ensures Quiet(s, t)
  {
    forall i | s.threads[t].mark <= i < |s.log| && (s.log[i].MemSet? || s.log[i].Wrote?)
      ensures s.log[i].thread == t
    {
      assert s'.log[i] == s.log[i];
    }
  }

  /** The step of thread `t` under choice `c`, with its own invariant. */
  predicate OwnStep(s: State, t: nat, c: Choice, s': State) {
    && t < |s.threads| && Fits(s, s.threads[t]) && ThreadInv(s, t)
    && var th := s.threads[t];
       var m := Plan(s, th, c);
       && EffectFits(s, th.proc, m.eff)
       && s' == Apply(s, t, th.proc, m.eff).(threads := s.threads[t := m.th])
       && Fits(s', m.th) && s.log <= s'.log
       && (Clean(s'.log) ==> Clean(s.log))
  }

  /** What the shared invariants tell a thread about the objects of its task. */
  predicate TaskFacts(s: State, th: Thread)
    requires Fits(s, th)
  {
    Clean(s.log) ==>
      && (th.task.KeyOp? || th.task.KeyGen? ==> s.sessions[th.task.sess].epoch <= Mem(s, th.proc))
      && (th.task.KeyOp? ==> s.keys[th.task.key].epoch <= Mem(s, th.proc))
  }

  /** What they tell a restoring thread about memory and the store. */
  predicate RestoreFacts(s: State, th: Thread)
    requires Fits(s, th)
  {
    && Mem(s, th.proc) == MemAfter(s.log, th.proc)
    && (Clean(s.log) && ResLock in Holds(th) && !Writing(th) ==> Mem(s, th.proc) <= Val(s.stored))
  }

  /** The points of a restore that only read and go on. */
  predicate RestoreReads(pc: RsPc) {
    pc.RsSnapshot? || pc.RsWantLock? || pc.RsLockInner? || pc.RsCheck? || pc.RsDevice?
  }

  lemma OwnRestoreReads(s: State, t: nat, c: Choice, s': State)
    requires OwnStep(s, t, c, s') && s.threads[t].pc.Rs? && RestoreReads(s.threads[t].pc.rs)
    ensures ThreadInv(s', t)
  {
    if Quiet(s', t) {
      OwnQuiet(s, t, s');
    }
  }

  lemma OwnRestoreArm(s: State, t: nat, c: Choice, s': State)
    requires OwnStep(s, t, c, s') && s.threads[t].pc.Rs?
    requires s.threads[t].pc.rs.RsWantApply? || s.threads[t].pc.rs.RsPersist? || s.threads[t].pc.rs.RsReadEpoch?
    ensures ThreadInv(s', t)
  {
    if Quiet(s', t) {
      OwnQuiet(s, t, s');
    }
  }

  lemma OwnSetMem(s: State, t: nat, c: Choice, s': State)
    requires OwnStep(s, t, c, s') && s.threads[t].pc == Rs(RsSetMem)
    ensures ThreadInv(s', t)
  {
    if Quiet(s', t) {
      OwnQuiet(s, t, s');
    }
  }

  lemma OwnWriteEpoch(s: State, t: nat, c: Choice, s': State)
    requires OwnStep(s, t, c, s') && s.threads[t].pc == Rs(RsWriteEpoch) && RestoreFacts(s, s.threads[t])
    ensures ThreadInv(s', t)
  {
    if Quiet(s', t) {
      OwnQuiet(s, t, s');
    }
  }

  lemma OwnSyncAdopts(s: State, t: nat, c: Choice, s': State)
    requires OwnStep(s, t, c, s') && s.threads[t].pc == Rs(RsSync) && RestoreFacts(s, s.threads[t])
    requires c.io && Synced(Mem(s, s.threads[t].proc), s.stored).Adopt?
    ensures ThreadInv(s', t)
  {
    if Quiet(s', t) {
      OwnQuiet(s, t, s');
    }
  }

  lemma OwnSync(s: State, t: nat, c: Choice, s': State)
    requires OwnStep(s, t, c, s') && s.threads[t].pc == Rs(RsSync) && RestoreFacts(s, s.threads[t])
    ensures ThreadInv(s', t)
  {
    if c.io && Synced(Mem(s, s.threads[t].proc), s.stored).Adopt? {
      OwnSyncAdopts(s, t, c, s');
    } else if Quiet(s', t) {
      OwnQuiet(s, t, s');
    }
  }

  lemma OwnRestore(s: State, t: nat, c: Choice, s': State)
    requires OwnStep(s, t, c, s') && s.threads[t].pc.Rs? && RestoreFacts(s, s.threads[t])
    ensures ThreadInv(s', t)
  {
    var pc := s.threads[t].pc.rs;
    if RestoreReads(pc) {
      OwnRestoreReads(s, t, c, s');
    } else if pc.RsSync? {
      OwnSync(s, t, c, s');
    } else if pc.RsSetMem? {
      OwnSetMem(s, t, c, s');
    } else if pc.RsWriteEpoch? {
      OwnWriteEpoch(s, t, c, s');
    } else {
      OwnRestoreArm(s, t, c, s');
    }
  }

  lemma OwnReopenCheck(s: State, t: nat, c: Choice, s': State)
    requires OwnStep(s, t, c, s') && (s.threads[t].pc == Ro(RoSession) || s.threads[t].pc == Ro(RoGuard))
    ensures ThreadInv(s', t)
  {
    if Quiet(s', t) {
      OwnQuiet(s, t, s');
    }
  }

  lemma OwnReopenReads(s: State, t: nat, c: Choice, s': State)
    requires OwnStep(s, t, c, s') && s.threads[t].pc.Ro? && !s.threads[t].pc.ro.RoDevice? && !s.threads[t].pc.ro.RoBmk?
    requires !s.threads[t].pc.ro.RoSession? && !s.threads[t].pc.ro.RoGuard?
    requires TaskFacts(s, s.threads[t])
    ensures ThreadInv(s', t)
  {
    if Quiet(s', t) {
      OwnQuiet(s, t, s');
    }
  }

  lemma OwnStoreBmk(s: State, t: nat, c: Choice, s': State)
    requires OwnStep(s, t, c, s') && s.threads[t].pc == Ro(RoBmk)
    ensures ThreadInv(s', t)
  {
    if Quiet(s', t) {
      OwnQuiet(s, t, s');
    }
  }

  lemma OwnReopenMoves(s: State, t: nat, c: Choice, s': State)
    requires OwnStep(s, t, c, s') && s.threads[t].pc == Ro(RoDevice)
    ensures ThreadInv(s', t)
  {
    if Quiet(s', t) {
      OwnQuiet(s, t, s');
    }
    if s'.issued != s.issued {
      AppendIssue(s.issued, s'.issued[|s.issued|], s.threads[t].task.sess);
    }
  }

  lemma OwnRekeyEpoch(s: State, t: nat, c: Choice, s': State)
    requires OwnStep(s, t, c, s') && s.threads[t].pc == Rk(RkEpoch)
    ensures ThreadInv(s', t)
  {
    if Quiet(s', t) {
      OwnQuiet(s, t, s');
    }
  }

  lemma OwnRekeyReads(s: State, t: nat, c: Choice, s': State)
    requires OwnStep(s, t, c, s') && s.threads[t].pc.Rk? && !s.threads[t].pc.rk.RkDevice? && !s.threads[t].pc.rk.RkEpoch?
    ensures ThreadInv(s', t)
  {
    if Quiet(s', t) {
      OwnQuiet(s, t, s');
    }
  }

  lemma OwnRekeyDevice(s: State, t: nat, c: Choice, s': State)
    requires OwnStep(s, t, c, s') && s.threads[t].pc == Rk(RkDevice)
    ensures ThreadInv(s', t)
  {
    if Quiet(s', t) {
      OwnQuiet(s, t, s');
    }
  }

  /** A step of a key operation only moves on; it may end in recovery at its first point. */
  lemma OperationPoints(s: State, th: Thread, pc: OpPc, c: Choice)
    requires Fits(s, th) && th.pc == Op(pc) && th.mark <= |s.log|
    ensures
      var m := Plan(s, th, c);
      && m.eff.NoEffect? && m.th.mark <= |s.log| && m.th.proc == th.proc
      && (m.th.pc.Op? || m.th.pc == Idle || m.th.pc == Rs(RsSnapshot)) && (m.th.pc.Op? ==> m.th.task == th.task)
  {
  }

  lemma OperationReads(s: State, th: Thread, pc: OpPc, c: Choice)
    requires Fits(s, th) && th.pc == Op(pc) && th.mark <= |s.log| && OperationInv(s, th, pc)
    requires Plan(s, th, c).th.pc.Op?
    ensures
      var th' := Plan(s, th, c).th;
      && (HasRead(th'.pc.op) ==> th'.cur == s.keys[th.task.key].epoch)
      && (Compared(th'.pc.op) && pc.OpCompareOld? ==> th'.mark == |s.log| && th'.cur == th.cur >= Mem(s, th.proc))
      && (Compared(th'.pc.op) && !pc.OpCompareOld? ==> Compared(pc) && th'.mark == th.mark && th'.cur == th.cur)
  {
  }

  lemma OwnOperation(s: State, t: nat, c: Choice, s': State, pc: OpPc)
    requires OwnStep(s, t, c, s') && s.threads[t].pc == Op(pc) && TaskFacts(s, s.threads[t])
    requires Mem(s, s.threads[t].proc) == MemAfter(s.log, s.threads[t].proc)
    ensures ThreadInv(s', t)
  {
    var th := s.threads[t];
    OperationPoints(s, th, pc, c);
    if s'.threads[t].pc.Op? {
      OperationReads(s, th, pc, c);
    }
    assert s.log[..|s.log|] == s.log;
  }

  /** Elsewhere a step can enter a key operation or recovery at its first point only. */
  lemma OtherPoints(s: State, th: Thread, c: Choice)
    requires Fits(s, th) && !th.pc.Op? && !th.pc.Rs? && !th.pc.Ro? && !th.pc.Rk? && th.mark <= |s.log|
    ensures
      var th' := Plan(s, th, c).th;
      && th'.mark <= |s.log| && !th'.pc.Ro? && !th'.pc.Rk? && (th'.pc.Rs? ==> th'.pc.rs == RsSnapshot)
      && (th'.pc.Op? ==> th'.pc.op == OpWantRead)
  {
  }

  lemma OwnKeeps(s: State, t: nat, c: Choice, s': State)
    requires OwnStep(s, t, c, s') && RestoreFacts(s, s.threads[t]) && TaskFacts(s, s.threads[t])
    ensures ThreadInv(s', t)
  {
    match s.threads[t].pc
    case Op(pc) => OwnOperation(s, t, c, s', pc);
    case Rs(_) => OwnRestore(s, t, c, s');
    case Ro(pc) =>
      if pc.RoDevice? {
        OwnReopenMoves(s, t, c, s');
      } else if pc.RoBmk? {
        OwnStoreBmk(s, t, c, s');
      } else if pc.RoSession? || pc.RoGuard? {
        OwnReopenCheck(s, t, c, s');
      } else {
        OwnReopenReads(s, t, c, s');
      }
    case Rk(pc) =>
      if pc.RkDevice? {
        OwnRekeyDevice(s, t, c, s');
      } else if pc.RkEpoch? {
        OwnRekeyEpoch(s, t, c, s');
      } else {
        OwnRekeyReads(s, t, c, s');
      }
    case _ => OtherPoints(s, s.threads[t], c);
  }

  // ---- every step keeps the invariant ----

  lemma BmkPoints(s: State, th: Thread, c: Choice)
    requires Fits(s, th)
    ensures BmkMoves(th, Plan(s, th, c).eff, Plan(s, th, c).th)
  {
    if th.pc.Rs? {
      RestoreEffects(s, th, c);
    } else if th.pc.In? {
      InitEffects(s, th, c);
    } else {
      ObjectEffects(s, th, c);
    }
  }

  lemma StepOwner(s: State, t: nat, c: Choice, s': State, base: Option<nat>)
    requires Inv(s, base) && Step(s, t, c, s')
    ensures OwnerInv(s')
  {
    PlanEffectOk(s, t, c, base);
    if Open(s.log) && s.log[|s.log| - 1].thread != t {
      var u := s.log[|s.log| - 1].thread;
      assert ResLock in Holds(s.threads[u]);
      ResExcludes(s, u, t);
    }
    KeepOwner(s, t, c, s');
  }

  /** What a step does to the shared state, in one place. */
  lemma StepEffect(s: State, t: nat, c: Choice, s': State, base: Option<nat>)
    requires Inv(s, base) && Step(s, t, c, s')
    ensures
      var m := Plan(s, s.threads[t], c);
      && Shared(s, t, m.eff, s', base) && s'.threads == s.threads[t := m.th]
      && TraceInv(s', base) && Rises(s, s')
  {
    var m := Plan(s, s.threads[t], c);
    NextShared(s, t, c);
    PlanEffectOk(s, t, c, base);
    KeepTrace(s, t, m.eff, s', base);
    if Clean(s'.log) {
      MemoryRises(s, t, m.eff, s', base);
    }
  }

  lemma StepShared(s: State, t: nat, c: Choice, s': State, base: Option<nat>)
    requires Inv(s, base) && Step(s, t, c, s')
    ensures SharedInv(s', base)
  {
    var m := Plan(s, s.threads[t], c);
    StepEffect(s, t, c, s', base);
    StepOwner(s, t, c, s', base);
    BmkPoints(s, s.threads[t], c);
    KeepSessions(s, t, m.eff, s', base);
    KeepKeys(s, t, m.eff, s', base);
    KeepIssues(s, t, m.eff, s', base);
  }

  lemma FactsFor(s: State, t: nat, base: Option<nat>)
    requires Inv(s, base) && t < |s.threads|
    ensures Fits(s, s.threads[t]) && TaskFacts(s, s.threads[t]) && RestoreFacts(s, s.threads[t])
  {
    var th := s.threads[t];
    assert Fits(s, th) && ThreadInv(s, t);
    if th.task.KeyOp? || th.task.KeyGen? {
      assert SessionInv(s, th.task.sess);
    }
    if th.task.KeyOp? {
      assert KeyInv(s, th.task.key);
    }
    if Clean(s.log) && ResLock in Holds(th) && !Writing(th) {
      MemBehind(s.log, base, th.proc);
      if Writes(s.log, th.proc) {
        var u := s.log[|s.log| - 1].thread;
        assert ResLock in Holds(s.threads[u]) && Writing(s.threads[u]);
        ResExcludes(s, t, u);
      }
    }
  }

  lemma StepThreads(s: State, t: nat, c: Choice, s': State, base: Option<nat>)
    requires Inv(s, base) && Step(s, t, c, s') && AllFit(s')
    ensures forall u :: 0 <= u < |s'.threads| ==> ThreadInv(s', u)
  {
    var m := Plan(s, s.threads[t], c);
    StepEffect(s, t, c, s', base);
    ApplyGuarantee(s, t, m.eff, s', base);
    forall u | 0 <= u < |s'.threads| ensures ThreadInv(s', u) {
      assert Fits(s, s.threads[u]) && ThreadInv(s, u);
      if u == t {
        assert Fits(s', s'.threads[t]);
        FactsFor(s, t, base);
        OwnKeeps(s, t, c, s');
      } else {
        GuaranteeGivesRely(s, t, s', u);
        OthersKeep(s, u, s');
      }
    }
  }

  /** Every step keeps the invariant. */
  lemma StepInv(s: State, t: nat, c: Choice, s': State, base: Option<nat>)
    requires Inv(s, base) && Step(s, t, c, s')
    ensures Inv(s', base)
  {
    StepMutEx(s, t, c, s');
    StepFits(s, t, c, s');
    StepShared(s, t, c, s', base);
    StepThreads(s, t, c, s', base);
  }

  lemma StartInv(run: seq<State>, sched: seq<Label>)
    requires IsRun(run, sched)
    ensures Inv(run[0], run[0].stored)
  {
    RunLocks(run, sched, 0);
  }

  lemma InvAlong(run: seq<State>, sched: seq<Label>, n: nat, base: Option<nat>)
    requires IsPath(run, sched) && n < |sched| && Inv(run[n], base)
    ensures Inv(run[n + 1], base)
  {
    StepInv(run[n], sched[n].thread, sched[n].choice, run[n + 1], base);
  }

  /** The invariant holds in every state of every run. */
  lemma {:induction false} RunInv(run: seq<State>, sched: seq<Label>, n: nat)
    requires IsRun(run, sched) && n < |run|
    ensures Inv(run[n], run[0].stored)
  {
    if n == 0 {
      StartInv(run, sched);
    } else {
      RunInv(run, sched, n - 1);
      InvAlong(run, sched, n - 1, run[0].stored);
    }
  }
}
