/**
 Schedules: what one thread can do while the others are idle, from which concrete runs are put
 together.  They show that the conditions of the theorems can arise.
 */
module ProtocolRuns {
  import opened Common
  import opened Epoch
  import opened LockOrder
  import opened Trace
  import opened Protocol
  import opened ProtocolLocks

  /** Some schedule leads from `s` to `s'`. */
  ghost predicate CanReach(s: State, s': State) {
    exists run, sched :: IsPath(run, sched) && run[0] == s && run[|run| - 1] == s'
  }

  lemma ReachSelf(s: State)
    ensures CanReach(s, s)
  {
    assert IsPath([s], []);
  }

  lemma ReachStep(s: State, m: State, t: nat, c: Choice, s': State)
    requires CanReach(s, m) && Step(m, t, c, s')
    ensures CanReach(s, s')
  {
    var run, sched :| IsPath(run, sched) && run[0] == s && run[|run| - 1] == m;
    var run', sched' := run + [s'], sched + [Label(t, c)];
    forall i | 0 <= i < |sched'| ensures Step(run'[i], sched'[i].thread, sched'[i].choice, run'[i + 1]) {
      assert i < |sched| ==> sched'[i] == sched[i];
    }
    assert IsPath(run', sched');
  }

  lemma {:induction false} ReachAlong(a: State, run: seq<State>, sched: seq<Label>, n: nat)
    requires IsPath(run, sched) && n < |run| && CanReach(a, run[0])
    ensures CanReach(a, run[n])
  {
    if n > 0 {
      ReachAlong(a, run, sched, n - 1);
      ReachStep(a, run[n - 1], sched[n - 1].thread, sched[n - 1].choice, run[n]);
    }
  }

  lemma ReachTrans(a: State, b: State, c: State)
    requires CanReach(a, b) && CanReach(b, c)
    ensures CanReach(a, c)
  {
    var run: seq<State>, sched: seq<Label> :| IsPath(run, sched) && run[0] == b && run[|run| - 1] == c;
    ReachAlong(a, run, sched, |run| - 1);
  }

  /** `s` with thread `t` replaced. */
  function Put(s: State, t: nat, th: Thread): State
    requires t < |s.threads|
  {
    s.(threads := s.threads[t := th])
  }

  predicate OthersIdle(s: State, t: nat) {
    forall u :: 0 <= u < |s.threads| && u != t ==> s.threads[u].pc == Idle
  }

  /** One step of a thread, with its effect. */
  predicate Link(s: State, a: Thread, c: Choice, b: Thread, eff: Effect) {
    Fits(s, a) && Plan(s, a, c) == Move(b, eff) && EffectFits(s, a.proc, eff)
  }

  lemma PlanIgnoresThreads(s: State, t: nat, a: Thread, c: Choice, x: Thread)
    requires t < |s.threads| && Fits(s, a)
    ensures Fits(Put(s, t, x), a) && Plan(Put(s, t, x), a, c) == Plan(s, a, c)
  {
  }

  /** A thread that runs alone is never kept waiting. */
  lemma Does(o: State, s: State, t: nat, a: Thread, c: Choice, b: Thread, eff: Effect)
    requires t < |s.threads| && OthersIdle(s, t) && Link(s, a, c, b, eff)
    requires CanReach(o, Put(s, t, a))
    ensures CanReach(o, Put(Apply(s, t, a.proc, eff), t, b))
  {
    var s1 := Put(s, t, a);
    PlanIgnoresThreads(s, t, a, c, a);
    var s2 := Put(Apply(s, t, a.proc, eff), t, b);
    assert s1.threads[t := b] == s.threads[t := b];
    assert Step(s1, t, c, s2);
    ReachStep(o, s1, t, c, s2);
  }

  /** ... in particular with a step that has no effect. */
  lemma Goes(o: State, s: State, t: nat, a: Thread, c: Choice, b: Thread)
    requires t < |s.threads| && OthersIdle(s, t) && Link(s, a, c, b, NoEffect)
    requires CanReach(o, Put(s, t, a))
    ensures CanReach(o, Put(s, t, b))
  {
    Does(o, s, t, a, c, b, NoEffect);
  }

  /** Thread `t` has nothing to do, and neither has any other. */
  predicate Rests(s: State, t: nat) {
    && t < |s.threads| && s.threads[t].proc < |s.procs|
    && forall u :: 0 <= u < |s.threads| ==>
         s.threads[u].pc == Idle && s.threads[u].task == NoTask && s.threads[u].proc < |s.procs|
  }

  /** Everything succeeds and the device establishes credentials. */
  function Smooth(task: Task): Choice {
    Choice(Established, Done, true, Stored, false, 0, task)
  }

  // ---- initialisation, opening a session, generating a key ----

  function Initialised(s: State, t: nat): State
    requires Rests(s, t)
  {
    Apply(s, t, s.threads[t].proc, SetMem(Val(s.stored), ByInit, false))
  }

  lemma InitialisationStarts(o: State, s: State, t: nat)
    requires CanReach(o, s) && Rests(s, t)
    ensures CanReach(o, Put(s, t, s.threads[t].(task := InitPart, pc := In(InDevice))))
  {
    var c, th := Smooth(InitPart), s.threads[t];
    var a := th.(task := InitPart, pc := In(InWantLock));
    assert s == Put(s, t, th);
    Goes(o, s, t, th, c, a);
    Goes(o, s, t, a, c, a.(pc := In(InWantInner)));
    Goes(o, s, t, a.(pc := In(InWantInner)), c, a.(pc := In(InDevice)));
  }

  lemma Initialises(o: State, s: State, t: nat)
    requires CanReach(o, s) && Rests(s, t)
    ensures CanReach(o, Initialised(s, t)) && Rests(Initialised(s, t), t)
  {
    var c, th := Smooth(InitPart), s.threads[t];
    var a := th.(task := InitPart, pc := In(InDevice));
    InitialisationStarts(o, s, t);
    Goes(o, s, t, a, c, a.(pc := In(InReadEpoch)));
    Does(o, s, t, a.(pc := In(InReadEpoch)), c, th, SetMem(Val(s.stored), ByInit, false));
    assert Put(Initialised(s, t), t, th) == Initialised(s, t);
  }

  function Opened(s: State, t: nat): State
    requires Rests(s, t)
  {
    Apply(s, t, s.threads[t].proc, AddSession(false, 0))
  }

  lemma Opens(o: State, s: State, t: nat)
    requires CanReach(o, s) && Rests(s, t) && s.procs[s.threads[t].proc].Some?
    ensures CanReach(o, Opened(s, t)) && Rests(Opened(s, t), t)
  {
    var c, th := Smooth(OpenSession(false)), s.threads[t];
    var a := th.(task := OpenSession(false), pc := Os(OsInner));
    assert s == Put(s, t, th);
    Goes(o, s, t, th, c, a);
    Goes(o, s, t, a, c, a.(pc := Os(OsDevice)));
    Goes(o, s, t, a.(pc := Os(OsDevice)), c, a.(pc := Os(OsDecide(Done))));
    Goes(o, s, t, a.(pc := Os(OsDecide(Done))), c, a.(pc := Os(OsCreate)));
    Does(o, s, t, a.(pc := Os(OsCreate)), c, th, AddSession(false, 0));
    assert Put(Opened(s, t), t, th) == Opened(s, t);
  }

  function Generated(s: State, t: nat, i: nat): State
    requires Rests(s, t)
  {
    Apply(s, t, s.threads[t].proc, AddKey(i))
  }

  lemma GenerationStarts(o: State, s: State, t: nat, i: nat)
    requires CanReach(o, s) && Rests(s, t) && s.procs[s.threads[t].proc].Some?
    requires i < |s.sessions| && s.sessions[i].proc == s.threads[t].proc
    ensures CanReach(o, Put(s, t, s.threads[t].(task := KeyGen(i), pc := Gn(GnInner(false)))))
  {
    var c, th := Smooth(KeyGen(i)), s.threads[t];
    var a := th.(task := KeyGen(i), pc := Gn(GnWantRead));
    assert s == Put(s, t, th);
    Goes(o, s, t, th, c, a);
    Goes(o, s, t, a, c, a.(pc := Gn(GnSession(false))));
    Goes(o, s, t, a.(pc := Gn(GnSession(false))), c, a.(pc := Gn(GnInner(false))));
  }

  lemma Generates(o: State, s: State, t: nat, i: nat)
    requires CanReach(o, s) && Rests(s, t) && s.procs[s.threads[t].proc].Some?
    requires i < |s.sessions| && s.sessions[i].proc == s.threads[t].proc
    ensures CanReach(o, Generated(s, t, i)) && Rests(Generated(s, t, i), t)
  {
    var c, th := Smooth(KeyGen(i)), s.threads[t];
    var a := th.(task := KeyGen(i), pc := Gn(GnInner(false)));
    GenerationStarts(o, s, t, i);
    Goes(o, s, t, a, c, a.(pc := Gn(GnDevice(false))));
    Goes(o, s, t, a.(pc := Gn(GnDevice(false))), c, a.(pc := Gn(GnDecide(Done))));
    Goes(o, s, t, a.(pc := Gn(GnDecide(Done))), c, a.(pc := Gn(GnCreate)));
    Does(o, s, t, a.(pc := Gn(GnCreate)), c, th, AddKey(i));
    assert Put(Generated(s, t, i), t, th) == Generated(s, t, i);
  }

  // ---- a restore entered from session opening ----

  /** Thread `t` opening a session, at point `pc`, with the snapshot of its restore. */
  function Opening(s: State, t: nat, pc: Pc): Thread
    requires Rests(s, t)
  {
    var th := s.threads[t];
    th.(task := OpenSession(false), pc := pc, snap := Mem(s, th.proc), mark := |s.log|)
  }

  /** The device asks for a retry, and establishes credentials when it is asked to. */
  function Retrying(io: bool, write: WriteOutcome, again: bool): Choice {
    Choice(Established, Retryable, io, write, again, 0, OpenSession(false))
  }

  /** An open whose device call fails is about to restore the partition. */
  lemma OpenFails(o: State, s: State, t: nat)
    requires CanReach(o, s) && Rests(s, t) && s.procs[s.threads[t].proc].Some?
    ensures CanReach(o, Put(s, t, s.threads[t].(task := OpenSession(false), pc := Os(OsBackoff))))
  {
    var c, th := Retrying(true, Stored, true), s.threads[t];
    var a := th.(task := OpenSession(false), pc := Os(OsInner));
    assert s == Put(s, t, th);
    Goes(o, s, t, th, c, a);
    Goes(o, s, t, a, c, a.(pc := Os(OsDevice)));
    Goes(o, s, t, a.(pc := Os(OsDevice)), c, a.(pc := Os(OsDecide(Retryable))));
    Goes(o, s, t, a.(pc := Os(OsDecide(Retryable))), c, a.(pc := Os(OsBackoff)));
  }

  function ArmEntered(s: State, t: nat): State
    requires Rests(s, t)
  {
    Apply(s, t, s.threads[t].proc, EnterArm(Mem(s, s.threads[t].proc)))
  }

  lemma RestoreStarts(o: State, s: State, t: nat, a: Thread)
    requires Rests(s, t) && s.procs[s.threads[t].proc].Some?
    requires a == s.threads[t].(task := OpenSession(false), pc := Os(OsBackoff), snap := a.snap, mark := a.mark)
    requires CanReach(o, Put(s, t, a))
    ensures CanReach(o, Put(s, t, Opening(s, t, Rs(RsLockInner))))
  {
    var c := Retrying(true, Stored, true);
    Goes(o, s, t, a, c, a.(pc := Rs(RsSnapshot), mark := |s.log|));
    Goes(o, s, t, a.(pc := Rs(RsSnapshot), mark := |s.log|), c, Opening(s, t, Rs(RsWantLock)));
    Goes(o, s, t, Opening(s, t, Rs(RsWantLock)), c, Opening(s, t, Rs(RsLockInner)));
  }

  /** From backoff a restore gets to the success arm, with the memory it finds as its snapshot. */
  lemma EntersArm(o: State, s: State, t: nat, a: Thread)
    requires Rests(s, t) && s.procs[s.threads[t].proc].Some?
    requires a == s.threads[t].(task := OpenSession(false), pc := Os(OsBackoff), snap := a.snap, mark := a.mark)
    requires CanReach(o, Put(s, t, a))
    ensures CanReach(o, Put(ArmEntered(s, t), t, Opening(s, t, Rs(RsPersist))))
  {
    var c := Retrying(true, Stored, true);
    RestoreStarts(o, s, t, a);
    Goes(o, s, t, Opening(s, t, Rs(RsLockInner)), c, Opening(s, t, Rs(RsCheck)));
    Goes(o, s, t, Opening(s, t, Rs(RsCheck)), c, Opening(s, t, Rs(RsDevice)));
    Goes(o, s, t, Opening(s, t, Rs(RsDevice)), c, Opening(s, t, Rs(RsWantApply(Established))));
    Does(o, s, t, Opening(s, t, Rs(RsWantApply(Established))), c, Opening(s, t, Rs(RsPersist)), EnterArm(Mem(s, s.threads[t].proc)));
  }

  /** The write of the backup masking key fails, and the restore is given up. */
  lemma GivesUp(o: State, s: State, t: nat, r: State)
    requires Rests(s, t) && s.procs[s.threads[t].proc].Some?
    requires CanReach(o, Put(ArmEntered(s, t), t, Opening(s, t, Rs(RsPersist))))
    requires r == Apply(ArmEntered(s, t), t, s.threads[t].proc, LeaveArm(Mem(s, s.threads[t].proc)))
    ensures CanReach(o, Put(r, t, Opening(s, t, Os(OsBackoff))))
  {
    var m := Mem(s, s.threads[t].proc);
    var s1 := ArmEntered(s, t);
    Does(o, s1, t, Opening(s, t, Rs(RsPersist)), Retrying(false, Stored, true), Opening(s, t, Os(OsDecide(Retryable))), LeaveArm(m));
    Goes(o, r, t, Opening(s, t, Os(OsDecide(Retryable))), Retrying(true, Stored, true), Opening(s, t, Os(OsBackoff)));
  }

  /** After a restore whose epoch write reported an error. */
  function WriteFailed(s: State, t: nat, write: WriteOutcome): State
    requires Rests(s, t)
  {
    var p, m, e := s.threads[t].proc, Mem(s, s.threads[t].proc), Bumped(s.stored);
    Apply(Apply(ArmEntered(s, t), t, p, SetMem(e, ByRestore, false)), t, p, WriteStore(m, e, write))
  }

  lemma MovesMemory(o: State, s: State, t: nat)
    requires Rests(s, t) && s.procs[s.threads[t].proc].Some?
    requires CanReach(o, Put(ArmEntered(s, t), t, Opening(s, t, Rs(RsPersist))))
    ensures
      var p, e := s.threads[t].proc, Bumped(s.stored);
      CanReach(o, Put(Apply(ArmEntered(s, t), t, p, SetMem(e, ByRestore, false)), t, Opening(s, t, Rs(RsWriteEpoch)).(cur := e)))
  {
    var e := Bumped(s.stored);
    var c := Retrying(true, Stored, false);
    var s1 := ArmEntered(s, t);
    var a := Opening(s, t, Rs(RsReadEpoch));
    Goes(o, s1, t, Opening(s, t, Rs(RsPersist)), c, a);
    Goes(o, s1, t, a, c, a.(pc := Rs(RsSetMem), cur := e));
    Does(o, s1, t, a.(pc := Rs(RsSetMem), cur := e), c, a.(pc := Rs(RsWriteEpoch), cur := e), SetMem(e, ByRestore, false));
  }

  /** The restore moves memory, its epoch write reports an error, and the open is given up. */
  lemma FailsWrite(o: State, s: State, t: nat, write: WriteOutcome) returns (b: Thread)
    requires Rests(s, t) && s.procs[s.threads[t].proc].Some? && !write.Stored?
    requires CanReach(o, Put(ArmEntered(s, t), t, Opening(s, t, Rs(RsPersist))))
    ensures b == s.threads[t].(snap := b.snap, cur := b.cur, mark := b.mark)
    ensures CanReach(o, Put(WriteFailed(s, t, write), t, b)) && Rests(Put(WriteFailed(s, t, write), t, b), t)
  {
    var p, m, e := s.threads[t].proc, Mem(s, s.threads[t].proc), Bumped(s.stored);
    var c := Retrying(true, write, false);
    var s2 := Apply(ArmEntered(s, t), t, p, SetMem(e, ByRestore, false));
    var a := Opening(s, t, Rs(RsWriteEpoch)).(cur := e);
    MovesMemory(o, s, t);
    Does(o, s2, t, a, c, a.(pc := Os(OsDecide(Retryable))), WriteStore(m, e, write));
    b := a.(task := NoTask, pc := Idle);
    Goes(o, WriteFailed(s, t, write), t, a.(pc := Os(OsDecide(Retryable))), c, b);
  }

  // ---- what can be reached from the start ----

  /** Nothing is running, and key `k` and its session are current in process `p`. */
  predicate Settled(s: State, p: nat, k: nat) {
    && p < |s.procs| && s.procs[p].Some? && k < |s.keys|
    && s.keys[k].proc == p && !s.keys[k].deleted
    && s.keys[k].sess < |s.sessions| && s.sessions[s.keys[k].sess].proc == p
    && s.keys[k].epoch == s.sessions[s.keys[k].sess].epoch == Mem(s, p) == Val(s.stored)
    && (forall t :: 0 <= t < |s.threads| ==>
          s.threads[t].pc == Idle && s.threads[t].task == NoTask && s.threads[t].proc < |s.procs|)
  }

  /** From every start any thread can bring its process to a settled state with a live key. */
  lemma SettledReachable(s: State, t: nat) returns (d: State)
    requires Initial(s) && t < |s.threads|
    ensures CanReach(s, d) && d.threads == s.threads && Settled(d, s.threads[t].proc, 0)
  {
    ReachSelf(s);
    Initialises(s, s, t);
    var s1 := Initialised(s, t);
    Opens(s, s1, t);
    var s2 := Opened(s1, t);
    Generates(s, s2, t, 0);
    d := Generated(s2, t, 0);
  }

  /**
   From every start one snapshot can be used twice by the success arm, although no write is lost:
   the first restore is given up because the backup masking key is not written.
   */
  lemma SnapshotUsedTwice(s: State, t: nat) returns (d: State)
    requires Initial(s) && t < |s.threads|
    ensures
      var p, m := s.threads[t].proc, Val(s.stored);
      CanReach(s, d) && d.log == [MemSet(t, p, m, ByInit, false), Entered(t, p, m), GaveUp(t, p, m), Entered(t, p, m)]
  {
    var p, m := s.threads[t].proc, Val(s.stored);
    ReachSelf(s);
    Initialises(s, s, t);
    var s1 := Initialised(s, t);
    OpenFails(s, s1, t);
    EntersArm(s, s1, t, s1.threads[t].(task := OpenSession(false), pc := Os(OsBackoff)));
    var s2 := Apply(ArmEntered(s1, t), t, p, LeaveArm(m));
    GivesUp(s, s1, t, s2);
    var a := Opening(s1, t, Os(OsBackoff));
    EntersArm(s, s2, t, a);
    d := Put(ArmEntered(s2, t), t, Opening(s2, t, Rs(RsPersist)));
  }

  /** One open that restores and whose epoch write reports an error. */
  lemma RestoreFails(o: State, s: State, t: nat, write: WriteOutcome) returns (d: State)
    requires CanReach(o, s) && Rests(s, t) && s.procs[s.threads[t].proc].Some? && !write.Stored?
    ensures CanReach(o, d) && Rests(d, t) && |d.threads| == |s.threads| && d.threads[t].proc == s.threads[t].proc
    ensures d == WriteFailed(s, t, write).(threads := d.threads)
  {
    OpenFails(o, s, t);
    EntersArm(o, s, t, s.threads[t].(task := OpenSession(false), pc := Os(OsBackoff)));
    var b := FailsWrite(o, s, t, write);
    d := Put(WriteFailed(s, t, write), t, b);
  }

  /** One open that gets to the success arm of its restore. */
  lemma ArmReached(o: State, s: State, t: nat) returns (d: State)
    requires CanReach(o, s) && Rests(s, t) && s.procs[s.threads[t].proc].Some?
    ensures CanReach(o, d) && d.log == s.log + [Entered(t, s.threads[t].proc, Mem(s, s.threads[t].proc))]
  {
    OpenFails(o, s, t);
    EntersArm(o, s, t, s.threads[t].(task := OpenSession(false), pc := Os(OsBackoff)));
    d := Put(ArmEntered(s, t), t, Opening(s, t, Rs(RsPersist)));
  }

  /**
   From every start below saturation a session can become newer than its partition: an epoch write
   is lost, a session is opened, and the partition is initialised again.
   */
  lemma NewerReachable(s: State, t: nat) returns (d: State)
    requires Initial(s) && t < |s.threads| && Val(s.stored) < U64_MAX
    ensures CanReach(s, d) && |d.sessions| == 1 && Rests(d, t) && d.threads[t].proc == s.threads[t].proc
    ensures d.sessions[0].proc == s.threads[t].proc && d.procs[s.threads[t].proc].Some?
    ensures d.sessions[0].epoch == Val(s.stored) + 1 && Mem(d, s.threads[t].proc) == Val(s.stored)
    ensures
      var p, m := s.threads[t].proc, Val(s.stored);
      d.log == [MemSet(t, p, m, ByInit, false), Entered(t, p, m), MemSet(t, p, m + 1, ByRestore, false),
                Wrote(t, p, m, m + 1, Lost), MemSet(t, p, m, ByInit, false)]
  {
    ReachSelf(s);
    Initialises(s, s, t);
    var s2 := RestoreFails(s, Initialised(s, t), t, Lost);
    Opens(s, s2, t);
    var s3 := Opened(s2, t);
    Initialises(s, s3, t);
    d := Initialised(s3, t);
  }

  /** A lost write lets a snapshot be used again: re-initialisation brings memory back to it. */
  lemma LostWriteReuses(s: State, t: nat) returns (d: State)
    requires Initial(s) && t < |s.threads| && Val(s.stored) < U64_MAX
    ensures
      var p, m := s.threads[t].proc, Val(s.stored);
      && CanReach(s, d) && |d.log| == 6 && d.log[1] == Entered(t, p, m) && d.log[2].MemSet? && d.log[5] == Entered(t, p, m)
      && d.log[3] == Wrote(t, p, m, m + 1, Lost)
  {
    var s1 := NewerReachable(s, t);
    d := ArmReached(s, s1, t);
  }

  /** Memory that is ahead of the store lets a snapshot be used again even after a published write. */
  lemma AheadReuses(s: State, t: nat) returns (d: State)
    requires Initial(s) && t < |s.threads| && Val(s.stored) < U64_MAX
    ensures
      var p, e := s.threads[t].proc, Val(s.stored) + 1;
      && CanReach(s, d) && |d.log| == 8 && d.log[4] == Entered(t, p, e) && d.log[5].MemSet?
      && Published(d.log[6]) && d.log[7] == Entered(t, p, e)
  {
    ReachSelf(s);
    Initialises(s, s, t);
    var s2 := RestoreFails(s, Initialised(s, t), t, Lost);
    var s3 := RestoreFails(s, s2, t, StoredButFailed);
    d := ArmReached(s, s3, t);
  }
}
