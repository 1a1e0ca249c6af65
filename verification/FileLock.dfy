/**
 The flock-based cross-process lock (crates/resiliency_test_helpers/src/lib.rs) used through the
 acquire/release guard (api/lib/src/resiliency.rs).  Any number of processes, threads and lock
 instances share one lock file; every `lock()` opens its own description, the OS grants an
 exclusive lock to one description at a time, and a process may die at any point.
 */
module FileLock {
  import opened Common

  /** A lock instance lives in one process. */
  datatype Inst = Inst(id: nat, proc: nat)

  /** An open file description; closing it, by hand or by dying, gives its OS lock back. */
  datatype Desc = Desc(id: nat, proc: nat)

  datatype Pc =
    | Idle
    | Opened(inst: Inst, desc: Desc)    // waits for the OS lock
    | Flocked(inst: Inst, desc: Desc)   // holds it, waits for the mutex around `active`
    | Checking(inst: Inst, desc: Desc)  // inside the mutex
    | Reentered(inst: Inst, desc: Desc) // inside the mutex, `active` was already set
    | Dropping(inst: Inst)              // the guard is dropped, waits for the mutex
    | Taken(inst: Inst, desc: Desc)     // inside the mutex, the description is out of `active`
    | Lost(inst: Inst)                  // `unlock()` found nothing in `active`
    | Dead

  /** `held` lists the guards the thread has acquired and not yet dropped. */
  datatype Thread = Thread(proc: nat, held: seq<Inst>, pc: Pc)

  /** `os` is the description that owns the OS lock; `active` is defined where the slot is `Some`. */
  datatype State = State(os: Option<Desc>, next: nat, active: map<Inst, Desc>, threads: seq<Thread>)

  datatype Action = Open(inst: Inst) | Grant | Fail | Enter | Decide | Refuse | Drop | Take | Release

  datatype Label = Act(t: nat, action: Action) | Crash(proc: nat)

  predicate InMutex(th: Thread, i: Inst) {
    (th.pc.Checking? || th.pc.Reentered? || th.pc.Taken?) && th.pc.inst == i
  }

  predicate MutexFree(s: State, i: Inst) {
    forall t | 0 <= t < |s.threads| :: !InMutex(s.threads[t], i)
  }

  predicate ActionEnabled(s: State, th: Thread, a: Action) {
    match a
    case Open(inst) => th.pc.Idle? && inst.proc == th.proc
    case Grant => th.pc.Opened? && s.os.None?
    case Fail => th.pc.Opened?
    case Enter => th.pc.Flocked? && MutexFree(s, th.pc.inst)
    case Decide => th.pc.Checking?
    case Refuse => th.pc.Reentered?
    case Drop => th.pc.Idle? && th.held != []
    case Take => th.pc.Dropping? && MutexFree(s, th.pc.inst)
    case Release => th.pc.Taken?
  }

  predicate Enabled(s: State, l: Label) {
    l.Act? ==> l.t < |s.threads| && ActionEnabled(s, s.threads[l.t], l.action)
  }

  function ActionAfter(s: State, t: nat, a: Action): State
    requires t < |s.threads| && ActionEnabled(s, s.threads[t], a)
  {
    var th := s.threads[t];
    match a
    case Open(inst) => s.(next := s.next + 1, threads := s.threads[t := th.(pc := Opened(inst, Desc(s.next, th.proc)))])
    case Grant => s.(os := Some(th.pc.desc), threads := s.threads[t := th.(pc := Flocked(th.pc.inst, th.pc.desc))])
    case Fail => s.(threads := s.threads[t := th.(pc := Idle)])
    case Enter => s.(threads := s.threads[t := th.(pc := Checking(th.pc.inst, th.pc.desc))])
    case Decide =>
      if th.pc.inst in s.active then s.(threads := s.threads[t := th.(pc := Reentered(th.pc.inst, th.pc.desc))])
      else
        s.(active := s.active[th.pc.inst := th.pc.desc],
           threads := s.threads[t := Thread(th.proc, th.held + [th.pc.inst], Idle)])
    case Refuse => s.(os := Closed(s.os, th.pc.desc), threads := s.threads[t := th.(pc := Idle)])
    case Drop =>
      s.(threads := s.threads[t := Thread(th.proc, th.held[..|th.held| - 1], Dropping(th.held[|th.held| - 1]))])
    case Take =>
      if th.pc.inst in s.active then
        s.(active := s.active - {th.pc.inst}, threads := s.threads[t := th.(pc := Taken(th.pc.inst, s.active[th.pc.inst]))])
      else
        s.(threads := s.threads[t := th.(pc := Lost(th.pc.inst))])
    case Release => s.(os := Closed(s.os, th.pc.desc), threads := s.threads[t := th.(pc := Idle)])
  }

  /** The OS lock after `d` is unlocked or closed. */
  function Closed(os: Option<Desc>, d: Desc): Option<Desc> {
    if os == Some(d) then None else os
  }

  function Survivors(threads: seq<Thread>, proc: nat): (r: seq<Thread>)
    ensures |r| == |threads|
    ensures forall t | 0 <= t < |threads| :: r[t] == if threads[t].proc == proc then Thread(proc, [], Dead) else threads[t]
  {
    seq(|threads|, i requires 0 <= i < |threads| => if threads[i].proc == proc then Thread(proc, [], Dead) else threads[i])
  }

  function After(s: State, l: Label): State
    requires Enabled(s, l)
  {
    match l
    case Act(t, a) => ActionAfter(s, t, a)
    case Crash(proc) =>
      State(if s.os.Some? && s.os.value.proc == proc then None else s.os, s.next,
            map i | i in s.active && i.proc != proc :: s.active[i], Survivors(s.threads, proc))
  }

  predicate Initial(s: State) {
    s.os.None? && s.active == map[] && forall t | 0 <= t < |s.threads| :: s.threads[t].held == [] && s.threads[t].pc.Idle?
  }

  predicate IsRun(states: seq<State>, labels: seq<Label>) {
    && |states| == |labels| + 1 && Initial(states[0])
    && forall k: nat {:trigger labels[k]} | k < |labels| :: Enabled(states[k], labels[k]) && states[k + 1] == After(states[k], labels[k])
  }

  // ---- invariant ----

  /** The thread is between the grant of the OS lock to it and the release. */
  predicate Inside(th: Thread) {
    th.held != [] || th.pc.Flocked? || th.pc.Checking? || th.pc.Reentered? || th.pc.Dropping? || th.pc.Taken? || th.pc.Lost?
  }

  /** The thread's guard, if any, is the only one and its description sits in `active`. */
  predicate Guarded(s: State, proc: nat, i: Inst) {
    i.proc == proc && s.active.Keys == {i} && s.os == Some(s.active[i]) && s.active[i].proc == proc
  }

  predicate ThreadInv(s: State, th: Thread) {
    && |th.held| <= 1
    && (th.held != [] ==> Guarded(s, th.proc, th.held[0]) && (th.pc.Idle? || th.pc.Opened?))
    && match th.pc
       case Idle => true
       case Opened(i, d) => i.proc == th.proc && d.proc == th.proc && d.id < s.next && s.os != Some(d)
       case Flocked(i, d) => i.proc == th.proc && d.proc == th.proc && s.os == Some(d) && s.active == map[]
       case Checking(i, d) => i.proc == th.proc && d.proc == th.proc && s.os == Some(d) && s.active == map[]
       case Reentered(_, _) => false
       case Dropping(i) => Guarded(s, th.proc, i)
       case Taken(_, d) => d.proc == th.proc && s.os == Some(d) && s.active == map[]
       case Lost(_) => false
       case Dead => true
  }

  predicate Exclusive(s: State) {
    forall t, u | 0 <= t < |s.threads| && 0 <= u < |s.threads| && Inside(s.threads[t]) && Inside(s.threads[u]) :: t == u
  }

  predicate OpensDistinct(s: State) {
    forall t, u | 0 <= t < |s.threads| && 0 <= u < |s.threads| && t != u && s.threads[t].pc.Opened? && s.threads[u].pc.Opened? ::
      s.threads[t].pc.desc != s.threads[u].pc.desc
  }

  predicate SomeoneInside(s: State, proc: nat) {
    exists t :: 0 <= t < |s.threads| && Inside(s.threads[t]) && s.threads[t].proc == proc
  }

  predicate Inv(s: State) {
    && (forall t | 0 <= t < |s.threads| :: ThreadInv(s, s.threads[t]))
    && Exclusive(s) && OpensDistinct(s)
    && (s.os.None? ==> s.active == map[])
    && (s.os.Some? ==> s.os.value.id < s.next && SomeoneInside(s, s.os.value.proc))
  }

  /** Changing one thread: what the others and the shared part must satisfy. */
  lemma Frame(s: State, n: State, t: nat)
    requires Inv(s) && t < |s.threads| && |n.threads| == |s.threads|
    requires forall u | 0 <= u < |s.threads| && u != t :: n.threads[u] == s.threads[u]
    requires forall u | 0 <= u < |s.threads| && u != t :: ThreadInv(n, s.threads[u])
    requires ThreadInv(n, n.threads[t])
    requires Inside(n.threads[t]) ==> forall u | 0 <= u < |s.threads| && u != t :: !Inside(s.threads[u])
    requires n.threads[t].pc.Opened? ==> n.threads[t].pc == s.threads[t].pc || n.threads[t].pc.desc.id == s.next
    requires n.os.None? ==> n.active == map[]
    requires n.os.Some? ==> n.os.value.id < n.next && SomeoneInside(n, n.os.value.proc)
    ensures Inv(n)
  {
  }

  lemma LockKeeps(s: State, t: nat, a: Action)
    requires Inv(s) && t < |s.threads| && ActionEnabled(s, s.threads[t], a) && (a.Open? || a.Grant? || a.Fail? || a.Enter?)
    ensures Inv(ActionAfter(s, t, a))
  {
    var n, th := ActionAfter(s, t, a), s.threads[t];
    assert ThreadInv(s, th);
    if s.os.Some? {
      var u :| 0 <= u < |s.threads| && Inside(s.threads[u]) && s.threads[u].proc == s.os.value.proc;
      assert u != t ==> n.threads[u] == s.threads[u];
    }
    Frame(s, n, t);
  }

  lemma HolderKeeps(s: State, t: nat, a: Action)
    requires Inv(s) && t < |s.threads| && ActionEnabled(s, s.threads[t], a) && !(a.Open? || a.Grant? || a.Fail? || a.Enter?)
    ensures Inv(ActionAfter(s, t, a))
  {
    var n, th := ActionAfter(s, t, a), s.threads[t];
    assert ThreadInv(s, th);
    Frame(s, n, t);
  }

  lemma ActKeeps(s: State, t: nat, a: Action)
    requires Inv(s) && t < |s.threads| && ActionEnabled(s, s.threads[t], a)
    ensures Inv(ActionAfter(s, t, a))
  {
    if a.Open? || a.Grant? || a.Fail? || a.Enter? {
      LockKeeps(s, t, a);
    } else {
      HolderKeeps(s, t, a);
    }
  }

  lemma CrashKeepsThread(s: State, proc: nat, t: nat)
    requires Inv(s) && t < |s.threads|
    ensures |After(s, Crash(proc)).threads| == |s.threads|
    ensures ThreadInv(After(s, Crash(proc)), After(s, Crash(proc)).threads[t])
  {
    assert ThreadInv(s, s.threads[t]);
  }

  lemma CrashKeepsPairs(s: State, proc: nat)
    requires Exclusive(s) && OpensDistinct(s)
    ensures Exclusive(After(s, Crash(proc))) && OpensDistinct(After(s, Crash(proc)))
  {
  }

  /** The lock is free after the crash, or its holder lives on. */
  lemma CrashKeepsOwner(s: State, proc: nat)
    requires Inv(s)
    ensures
      var n := After(s, Crash(proc));
      && (n.os.None? ==> n.active == map[])
      && (n.os.Some? ==> n.os.value.id < n.next && SomeoneInside(n, n.os.value.proc))
  {
    var n := After(s, Crash(proc));
    if s.os.Some? {
      var u :| 0 <= u < |s.threads| && Inside(s.threads[u]) && s.threads[u].proc == s.os.value.proc;
      assert ThreadInv(s, s.threads[u]);
      assert n.os.Some? ==> n.threads[u] == s.threads[u];
    }
  }

  lemma CrashKeeps(s: State, proc: nat)
    requires Inv(s)
    ensures Inv(After(s, Crash(proc)))
  {
    var n := After(s, Crash(proc));
    forall t | 0 <= t < |n.threads|
      ensures ThreadInv(n, n.threads[t])
    {
      CrashKeepsThread(s, proc, t);
    }
    CrashKeepsPairs(s, proc);
    CrashKeepsOwner(s, proc);
  }

  lemma {:induction false} RunInv(states: seq<State>, labels: seq<Label>, k: nat)
    requires IsRun(states, labels) && k < |states|
    ensures Inv(states[k])
  {
    if k > 0 {
      RunInv(states, labels, k - 1);
      match labels[k - 1]
      case Act(t, a) => ActKeeps(states[k - 1], t, a);
      case Crash(proc) => CrashKeeps(states[k - 1], proc);
    }
  }

  // ---- theorems over every run ----

  /** At most one guard exists at a time, over all threads, processes and instances. */
  lemma MutualExclusion(states: seq<State>, labels: seq<Label>, k: nat, t: nat, u: nat)
    requires IsRun(states, labels) && k < |states| && t < |states[k].threads| && u < |states[k].threads|
    requires states[k].threads[t].held != [] && states[k].threads[u].held != []
    ensures t == u && |states[k].threads[t].held| == 1
  {
    RunInv(states, labels, k);
    assert ThreadInv(states[k], states[k].threads[t]);
  }

  /**
   A slot is set only while its own description has the OS lock, so at most one is set; and the OS
   lock is taken exactly while some live thread is between its grant and its release.
   */
  lemma SlotsFollowOsLock(states: seq<State>, labels: seq<Label>, k: nat)
    requires IsRun(states, labels) && k < |states|
    ensures
      var s := states[k];
      && (forall i | i in s.active :: s.os == Some(s.active[i]) && s.active.Keys == {i})
      && (s.os.Some? <==> exists t :: 0 <= t < |s.threads| && Inside(s.threads[t]))
  {
    RunInv(states, labels, k);
    var s := states[k];
    if s.os.Some? {
      var u :| 0 <= u < |s.threads| && Inside(s.threads[u]) && s.threads[u].proc == s.os.value.proc;
      assert ThreadInv(s, s.threads[u]);
    }
    forall t | 0 <= t < |s.threads| && Inside(s.threads[t])
      ensures s.os.Some?
    {
      assert ThreadInv(s, s.threads[t]);
    }
  }

  /** `lock()` never takes its re-entrancy error branch and `unlock()` always finds its description. */
  lemma ErrorBranchesUnreachable(states: seq<State>, labels: seq<Label>, k: nat, t: nat)
    requires IsRun(states, labels) && k < |states| && t < |states[k].threads|
    ensures !states[k].threads[t].pc.Reentered? && !states[k].threads[t].pc.Lost?
  {
    RunInv(states, labels, k);
    assert ThreadInv(states[k], states[k].threads[t]);
  }

  /**
   A thread that locks again while it holds a guard is never granted the second lock: it stays
   where it is until the OS refuses the request or its process dies.  The comment in the code says
   the second call succeeds at once; a fresh description is what makes it wait instead.
   */
  lemma NestedNeverGranted(states: seq<State>, labels: seq<Label>, k: nat, t: nat)
    requires IsRun(states, labels) && k < |labels| && t < |states[k].threads|
    requires states[k].threads[t].held != [] && states[k].threads[t].pc.Opened?
    ensures
      var now, later := states[k].threads[t], states[k + 1].threads;
      t < |later| && (later[t] == now || (labels[k] == Act(t, Fail) && later[t] == now.(pc := Idle)) || later[t].pc.Dead?)
  {
    RunInv(states, labels, k);
    assert Enabled(states[k], labels[k]);
    assert ThreadInv(states[k], states[k].threads[t]);
  }
}
