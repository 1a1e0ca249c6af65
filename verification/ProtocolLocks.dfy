/** Mutual exclusion, lock ordering and deadlock freedom of the step system. */
module ProtocolLocks {
  import opened Common
  import opened Epoch
  import opened LockOrder
  import opened Trace
  import opened Protocol

  // ---- mutual exclusion ----

  predicate MutEx(s: State) {
    forall t, u :: 0 <= t < u < |s.threads| ==> Compatible(Holds(s.threads[t]), Holds(s.threads[u]))
  }

  predicate AllFit(s: State) {
    forall t :: 0 <= t < |s.threads| ==> Fits(s, s.threads[t])
  }

  /** The grants a thread may hold after its next step: those it holds and the one it waited for. */
  predicate HoldsAtMost(th: Thread, th': Thread) {
    forall g :: g in Holds(th') ==> g in Holds(th) || Wants(th) == Some(g)
  }

  lemma OpGrants(s: State, th: Thread, pc: OpPc, c: Choice)
    requires Fits(s, th) && th.pc == Op(pc)
    ensures HoldsAtMost(th, PlanOp(s, th, pc, c).th)
  {
  }

  lemma RsGrants(s: State, th: Thread, pc: RsPc, c: Choice)
    requires Fits(s, th) && th.pc == Rs(pc)
    ensures HoldsAtMost(th, PlanRs(s, th, pc, c).th)
  {
  }

  lemma RoGrants(s: State, th: Thread, pc: RoPc, c: Choice)
    requires Fits(s, th) && th.pc == Ro(pc)
    ensures HoldsAtMost(th, PlanRo(s, th, pc, c).th)
  {
  }

  lemma RkGrants(s: State, th: Thread, pc: RkPc, c: Choice)
    requires Fits(s, th) && th.pc == Rk(pc)
    ensures HoldsAtMost(th, PlanRk(s, th, pc, c).th)
  {
  }

  lemma GnGrants(s: State, th: Thread, pc: GnPc, c: Choice)
    requires Fits(s, th) && th.pc == Gn(pc)
    ensures HoldsAtMost(th, PlanGn(s, th, pc, c).th)
  {
  }

  lemma DlGrants(s: State, th: Thread, pc: DlPc, c: Choice)
    requires Fits(s, th) && th.pc == Dl(pc)
    ensures HoldsAtMost(th, PlanDl(s, th, pc, c).th)
  {
  }

  lemma StepGrants(s: State, th: Thread, c: Choice)
    requires Fits(s, th)
    ensures HoldsAtMost(th, Plan(s, th, c).th)
  {
    match th.pc
    case Idle =>
    case Op(pc) => OpGrants(s, th, pc, c);
    case Rs(pc) => RsGrants(s, th, pc, c);
    case Ro(pc) => RoGrants(s, th, pc, c);
    case Rk(pc) => RkGrants(s, th, pc, c);
    case Gn(pc) => GnGrants(s, th, pc, c);
    case Os(pc) =>
    case In(pc) =>
    case Dl(pc) => DlGrants(s, th, pc, c);
  }

  /** Taking a free lock keeps a thread compatible with another one. */
  lemma GrantCompatible(held: set<Grant>, want: Option<Grant>, now: set<Grant>, other: set<Grant>)
    requires Compatible(held, other) && (want.Some? ==> Compatible({want.value}, other))
    requires forall g :: g in now ==> g in held || want == Some(g)
    ensures Compatible(now, other) && Compatible(other, now)
  {
  }

  /** No two of the sets conflict. */
  predicate AllCompatible(holds: seq<set<Grant>>) {
    forall a, b :: 0 <= a < b < |holds| ==> Compatible(holds[a], holds[b])
  }

  lemma CompatibleSym(a: set<Grant>, b: set<Grant>)
    requires Compatible(a, b)
    ensures Compatible(b, a)
  {
  }

  lemma GrantPair(holds: seq<set<Grant>>, t: nat, want: Option<Grant>, now: set<Grant>, u: nat)
    requires AllCompatible(holds) && t < |holds| && u < |holds| && t != u
    requires want.Some? ==> Compatible({want.value}, holds[u])
    requires forall g :: g in now ==> g in holds[t] || want == Some(g)
    ensures Compatible(now, holds[u]) && Compatible(holds[u], now)
  {
    if u < t {
      CompatibleSym(holds[u], holds[t]);
    }
    GrantCompatible(holds[t], want, now, holds[u]);
  }

  lemma GrantOne(holds: seq<set<Grant>>, t: nat, want: Option<Grant>, now: set<Grant>)
    requires AllCompatible(holds) && t < |holds|
    requires want.Some? ==> forall u :: 0 <= u < |holds| && u != t ==> Compatible({want.value}, holds[u])
    requires forall g :: g in now ==> g in holds[t] || want == Some(g)
    ensures AllCompatible(holds[t := now])
  {
    var next := holds[t := now];
    forall a, b | 0 <= a < b < |next| ensures Compatible(next[a], next[b]) {
      if a == t {
        GrantPair(holds, t, want, now, b);
      } else if b == t {
        GrantPair(holds, t, want, now, a);
      }
    }
  }

  lemma MutExOfWaits(s: State)
    ensures MutEx(s) <==> AllCompatible(WaitsOf(s).holds)
  {
  }

  lemma GrantKeepsMutEx(s: State, t: nat, s': State)
    requires MutEx(s) && t < |s.threads| && Ready(s, t) && t < |s'.threads|
    requires s'.threads == s.threads[t := s'.threads[t]] && HoldsAtMost(s.threads[t], s'.threads[t])
    ensures MutEx(s')
  {
    var holds, now := WaitsOf(s).holds, Holds(s'.threads[t]);
    MutExOfWaits(s);
    MutExOfWaits(s');
    GrantOne(holds, t, Wants(s.threads[t]), now);
    assert WaitsOf(s').holds == holds[t := now];
  }

  /** A step keeps mutual exclusion: it adds at most the lock the thread had to find free. */
  lemma StepMutEx(s: State, t: nat, c: Choice, s': State)
    requires MutEx(s) && Step(s, t, c, s')
    ensures MutEx(s')
  {
    StepGrants(s, s.threads[t], c);
    GrantKeepsMutEx(s, t, s');
  }

  // ---- well-formedness ----

  /** Objects are only ever added, and keep the process and session they belong to. */
  predicate Grows(s: State, s': State) {
    && |s.procs| == |s'.procs|
    && (forall p :: 0 <= p < |s.procs| && s.procs[p].Some? ==> s'.procs[p].Some?)
    && |s.sessions| <= |s'.sessions| && |s.keys| <= |s'.keys|
    && (forall i :: 0 <= i < |s.sessions| ==>
          s'.sessions[i].proc == s.sessions[i].proc && s'.sessions[i].v2 == s.sessions[i].v2)
    && (forall k :: 0 <= k < |s.keys| ==>
          s'.keys[k].proc == s.keys[k].proc && s'.keys[k].sess == s.keys[k].sess)
  }

  lemma ApplyGrows(s: State, t: nat, p: nat, eff: Effect)
    requires EffectFits(s, p, eff)
    ensures Grows(s, Apply(s, t, p, eff))
  {
  }

  lemma FitsGrows(s: State, s': State, th: Thread)
    requires Fits(s, th) && Grows(s, s')
    ensures Fits(s', th)
  {
  }

  lemma WorkFits(s: State, th: Thread, c: Choice)
    requires Fits(s, th) && (th.pc.Op? || th.pc.Ro? || th.pc.Rk? || th.pc.Gn?)
    ensures Fits(s, Plan(s, th, c).th)
  {
  }

  lemma RestoreFits(s: State, th: Thread, c: Choice)
    requires Fits(s, th) && th.pc.Rs?
    ensures Fits(s, Plan(s, th, c).th)
  {
  }

  lemma RestFits(s: State, th: Thread, c: Choice)
    requires Fits(s, th) && (th.pc == Idle || th.pc.Os? || th.pc.In? || th.pc.Dl?)
    ensures Fits(s, Plan(s, th, c).th)
  {
  }

  lemma PlanFits(s: State, th: Thread, c: Choice)
    requires Fits(s, th)
    ensures Fits(s, Plan(s, th, c).th)
  {
    if th.pc.Rs? {
      RestoreFits(s, th, c);
    } else if th.pc == Idle || th.pc.Os? || th.pc.In? || th.pc.Dl? {
      RestFits(s, th, c);
    } else {
      WorkFits(s, th, c);
    }
  }

  lemma StepFits(s: State, t: nat, c: Choice, s': State)
    requires AllFit(s) && Step(s, t, c, s')
    ensures AllFit(s') && Grows(s, s')
  {
    var th := s.threads[t];
    PlanEffectFits(s, th, c);
    PlanFits(s, th, c);
    ApplyGrows(s, t, th.proc, Plan(s, th, c).eff);
    forall u | 0 <= u < |s'.threads| ensures Fits(s', s'.threads[u]) {
      FitsGrows(s, s', s'.threads[u]);
    }
  }

  lemma LocksAlong(run: seq<State>, sched: seq<Label>, n: nat)
    requires IsPath(run, sched) && n < |sched| && MutEx(run[n]) && AllFit(run[n])
    ensures MutEx(run[n + 1]) && AllFit(run[n + 1])
  {
    var l := sched[n];
    StepMutEx(run[n], l.thread, l.choice, run[n + 1]);
    StepFits(run[n], l.thread, l.choice, run[n + 1]);
  }

  /** Mutual exclusion and well-formedness hold in every state of every run. */
  lemma {:induction false} RunLocks(run: seq<State>, sched: seq<Label>, n: nat)
    requires IsRun(run, sched) && n < |run|
    ensures MutEx(run[n]) && AllFit(run[n])
  {
    if n > 0 {
      RunLocks(run, sched, n - 1);
      LocksAlong(run, sched, n - 1);
    }
  }

  // ---- lock order ----

  predicate Touches(task: Task, k: nat) {
    (task.KeyOp? || task.DeleteKey?) && TaskKey(task) == k
  }

  /** No thread of the set works on a key that another thread of the set is deleting. */
  predicate ExclusiveDelete(s: State, among: set<nat>) {
    forall t, u | t in among && u in among && t != u && t < |s.threads| && u < |s.threads| ::
      s.threads[t].task.DeleteKey? ==> !Touches(s.threads[u].task, TaskKey(s.threads[t].task))
  }

  /** The keys some thread of the set is deleting. */
  function Doomed(s: State, among: set<nat>): set<nat> {
    set t | t in among && t < |s.threads| && s.threads[t].task.DeleteKey? :: TaskKey(s.threads[t].task)
  }

  function WaitsOf(s: State): (w: Waits)
    ensures WellFormed(w) && |w.wants| == |s.threads|
    ensures forall t :: 0 <= t < |s.threads| ==>
      w.holds[t] == Holds(s.threads[t]) && w.wants[t] == Wants(s.threads[t])
  {
    Waits(seq(|s.threads|, t requires 0 <= t < |s.threads| => Holds(s.threads[t])),
          seq(|s.threads|, t requires 0 <= t < |s.threads| => Wants(s.threads[t])))
  }

  /** Every point of every task takes its next lock above all the locks held there. */
  lemma PcAscends(th: Thread, doomed: set<nat>, g: Grant)
    requires PcFitsTask(th.pc, th.task)
    requires th.task.DeleteKey? ==> TaskKey(th.task) in doomed
    requires th.task.KeyOp? ==> TaskKey(th.task) !in doomed
    requires Wants(th).Some? && g in Holds(th)
    ensures Rank(doomed, g.lock) < Rank(doomed, Wants(th).value.lock)
  {
  }

  lemma StateAscends(s: State, among: set<nat>)
    requires AllFit(s) && ExclusiveDelete(s, among)
    ensures AllAscend(WaitsOf(s), Doomed(s, among), among)
  {
    var doomed := Doomed(s, among);
    forall t | t in among && t < |s.threads| ensures Ascends(WaitsOf(s), doomed, t) {
      var th := s.threads[t];
      assert Fits(s, th);
      forall g | g in Holds(th) && Wants(th).Some?
        ensures Rank(doomed, g.lock) < Rank(doomed, Wants(th).value.lock)
      {
        PcAscends(th, doomed, g);
      }
    }
  }

  predicate Sleeps(th: Thread) {
    th.pc in {Op(OpBackoff), Gn(GnBackoff), Os(OsBackoff), In(InBackoff)}
  }

  /**
   What a thread holds while it sleeps in backoff: never the key barrier; nothing at all in the
   three loops that recover; the cross-process lock and the partition, for writing, in the loop
   that initialises.  A loop that is about to take the barrier for writing holds nothing either.
   */
  lemma HeldInBackoff(th: Thread)
    ensures Sleeps(th) ==> BarrierR(th) !in Holds(th) && BarrierW(th) !in Holds(th)
    ensures Sleeps(th) ==> Holds(th) == if th.pc.In? then {ResLock, InnerW(th)} else {}
    ensures th.pc == Op(OpWantWrite) || th.pc == Gn(GnWantWrite) ==> Holds(th) == {}
  {
  }

  /**
   Deadlock freedom: if no busy thread works on a key another one is deleting, then whenever some
   thread has work to do, some thread with work to do waits on nobody and can take its step.
   */
  lemma SomeThreadRuns(s: State, busy: set<nat>) returns (r: nat)
    requires AllFit(s) && busy == (set u | 0 <= u < |s.threads| && s.threads[u].pc != Idle)
    requires busy != {} && ExclusiveDelete(s, busy)
    ensures r in busy && Ready(s, r)
    ensures forall u :: 0 <= u < |s.threads| ==> !WaitsOn(WaitsOf(s), r, u)
  {
    StateAscends(s, busy);
    r := SomebodyRuns(WaitsOf(s), Doomed(s, busy), busy);
    forall u | 0 <= u < |s.threads| && u != r && Wants(s.threads[r]).Some?
      ensures Compatible({Wants(s.threads[r]).value}, Holds(s.threads[u]))
    {
      assert !WaitsOn(WaitsOf(s), r, u);
    }
  }

  /**
   Over every run, a set of threads can be in a circular wait only if one of them is deleting a
   key that another one of them is working on.
   */
  lemma RunDeadlockFree(run: seq<State>, sched: seq<Label>, n: nat, waiting: set<nat>)
    requires IsRun(run, sched) && n < |run|
    ensures CircularWait(WaitsOf(run[n]), waiting) ==> !ExclusiveDelete(run[n], waiting)
  {
    RunLocks(run, sched, n);
    if ExclusiveDelete(run[n], waiting) {
      StateAscends(run[n], waiting);
      NoCircularWait(WaitsOf(run[n]), Doomed(run[n], waiting), waiting);
    }
  }
}
