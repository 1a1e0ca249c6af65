/**
 The other half of deadlock freedom: deleting a key takes the key's lock before the barrier,
 while recovery takes the barrier before the key's lock, so a delete that shares its key with a
 key operation can be scheduled into a circular wait.
 */
module ProtocolDeadlock {
  import opened Common
  import opened Epoch
  import opened LockOrder
  import opened Trace
  import opened Protocol
  import opened ProtocolLocks
  import opened ProtocolRuns

  /** The device reports a lost session, then that the partition is already established. */
  function Recovering(s: State, k: nat): Choice
    requires k < |s.keys|
  {
    Choice(AlreadyEstablished, Retryable, true, Stored, true, 0, KeyOp(k, s.keys[k].sess))
  }

  /** Thread `t` of a settled state, working on key `k` at point `pc`. */
  function At(s: State, t: nat, k: nat, pc: Pc): Thread
    requires t < |s.threads| && k < |s.keys|
  {
    Thread(s.threads[t].proc, KeyOp(k, s.keys[k].sess), pc, s.keys[k].epoch, s.keys[k].epoch, |s.log|, s.threads[t].issue)
  }

  lemma ReachCompare(s: State, t: nat, k: nat)
    requires t < |s.threads| && Settled(s, s.threads[t].proc, k)
    ensures CanReach(s, Put(s, t, At(s, t, k, Op(OpCompareOld)).(snap := s.threads[t].snap, mark := s.threads[t].mark)))
  {
    var c := Recovering(s, k);
    var th := s.threads[t];
    ReachSelf(s);
    assert s == Put(s, t, th);
    var a := th.(task := c.task, pc := Op(OpWantRead));
    Goes(s, s, t, th, c, a);
    Goes(s, s, t, a, c, a.(pc := Op(OpReadKey)));
    var b := At(s, t, k, Op(OpCompareOld)).(snap := th.snap, mark := th.mark);
    Goes(s, s, t, a.(pc := Op(OpReadKey)), c, b);
  }

  lemma ReachOpLocks(s: State, t: nat, k: nat)
    requires t < |s.threads| && Settled(s, s.threads[t].proc, k)
    ensures CanReach(s, Put(s, t, At(s, t, k, Op(OpLockKey)).(snap := s.threads[t].snap)))
  {
    var c := Recovering(s, k);
    ReachCompare(s, t, k);
    var b := At(s, t, k, Op(OpCompareOld)).(snap := s.threads[t].snap, mark := s.threads[t].mark);
    var d := b.(mark := |s.log|);
    Goes(s, s, t, b, c, d.(pc := Op(OpReadKeyAgain)));
    Goes(s, s, t, d.(pc := Op(OpReadKeyAgain)), c, d.(pc := Op(OpCompareNew)));
    Goes(s, s, t, d.(pc := Op(OpCompareNew)), c, d.(pc := Op(OpLockKey)));
  }

  /** A key operation that passes its epoch check reaches its device call. */
  lemma ReachDevice(s: State, t: nat, k: nat)
    requires t < |s.threads| && Settled(s, s.threads[t].proc, k)
    ensures CanReach(s, Put(s, t, At(s, t, k, Op(OpDevice)).(snap := s.threads[t].snap)))
  {
    var c := Recovering(s, k);
    ReachOpLocks(s, t, k);
    var b := At(s, t, k, Op(OpLockKey)).(snap := s.threads[t].snap);
    Goes(s, s, t, b, c, b.(pc := Op(OpLockSession)));
    Goes(s, s, t, b.(pc := Op(OpLockSession)), c, b.(pc := Op(OpLockInner)));
    Goes(s, s, t, b.(pc := Op(OpLockInner)), c, b.(pc := Op(OpDevice)));
  }

  /** A key operation whose device call fails once reaches recovery. */
  lemma ReachRecovery(s: State, t: nat, k: nat)
    requires t < |s.threads| && Settled(s, s.threads[t].proc, k)
    ensures CanReach(s, Put(s, t, At(s, t, k, Rs(RsWantLock))))
  {
    var c := Recovering(s, k);
    ReachDevice(s, t, k);
    var b := At(s, t, k, Op(OpDevice)).(snap := s.threads[t].snap);
    Goes(s, s, t, b, c, b.(pc := Op(OpDecide(Retryable))));
    Goes(s, s, t, b.(pc := Op(OpDecide(Retryable))), c, b.(pc := Op(OpBackoff)));
    Goes(s, s, t, b.(pc := Op(OpBackoff)), c, b.(pc := Op(OpWantWrite)));
    Goes(s, s, t, b.(pc := Op(OpWantWrite)), c, b.(pc := Rs(RsSnapshot)));
    Goes(s, s, t, b.(pc := Rs(RsSnapshot)), c, At(s, t, k, Rs(RsWantLock)));
  }

  /** The restore finds the device already established and memory in step with the store. */
  lemma ReachReopen(s: State, t: nat, k: nat)
    requires t < |s.threads| && Settled(s, s.threads[t].proc, k)
    ensures CanReach(s, Put(s, t, At(s, t, k, Rs(RsWantApply(AlreadyEstablished)))))
  {
    var c := Recovering(s, k);
    ReachRecovery(s, t, k);
    Goes(s, s, t, At(s, t, k, Rs(RsWantLock)), c, At(s, t, k, Rs(RsLockInner)));
    Goes(s, s, t, At(s, t, k, Rs(RsLockInner)), c, At(s, t, k, Rs(RsCheck)));
    Goes(s, s, t, At(s, t, k, Rs(RsCheck)), c, At(s, t, k, Rs(RsDevice)));
    Goes(s, s, t, At(s, t, k, Rs(RsDevice)), c, At(s, t, k, Rs(RsWantApply(AlreadyEstablished))));
  }

  /** Recovery that finds everything already current arrives at the key's lock, holding the barrier. */
  lemma ReachKeyLock(s: State, t: nat, k: nat)
    requires t < |s.threads| && Settled(s, s.threads[t].proc, k)
    ensures CanReach(s, Put(s, t, At(s, t, k, Rk(RkKey))))
  {
    var c := Recovering(s, k);
    ReachReopen(s, t, k);
    Goes(s, s, t, At(s, t, k, Rs(RsWantApply(AlreadyEstablished))), c, At(s, t, k, Rs(RsSync)));
    Goes(s, s, t, At(s, t, k, Rs(RsSync)), c, At(s, t, k, Ro(RoEpoch)));
    Goes(s, s, t, At(s, t, k, Ro(RoEpoch)), c, At(s, t, k, Ro(RoSession)));
    Goes(s, s, t, At(s, t, k, Ro(RoSession)), c, At(s, t, k, Rk(RkEpoch)));
    Goes(s, s, t, At(s, t, k, Rk(RkEpoch)), c, At(s, t, k, Rk(RkKey)));
  }

  /** A delete that starts now takes the key's lock and waits for the barrier. */
  lemma DeleteWaits(s: State, t: nat, u: nat, k: nat)
    requires t < |s.threads| && u < |s.threads| && t != u && Settled(s, s.threads[t].proc, k)
    requires s.threads[u].proc == s.threads[t].proc
    requires CanReach(s, Put(s, t, At(s, t, k, Rk(RkKey))))
    ensures
      var del := s.threads[u].(task := DeleteKey(k, s.keys[k].sess), pc := Dl(DlWantRead));
      CanReach(s, Put(Put(s, t, At(s, t, k, Rk(RkKey))), u, del))
  {
    var c := Recovering(s, k).(task := DeleteKey(k, s.keys[k].sess));
    var s1 := Put(s, t, At(s, t, k, Rk(RkKey)));
    var d1 := s.threads[u].(task := c.task, pc := Dl(DlWantKey));
    var s2 := Put(s1, u, d1);
    assert Step(s1, u, c, s2);
    ReachStep(s, s1, u, c, s2);
    var s3 := Put(s1, u, d1.(pc := Dl(DlWantRead)));
    assert s3.threads == s2.threads[u := d1.(pc := Dl(DlWantRead))];
    assert Ready(s2, u) by {
      forall v | 0 <= v < |s2.threads| && v != u
        ensures Compatible({KeyW(d1)}, Holds(s2.threads[v]))
      {
      }
    }
    assert Step(s2, u, c, s3);
    ReachStep(s, s2, u, c, s3);
  }

  /** One thread works on key `k`, the other deletes it, and they wait on each other. */
  ghost predicate DeadlockedOn(d: State, t: nat, u: nat, k: nat) {
    && t < |d.threads| && u < |d.threads| && k < |d.keys|
    && d.threads[t].task == KeyOp(k, d.keys[k].sess) && d.threads[u].task == DeleteKey(k, d.keys[k].sess)
    && CircularWait(WaitsOf(d), {t, u})
  }

  /**
   From every settled state, any two threads of the process can be scheduled into a circular
   wait: one recovering an operation on a live key, the other deleting that key.
   */
  lemma SharedDeleteDeadlocks(s: State, t: nat, u: nat, k: nat) returns (d: State)
    requires t < |s.threads| && u < |s.threads| && t != u && Settled(s, s.threads[t].proc, k)
    requires s.threads[u].proc == s.threads[t].proc
    ensures CanReach(s, d) && DeadlockedOn(d, t, u, k)
  {
    ReachKeyLock(s, t, k);
    DeleteWaits(s, t, u, k);
    var op := At(s, t, k, Rk(RkKey));
    var del := s.threads[u].(task := DeleteKey(k, s.keys[k].sess), pc := Dl(DlWantRead));
    d := Put(Put(s, t, op), u, del);
    var w := WaitsOf(d);
    assert KeyW(del) in w.holds[u] && Conflict(KeyR(op), KeyW(del));
    assert BarrierW(op) in w.holds[t] && Conflict(BarrierR(del), BarrierW(op));
    assert WaitsOn(w, t, u) && WaitsOn(w, u, t);
    assert WaitsInside(w, {t, u}, t) && WaitsInside(w, {t, u}, u);
    assert CircularWait(w, {t, u});
  }

  /** So every process with two threads can get there from its start. */
  lemma DeadlockReachable(s: State, t: nat, u: nat) returns (d: State)
    requires Initial(s) && t < |s.threads| && u < |s.threads| && t != u && s.threads[u].proc == s.threads[t].proc
    ensures CanReach(s, d) && DeadlockedOn(d, t, u, 0)
  {
    var m := SettledReachable(s, t);
    d := SharedDeleteDeadlocks(m, t, u, 0);
    ReachTrans(s, m, d);
  }
}
