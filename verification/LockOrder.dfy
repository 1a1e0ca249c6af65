/**
 The locks of the resiliency protocol and circular waits among the threads that share them:
 taking locks in ascending rank rules them out, whatever the threads do.
 */
module LockOrder {
  import opened Common

  /** One barrier and one partition lock per process, one lock per session and key, one cross-process lock. */
  datatype Lock = Barrier(proc: nat) | Res | Inner(proc: nat) | SessLock(sess: nat) | KeyLock(key: nat)

  datatype Grant = Grant(lock: Lock, write: bool)

  predicate Conflict(a: Grant, b: Grant) {
    a.lock == b.lock && (a.write || b.write)
  }

  predicate Compatible(a: set<Grant>, b: set<Grant>) {
    forall g, h :: g in a && h in b ==> !Conflict(g, h)
  }

  /** What every thread holds and the one lock it is waiting for, if any. */
  datatype Waits = Waits(holds: seq<set<Grant>>, wants: seq<Option<Grant>>)

  predicate WellFormed(w: Waits) {
    |w.holds| == |w.wants|
  }

  /**
   `t` waits on `u`: `u` holds the lock in a conflicting mode, or `t` wants to read while `u` is
   queued to write (the locks prefer writers).
   */
  predicate WaitsOn(w: Waits, t: nat, u: nat)
    requires WellFormed(w) && t < |w.wants| && u < |w.wants|
  {
    w.wants[t].Some? &&
    var want := w.wants[t].value;
    || !Compatible({want}, w.holds[u])
    || (!want.write && w.wants[u] == Some(Grant(want.lock, true)))
  }

  ghost predicate WaitsInside(w: Waits, waiting: set<nat>, t: nat)
    requires WellFormed(w) && t < |w.wants| && forall u :: u in waiting ==> u < |w.wants|
  {
    exists u :: u in waiting && WaitsOn(w, t, u)
  }

  /** A non-empty set of threads each of which waits on a member of the set. */
  ghost predicate CircularWait(w: Waits, waiting: set<nat>)
    requires WellFormed(w)
  {
    && waiting != {}
    && (forall t :: t in waiting ==> t < |w.wants|)
    && (forall t {:trigger WaitsInside(w, waiting, t)} :: t in waiting ==> WaitsInside(w, waiting, t))
  }

  /**
   The lock order: keys in `doomed` (those being deleted), the key barrier, the cross-process
   lock, any other key, a session, the partition.
   */
  function Rank(doomed: set<nat>, l: Lock): nat {
    match l
    case KeyLock(k) => if k in doomed then 0 else 3
    case Barrier(_) => 1
    case Res => 2
    case SessLock(_) => 4
    case Inner(_) => 5
  }

  /** Thread `t` wants a lock above all the locks it holds. */
  predicate Ascends(w: Waits, doomed: set<nat>, t: nat)
    requires WellFormed(w) && t < |w.wants|
  {
    w.wants[t].Some? ==>
      forall g :: g in w.holds[t] ==> Rank(doomed, g.lock) < Rank(doomed, w.wants[t].value.lock)
  }

  predicate AllAscend(w: Waits, doomed: set<nat>, waiting: set<nat>)
    requires WellFormed(w)
  {
    forall t :: t in waiting && t < |w.wants| ==> Ascends(w, doomed, t)
  }

  function WantRank(w: Waits, doomed: set<nat>, t: nat): nat
    requires t < |w.wants|
  {
    if w.wants[t].Some? then Rank(doomed, w.wants[t].value.lock) else 0
  }

  lemma {:induction false} HighestWant(w: Waits, doomed: set<nat>, waiting: set<nat>) returns (t: nat)
    requires waiting != {} && (forall u :: u in waiting ==> u < |w.wants|)
    ensures t in waiting && (forall u :: u in waiting ==> WantRank(w, doomed, u) <= WantRank(w, doomed, t))
    decreases |waiting|
  {
    var x :| x in waiting;
    var rest := waiting - {x};
    t := x;
    if rest != {} {
      var y := HighestWant(w, doomed, rest);
      t := if WantRank(w, doomed, x) <= WantRank(w, doomed, y) then y else x;
    }
    forall u | u in waiting ensures WantRank(w, doomed, u) <= WantRank(w, doomed, t) {
      assert u == x || u in rest;
    }
  }

  /** A member of a circular wait never holds the highest lock the set is waiting for. */
  lemma NoHolder(w: Waits, doomed: set<nat>, waiting: set<nat>, t: nat, u: nat)
    requires WellFormed(w) && AllAscend(w, doomed, waiting) && CircularWait(w, waiting)
    requires t in waiting && u in waiting && w.wants[t].Some?
    requires forall v :: v in waiting ==> WantRank(w, doomed, v) <= WantRank(w, doomed, t)
    ensures forall g :: g in w.holds[u] ==> g.lock != w.wants[t].value.lock
  {
    assert WaitsInside(w, waiting, u);
    assert Ascends(w, doomed, u);
    assert WantRank(w, doomed, u) <= WantRank(w, doomed, t);
  }

  lemma NoCircularWait(w: Waits, doomed: set<nat>, waiting: set<nat>)
    requires WellFormed(w) && AllAscend(w, doomed, waiting)
    ensures !CircularWait(w, waiting)
  {
    if CircularWait(w, waiting) {
      var t := HighestWant(w, doomed, waiting);
      assert WaitsInside(w, waiting, t);
      var u :| u in waiting && WaitsOn(w, t, u);
      NoHolder(w, doomed, waiting, t, u);
      // So `u` is a writer queued on the same lock, and somebody in the set holds it.
      assert WaitsInside(w, waiting, u);
      var v :| v in waiting && WaitsOn(w, u, v);
      NoHolder(w, doomed, waiting, t, v);
      assert false;
    }
  }

  /** If some thread is busy, some busy thread waits on nobody; idle threads hold and want nothing. */
  lemma SomebodyRuns(w: Waits, doomed: set<nat>, busy: set<nat>) returns (r: nat)
    requires WellFormed(w) && AllAscend(w, doomed, busy) && busy != {}
    requires forall t :: t in busy ==> t < |w.wants|
    requires forall t :: 0 <= t < |w.wants| && t !in busy ==> w.holds[t] == {} && w.wants[t] == None
    ensures r in busy && forall u :: 0 <= u < |w.wants| ==> !WaitsOn(w, r, u)
  {
    NoCircularWait(w, doomed, busy);
    r :| r in busy && !WaitsInside(w, busy, r);
    forall u | 0 <= u < |w.wants| ensures !WaitsOn(w, r, u) {
      if u !in busy {
        assert w.holds[u] == {} && w.wants[u] == None;
      }
    }
  }
}
