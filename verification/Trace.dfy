/**
 The history of the resiliency protocol: the events that move an epoch, all of them under the
 cross-process lock, as words of a small grammar.  The stored epoch and every in-memory epoch are
 functions of the history, so what epochs can do over a run is proved here about histories alone.
 */
module Trace {
  import opened Common
  import opened Epoch

  datatype How = ByRestore | BySync | ByInit

  /**
   `Entered` is the success arm of `restore_partition`; `GaveUp` leaves it because the backup
   masking key was not written or the stored epoch not read.  `barrier` says whether memory moved
   under the key barrier.
   */
  datatype Event =
    | Entered(thread: nat, proc: nat, snap: nat)
    | GaveUp(thread: nat, proc: nat, snap: nat)
    | MemSet(thread: nat, proc: nat, epoch: nat, how: How, barrier: bool)
    | Wrote(thread: nat, proc: nat, snap: nat, epoch: nat, out: WriteOutcome)

  predicate Published(e: Event) {
    e.Wrote? && !e.out.Lost?
  }

  predicate Moves(e: Event, p: nat) {
    e.MemSet? && e.proc == p
  }

  /** The stored epoch after a history that started with `base` in the store. */
  function StoredAfter(log: seq<Event>, base: Option<nat>): Option<nat> {
    if log == [] then base
    else
      var e := log[|log| - 1];
      if Published(e) then Some(e.epoch) else StoredAfter(log[..|log| - 1], base)
  }

  /** The in-memory epoch of process `p`; 0 before the process first sets it. */
  function MemAfter(log: seq<Event>, p: nat): nat {
    if log == [] then 0
    else
      var e := log[|log| - 1];
      if Moves(e, p) then e.epoch else MemAfter(log[..|log| - 1], p)
  }

  /** A restore is between entering its success arm and its epoch write. */
  predicate Open(log: seq<Event>) {
    log != [] && (log[|log| - 1].Entered? || (log[|log| - 1].MemSet? && log[|log| - 1].how.ByRestore?))
  }

  /** `e` may follow the history `log`. */
  predicate EventOk(log: seq<Event>, e: Event, base: Option<nat>) {
    match e
    case Entered(_, p, snap) => !Open(log) && snap == MemAfter(log, p)
    case GaveUp(t, p, snap) => log != [] && log[|log| - 1] == Entered(t, p, snap)
    case MemSet(t, p, epoch, how, _) => (match how
      case ByRestore =>
        && log != [] && log[|log| - 1].Entered? && log[|log| - 1].thread == t && log[|log| - 1].proc == p
        && epoch == Bumped(StoredAfter(log, base))
      case BySync => !Open(log) && StoredAfter(log, base) == Some(epoch) && epoch > MemAfter(log, p)
      case ByInit => !Open(log) && epoch == Val(StoredAfter(log, base)))
    case Wrote(t, p, snap, epoch, _) =>
      && |log| >= 2 && log[|log| - 2] == Entered(t, p, snap)
      && log[|log| - 1].MemSet? && log[|log| - 1].thread == t && log[|log| - 1].proc == p
      && log[|log| - 1].epoch == epoch && log[|log| - 1].how.ByRestore?
  }

  predicate OkAt(log: seq<Event>, base: Option<nat>, i: nat)
    requires i < |log|
  {
    EventOk(log[..i], log[i], base)
  }

  predicate LogOk(log: seq<Event>, base: Option<nat>) {
    Val(base) <= U64_MAX && forall i | 0 <= i < |log| :: OkAt(log, base, i)
  }

  /** Every epoch write so far was published. */
  predicate Clean(log: seq<Event>) {
    forall i | 0 <= i < |log| && log[i].Wrote? :: !log[i].out.Lost?
  }

  // ---- one more event ----

  lemma Append(log: seq<Event>, e: Event, base: Option<nat>)
    ensures StoredAfter(log + [e], base) == if Published(e) then Some(e.epoch) else StoredAfter(log, base)
    ensures forall p :: MemAfter(log + [e], p) == if Moves(e, p) then e.epoch else MemAfter(log, p)
    ensures Clean(log + [e]) <==> Clean(log) && !(e.Wrote? && e.out.Lost?)
  {
    var later := log + [e];
    assert later[..|log|] == log && later[|log|] == e;
    if Clean(later) {
      assert forall i | 0 <= i < |log| :: log[i] == later[i];
    }
  }

  lemma AppendOk(log: seq<Event>, e: Event, base: Option<nat>)
    requires LogOk(log, base) && EventOk(log, e, base)
    ensures LogOk(log + [e], base)
  {
    var later := log + [e];
    forall i | 0 <= i < |later| ensures OkAt(later, base, i) {
      assert later[..i] == if i < |log| then log[..i] else log;
      assert i < |log| ==> OkAt(log, base, i);
    }
  }

  lemma Prefix(log: seq<Event>, base: Option<nat>, n: nat)
    requires LogOk(log, base) && n <= |log|
    ensures LogOk(log[..n], base) && (Clean(log) ==> Clean(log[..n]))
  {
    forall i | 0 <= i < n ensures OkAt(log[..n], base, i) {
      assert log[..n][..i] == log[..i] && log[..n][i] == log[i];
      assert OkAt(log, base, i);
    }
  }

  /** The last event of a history, and the history before it. */
  lemma Last(log: seq<Event>, base: Option<nat>)
    requires LogOk(log, base) && log != []
    ensures
      var prev, e := log[..|log| - 1], log[|log| - 1];
      && log == prev + [e] && LogOk(prev, base) && EventOk(prev, e, base)
      && (Clean(log) <==> Clean(prev) && !(e.Wrote? && e.out.Lost?))
      && StoredAfter(log, base) == (if Published(e) then Some(e.epoch) else StoredAfter(prev, base))
      && (forall p :: MemAfter(log, p) == if Moves(e, p) then e.epoch else MemAfter(prev, p))
  {
    var prev, e := log[..|log| - 1], log[|log| - 1];
    Prefix(log, base, |log| - 1);
    assert log == prev + [e] && OkAt(log, base, |log| - 1);
    Append(prev, e, base);
  }

  /** The event at `n`, between the histories up to it and up to after it. */
  lemma Around(log: seq<Event>, base: Option<nat>, n: nat)
    requires LogOk(log, base) && n < |log|
    ensures
      var prev, e, next := log[..n], log[n], log[..n + 1];
      && LogOk(prev, base) && LogOk(next, base) && EventOk(prev, e, base)
      && (Clean(next) <==> Clean(prev) && !(e.Wrote? && e.out.Lost?))
      && StoredAfter(next, base) == (if Published(e) then Some(e.epoch) else StoredAfter(prev, base))
      && (forall p :: MemAfter(next, p) == if Moves(e, p) then e.epoch else MemAfter(prev, p))
  {
    Prefix(log, base, n);
    Prefix(log, base, n + 1);
    assert log[..n + 1] == log[..n] + [log[n]] && OkAt(log, base, n);
    Append(log[..n], log[n], base);
  }

  // ---- the stored epoch ----

  /** The store never moves back, and a published write moves it one up. */
  lemma WriteBumps(log: seq<Event>, base: Option<nat>)
    requires LogOk(log, base) && log != [] && log[|log| - 1].Wrote?
    ensures log[|log| - 1].epoch == Bumped(StoredAfter(log[..|log| - 1], base))
  {
    Last(log, base);
    Last(log[..|log| - 1], base);
  }

  lemma {:induction false} StoredBounded(log: seq<Event>, base: Option<nat>)
    requires LogOk(log, base)
    ensures Val(base) <= Val(StoredAfter(log, base)) <= U64_MAX
  {
    if log != [] {
      Last(log, base);
      StoredBounded(log[..|log| - 1], base);
      if log[|log| - 1].Wrote? {
        WriteBumps(log, base);
      }
    }
  }

  lemma StoredStep(log: seq<Event>, base: Option<nat>, n: nat)
    requires LogOk(log, base) && n < |log|
    ensures Val(StoredAfter(log[..n], base)) <= Val(StoredAfter(log[..n + 1], base))
    ensures log[n].Wrote? ==> log[n].epoch == Bumped(StoredAfter(log[..n], base))
  {
    Around(log, base, n);
    if log[n].Wrote? {
      WriteBumps(log[..n + 1], base);
      assert log[..n + 1][..n] == log[..n];
    }
    StoredBounded(log[..n], base);
  }

  lemma {:induction false} StoredGrows(log: seq<Event>, base: Option<nat>, m: nat, n: nat)
    requires LogOk(log, base) && m <= n <= |log|
    ensures Val(StoredAfter(log[..m], base)) <= Val(StoredAfter(log[..n], base))
    decreases n - m
  {
    if m < n {
      StoredGrows(log, base, m, n - 1);
      StoredStep(log, base, n - 1);
    }
  }

  // ---- counting ----

  function Count(log: seq<Event>, kind: Event -> bool): nat {
    if log == [] then 0 else Count(log[..|log| - 1], kind) + if kind(log[|log| - 1]) then 1 else 0
  }

  const IsEntered: Event -> bool := (e: Event) => e.Entered?
  const IsGaveUp: Event -> bool := (e: Event) => e.GaveUp?
  const IsPublished: Event -> bool := (e: Event) => Published(e)
  const IsLost: Event -> bool := (e: Event) => e.Wrote? && e.out.Lost?

  /** The stored epoch is its first value plus the published writes, saturating at the word size. */
  lemma {:induction false} Conservation(log: seq<Event>, base: Option<nat>)
    requires LogOk(log, base)
    ensures Val(StoredAfter(log, base)) == Min(U64_MAX, Val(base) + Count(log, IsPublished))
  {
    if log != [] {
      Last(log, base);
      Conservation(log[..|log| - 1], base);
      if log[|log| - 1].Wrote? {
        WriteBumps(log, base);
      }
    }
  }

  /** Every success arm that was entered was given up, or its write was lost or published, or it is still open. */
  lemma {:induction false} ArmsSplit(log: seq<Event>, base: Option<nat>)
    requires LogOk(log, base)
    ensures Count(log, IsEntered)
      == Count(log, IsPublished) + Count(log, IsLost) + Count(log, IsGaveUp) + if Open(log) then 1 else 0
  {
    if log != [] {
      Last(log, base);
      ArmsSplit(log[..|log| - 1], base);
    }
  }

  // ---- memory against the store ----

  lemma {:induction false} MemBounded(log: seq<Event>, base: Option<nat>, p: nat)
    requires LogOk(log, base)
    ensures MemAfter(log, p) <= Val(StoredAfter(log, base)) + 1 && MemAfter(log, p) <= U64_MAX
  {
    if log != [] {
      Last(log, base);
      MemBounded(log[..|log| - 1], base, p);
      StoredBounded(log[..|log| - 1], base);
      if log[|log| - 1].Wrote? {
        WriteBumps(log, base);
      }
    }
  }

  /** The process whose restore has moved memory and is about to write. */
  predicate Writes(log: seq<Event>, p: nat) {
    log != [] && log[|log| - 1].MemSet? && log[|log| - 1].how.ByRestore? && log[|log| - 1].proc == p
  }

  /** Memory is ahead of the store only while its process is about to write, if no write was lost. */
  lemma {:induction false} MemBehind(log: seq<Event>, base: Option<nat>, p: nat)
    requires LogOk(log, base) && Clean(log)
    ensures MemAfter(log, p) <= Val(StoredAfter(log, base)) || Writes(log, p)
  {
    if log != [] {
      var prev, e := log[..|log| - 1], log[|log| - 1];
      Last(log, base);
      MemBehind(prev, base, p);
      StoredBounded(prev, base);
      if e.Wrote? {
        WriteBumps(log, base);
        Last(prev, base);
      }
    }
  }

  lemma MemStep(log: seq<Event>, base: Option<nat>, p: nat, n: nat)
    requires LogOk(log, base) && n < |log| && Clean(log[..n + 1])
    ensures MemAfter(log[..n], p) <= MemAfter(log[..n + 1], p)
  {
    Around(log, base, n);
    MemBehind(log[..n], base, p);
    MemBounded(log[..n], base, p);
  }

  /** Memory never moves back if no write was lost. */
  lemma {:induction false} MemGrows(log: seq<Event>, base: Option<nat>, p: nat, m: nat, n: nat)
    requires LogOk(log, base) && m <= n <= |log| && Clean(log[..n])
    ensures MemAfter(log[..m], p) <= MemAfter(log[..n], p)
    decreases n - m
  {
    if m < n {
      MemStep(log, base, p, n - 1);
      Around(log, base, n - 1);
      MemGrows(log, base, p, m, n - 1);
    }
  }

  // ---- published epochs and snapshots ----

  lemma StoredAt(log: seq<Event>, base: Option<nat>, i: nat)
    requires i < |log| && Published(log[i])
    ensures StoredAfter(log[..i + 1], base) == Some(log[i].epoch)
  {
    assert log[..i + 1][i] == log[i];
  }

  /** No two published writes carry the same epoch below the word size. */
  lemma PublishedGrow(log: seq<Event>, base: Option<nat>, i: nat, j: nat)
    requires LogOk(log, base) && i < j < |log| && Published(log[i]) && Published(log[j])
    ensures log[i].epoch < log[j].epoch || log[i].epoch == U64_MAX
  {
    StoredAt(log, base, i);
    StoredGrows(log, base, i + 1, j);
    StoredStep(log, base, j);
    Prefix(log, base, j);
    StoredBounded(log[..j], base);
  }

  /** An event moves memory to a value above the stored epoch, or to the stored epoch. */
  lemma MemFloor(log: seq<Event>, base: Option<nat>, p: nat, n: nat)
    requires LogOk(log, base) && n < |log|
    ensures MemAfter(log[..n + 1], p) == MemAfter(log[..n], p) || Val(StoredAfter(log[..n], base)) <= MemAfter(log[..n + 1], p)
  {
    Around(log, base, n);
    StoredBounded(log[..n], base);
  }

  /** Once an epoch is published, no process sets its memory below it again. */
  lemma {:induction false} MemAbove(log: seq<Event>, base: Option<nat>, p: nat, floor: nat, m: nat, n: nat)
    requires LogOk(log, base) && m <= n <= |log|
    requires floor <= Val(StoredAfter(log[..m], base)) && floor <= MemAfter(log[..m], p)
    ensures floor <= MemAfter(log[..n], p)
    decreases n - m
  {
    if m < n {
      MemAbove(log, base, p, floor, m, n - 1);
      MemFloor(log, base, p, n - 1);
      StoredGrows(log, base, m, n - 1);
    }
  }

  /** The memory of `p` is the same at `m` and `n` exactly when no event between them moved it elsewhere. */
  lemma {:induction false} SameMemIff(log: seq<Event>, base: Option<nat>, p: nat, m: nat, n: nat)
    requires LogOk(log, base) && m <= n <= |log| && Clean(log[..n])
    ensures MemAfter(log[..m], p) == MemAfter(log[..n], p)
      <==> forall k | m <= k < n && Moves(log[k], p) :: log[k].epoch == MemAfter(log[..m], p)
    decreases n - m
  {
    if m < n {
      Around(log, base, n - 1);
      SameMemIff(log, base, p, m, n - 1);
      MemGrows(log, base, p, m, n - 1);
      MemStep(log, base, p, n - 1);
    }
  }

  /**
   The restore that entered its success arm at `i` wrote the backup masking key, read the stored
   epoch and published the next one, and memory was not ahead of the store when it began.
   */
  predicate Completed(log: seq<Event>, base: Option<nat>, i: nat) {
    && i + 2 < |log| && log[i].Entered? && log[i + 1].MemSet? && Published(log[i + 2])
    && log[i].snap <= Val(StoredAfter(log[..i], base))
  }

  /** What follows an entry: the same thread gives up, or moves memory and then writes. */
  lemma EntryFollowed(log: seq<Event>, base: Option<nat>, i: nat)
    requires LogOk(log, base) && i + 1 < |log| && log[i].Entered?
    ensures log[i + 1] == GaveUp(log[i].thread, log[i].proc, log[i].snap)
      || (log[i + 1].MemSet? && log[i + 1].how.ByRestore? && log[i + 1].thread == log[i].thread && log[i + 1].proc == log[i].proc)
    ensures i + 2 < |log| && log[i + 1].MemSet? ==>
      log[i + 2].Wrote? && log[i + 2].thread == log[i].thread && log[i + 2].proc == log[i].proc && log[i + 2].snap == log[i].snap
  {
    assert log[..i + 1][|log[..i + 1]| - 1] == log[i];
    assert OkAt(log, base, i + 1);
    if i + 2 < |log| {
      assert log[..i + 2][|log[..i + 2]| - 1] == log[i + 1];
      assert log[..i + 2][|log[..i + 2]| - 2] == log[i];
      assert OkAt(log, base, i + 2);
    }
  }

  lemma CompletedMoves(log: seq<Event>, base: Option<nat>, i: nat)
    requires LogOk(log, base) && Completed(log, base, i)
    ensures log[i + 2].epoch == Bumped(StoredAfter(log[..i], base))
    ensures StoredAfter(log[..i + 3], base) == Some(log[i + 2].epoch) && MemAfter(log[..i + 3], log[i].proc) == log[i + 2].epoch
  {
    EntryFollowed(log, base, i);
    Around(log, base, i);
    Around(log, base, i + 1);
    Around(log, base, i + 2);
    StoredStep(log, base, i + 2);
  }

  /**
   A snapshot is used once: after a completed restore every later restore of the process starts
   from a later snapshot, whatever else fails.
   */
  lemma CompletedOnce(log: seq<Event>, base: Option<nat>, i: nat, j: nat)
    requires LogOk(log, base) && i < j < |log| && log[i].Entered? && log[j].Entered? && log[i].proc == log[j].proc
    requires Completed(log, base, i) && Val(StoredAfter(log[..i], base)) < U64_MAX
    ensures log[i].snap < log[j].snap
  {
    EntryFollowed(log, base, i);
    CompletedMoves(log, base, i);
    MemAbove(log, base, log[i].proc, log[i + 2].epoch, i + 3, j);
    assert OkAt(log, base, j);
  }

  /**
   Exactly when two restores of a process that entered the success arm started from one snapshot:
   no event between them moved the memory of the process off it.
   */
  lemma SnapshotAgainIff(log: seq<Event>, base: Option<nat>, i: nat, j: nat)
    requires LogOk(log, base) && i < j < |log| && log[i].Entered? && log[j].Entered? && log[i].proc == log[j].proc
    requires Clean(log[..j])
    ensures log[i].snap == log[j].snap
      <==> forall k | i < k < j && Moves(log[k], log[i].proc) :: log[k].epoch == log[i].snap
  {
    assert OkAt(log, base, i) && OkAt(log, base, j);
    SameMemIff(log, base, log[i].proc, i, j);
  }
}
