/**
 The native handle table (api/native/src/handle_table.rs): allocation with a probing counter,
 typed lookup and free, and the accounting of the boxed objects it owns.  Objects are numbered in
 the order they are handed to the table; an arithmetic overflow of the counter panics.
 */
module HandleTable {
  import opened Common

  datatype HandleType =
    | PartitionList | Partition | Session | AesKey | AesGcmKey | AesXtsKey
    | AesCbcEncryptCtx | AesCbcDecryptCtx | AesGcmEncryptCtx | AesGcmDecryptCtx | AesXtsEncryptCtx | AesXtsDecryptCtx
    | EccPrivKey | EccPubKey | EccSignCtx | EccVerifyCtx | RsaPrivKey | RsaPubKey | ShaCtx
    | HmacKey | HmacSignCtx | HmacVerifyCtx | GenericSecretKey | RsaSignCtx | RsaVerifyCtx | SealingKey

  predicate IsCtx(ty: HandleType) {
    || ty.AesCbcEncryptCtx? || ty.AesCbcDecryptCtx? || ty.AesGcmEncryptCtx? || ty.AesGcmDecryptCtx?
    || ty.AesXtsEncryptCtx? || ty.AesXtsDecryptCtx? || ty.EccSignCtx? || ty.EccVerifyCtx? || ty.ShaCtx?
    || ty.HmacSignCtx? || ty.HmacVerifyCtx? || ty.RsaSignCtx? || ty.RsaVerifyCtx?
  }

  datatype Entry = Entry(ty: HandleType, obj: nat)

  datatype Table = Table(entries: map<nat, Entry>, counter: nat)

  /** The probing loop: the first free non-zero handle from `c` on, or a counter overflow. */
  function Probe(entries: map<nat, Entry>, c: nat): Option<nat>
    decreases U32_MAX - c
  {
    if c != 0 && c !in entries then Some(c)
    else if c >= U32_MAX then None
    else Probe(entries, c + 1)
  }

  function Alloc(t: Table, ty: HandleType, obj: nat): Option<(Table, nat)> {
    match Probe(t.entries, t.counter)
    case None => None
    case Some(h) => Some((Table(t.entries[h := Entry(ty, obj)], h), h))
  }

  function Lookup(t: Table, h: nat, ty: HandleType): Result<nat> {
    if h in t.entries && t.entries[h].ty == ty then Ok(t.entries[h].obj) else Err(InvalidHandle)
  }

  /** A free removes the entry whatever its type; the object is returned only on a match. */
  function Free(t: Table, h: nat, ty: HandleType): (Table, Result<nat>) {
    (t.(entries := t.entries - {h}), Lookup(t, h, ty))
  }

  /** Freeing a context handle: the type is looked up first, and only contexts are freed. */
  function FreeCtx(t: Table, h: nat): (Table, Result<nat>) {
    if h in t.entries && IsCtx(t.entries[h].ty) then Free(t, h, t.entries[h].ty) else (t, Err(InvalidHandle))
  }

  // ---- one call ----

  predicate Inv(t: Table) {
    t.counter <= U32_MAX && forall h | h in t.entries :: 1 <= h <= t.counter
  }

  /**
   While live handles are non-zero and at most the counter, one increment is always enough: the
   next handle is the counter itself if it is free, else its successor, and the counter overflows
   exactly when it stands at the last handle and that handle is live.
   */
  lemma ProbeOnce(t: Table)
    requires Inv(t)
    ensures Probe(t.entries, t.counter) ==
      if t.counter != 0 && t.counter !in t.entries then Some(t.counter)
      else if t.counter == U32_MAX then None
      else Some(t.counter + 1)
  {
    if t.counter < U32_MAX && (t.counter == 0 || t.counter in t.entries) {
      assert t.counter + 1 !in t.entries;
      assert Probe(t.entries, t.counter) == Probe(t.entries, t.counter + 1);
    }
  }

  class Handles {
    var entries: map<nat, Entry>
    var counter: nat

    ghost function State(): Table
      reads this
    {
      Table(entries, counter)
    }

    constructor ()
      ensures State() == Table(map[], 0)
    {
      entries, counter := map[], 0;
    }

    /** `None` is the overflow panic of the counter. */
    method AllocHandle(ty: HandleType, obj: nat) returns (r: Option<nat>)
      modifies this
      ensures match Alloc(old(State()), ty, obj)
        case None => r.None? && entries == old(entries)
        case Some((t, h)) => r == Some(h) && State() == t
    {
      while counter == 0 || counter in entries
        invariant entries == old(entries)
        invariant Probe(entries, counter) == Probe(old(entries), old(counter))
        decreases U32_MAX - counter
      {
        if counter >= U32_MAX {
          return None;
        }
        counter := counter + 1;
      }
      entries := entries[counter := Entry(ty, obj)];
      return Some(counter);
    }

    method Addr(h: nat, ty: HandleType) returns (r: Result<nat>)
      ensures r == Lookup(State(), h, ty)
    {
      if h in entries && entries[h].ty == ty {
        return Ok(entries[h].obj);
      }
      return Err(InvalidHandle);
    }

    method FreeHandle(h: nat, ty: HandleType) returns (r: Result<nat>)
      modifies this
      ensures (State(), r) == Free(old(State()), h, ty)
    {
      if h in entries {
        var entry := entries[h];
        entries := entries - {h};
        if entry.ty == ty {
          return Ok(entry.obj);
        }
      }
      assert h !in entries && entries == old(entries) - {h};
      return Err(InvalidHandle);
    }

    method GetHandleType(h: nat) returns (r: Result<HandleType>)
      ensures r == if h in entries then Ok(entries[h].ty) else Err(InvalidHandle)
    {
      if h in entries {
        return Ok(entries[h].ty);
      }
      return Err(InvalidHandle);
    }

    method FreeCtxHandle(h: nat) returns (r: Result<nat>)
      modifies this
      ensures (State(), r) == FreeCtx(old(State()), h)
    {
      var ty := GetHandleType(h);
      if ty.Err? || !IsCtx(ty.value) {
        return Err(InvalidHandle);
      }
      r := FreeHandle(h, ty.value);
    }
  }

  // ---- whole runs ----

  datatype Op = AllocOp(ty: HandleType) | FreeOp(h: nat, ty: HandleType) | FreeCtxOp(h: nat)

  /**
   A run so far: the table, how many objects it was given, which of them a free returned and which
   a mismatched free dropped, and for each operation the handle it stored or removed.
   */
  datatype Run = Run(table: Table, given: nat, returned: set<nat>, dropped: set<nat>, log: seq<Event>)

  datatype Event = Stored(h: nat, entry: Entry) | Removed(h: nat)

  /** The run after one more operation; `None` when the counter overflows. */
  function Step(r: Run, op: Op): Option<Run> {
    match op
    case AllocOp(ty) =>
      (match Alloc(r.table, ty, r.given)
       case None => None
       case Some((t, h)) => Some(r.(table := t, given := r.given + 1, log := r.log + [Stored(h, Entry(ty, r.given))])))
    case FreeOp(h, ty) =>
      var (t, res) := Free(r.table, h, ty);
      var mismatch := h in r.table.entries && res.Err?;
      Some(Run(t, r.given, if res.Ok? then r.returned + {res.value} else r.returned,
               if mismatch then r.dropped + {r.table.entries[h].obj} else r.dropped, r.log + [Removed(h)]))
    case FreeCtxOp(h) =>
      var (t, res) := FreeCtx(r.table, h);
      Some(if res.Ok? then Run(t, r.given, r.returned + {res.value}, r.dropped, r.log + [Removed(h)]) else r)
  }

  const START: Run := Run(Table(map[], 0), 0, {}, {}, [])

  function After(ops: seq<Op>): Option<Run> {
    if ops == [] then Some(START)
    else
      match After(ops[..|ops| - 1])
      case None => None
      case Some(r) => Step(r, ops[|ops| - 1])
  }

  function Allocations(ops: seq<Op>): nat {
    if ops == [] then 0 else Allocations(ops[..|ops| - 1]) + if ops[|ops| - 1].AllocOp? then 1 else 0
  }

  predicate Live(entries: map<nat, Entry>, obj: nat) {
    exists h :: h in entries && entries[h].obj == obj
  }

  /** Every object given is live, returned or dropped. */
  predicate Placed(entries: map<nat, Entry>, given: nat, returned: set<nat>, dropped: set<nat>) {
    forall obj: nat | obj < given :: Live(entries, obj) || obj in returned || obj in dropped
  }

  /** No object is in two of these places, or stored twice. */
  predicate PlacedOnce(entries: map<nat, Entry>, given: nat, returned: set<nat>, dropped: set<nat>) {
    && returned !! dropped && (forall obj | obj in returned :: obj < given) && (forall obj | obj in dropped :: obj < given)
    && (forall h | h in entries :: entries[h].obj < given && entries[h].obj !in returned && entries[h].obj !in dropped)
    && (forall g, h | g in entries && h in entries && entries[g].obj == entries[h].obj :: g == h)
  }

  predicate Accounted(r: Run) {
    && Placed(r.table.entries, r.given, r.returned, r.dropped)
    && PlacedOnce(r.table.entries, r.given, r.returned, r.dropped)
  }

  /** What the log says is stored under a handle: the last store that no later free removed. */
  function LastStored(log: seq<Event>, h: nat): Option<Entry> {
    if log == [] then None
    else
      var e := log[|log| - 1];
      if e.h != h then LastStored(log[..|log| - 1], h) else if e.Stored? then Some(e.entry) else None
  }

  predicate Issued(log: seq<Event>, h: nat) {
    exists i :: 0 <= i < |log| && log[i].Stored? && log[i].h == h
  }

  function Under(entries: map<nat, Entry>, h: nat): Option<Entry> {
    if h in entries then Some(entries[h]) else None
  }

  ghost predicate Logged(r: Run) {
    forall h: nat :: LastStored(r.log, h) == Under(r.table.entries, h)
  }

  predicate Counted(r: Run) {
    && Inv(r.table) && r.table.counter <= r.given
    && (forall i | 0 <= i < |r.log| && r.log[i].Stored? :: 1 <= r.log[i].h <= r.table.counter)
    && (r.table.counter != 0 ==> Issued(r.log, r.table.counter))
  }

  lemma AppendLog(log: seq<Event>, e: Event, h: nat)
    ensures LastStored(log + [e], h) == if e.h != h then LastStored(log, h) else if e.Stored? then Some(e.entry) else None
    ensures Issued(log, h) ==> Issued(log + [e], h)
    ensures e.Stored? ==> Issued(log + [e], e.h)
  {
    assert (log + [e])[..|log|] == log;
    if Issued(log, h) {
      var i :| 0 <= i < |log| && log[i].Stored? && log[i].h == h;
      assert (log + [e])[i] == log[i];
    }
    assert (log + [e])[|log|] == e;
  }

  lemma CountedStep(r: Run, op: Op, n: Run)
    requires Counted(r) && Step(r, op) == Some(n)
    ensures Counted(n)
  {
    ProbeOnce(r.table);
    if |n.log| > |r.log| {
      AppendLog(r.log, n.log[|r.log|], n.table.counter);
    }
  }

  lemma LoggedStore(entries: map<nat, Entry>, log: seq<Event>, h: nat, e: Entry, g: nat)
    requires LastStored(log, g) == Under(entries, g)
    ensures LastStored(log + [Stored(h, e)], g) == Under(entries[h := e], g)
    ensures LastStored(log + [Removed(h)], g) == Under(entries - {h}, g)
  {
    AppendLog(log, Stored(h, e), g);
    AppendLog(log, Removed(h), g);
  }

  lemma LoggedStep(r: Run, op: Op, n: Run)
    requires Logged(r) && Step(r, op) == Some(n)
    ensures Logged(n)
  {
    forall g: nat
      ensures LastStored(n.log, g) == Under(n.table.entries, g)
    {
      match op
      case AllocOp(ty) => LoggedStore(r.table.entries, r.log, n.table.counter, Entry(ty, r.given), g);
      case FreeOp(h, ty) => LoggedStore(r.table.entries, r.log, h, Entry(ty, 0), g);
      case FreeCtxOp(h) => LoggedStore(r.table.entries, r.log, h, Entry(ShaCtx, 0), g);
    }
  }

  lemma PlacedAfterStore(entries: map<nat, Entry>, given: nat, returned: set<nat>, dropped: set<nat>, h: nat, ty: HandleType)
    requires Placed(entries, given, returned, dropped) && h !in entries
    ensures Placed(entries[h := Entry(ty, given)], given + 1, returned, dropped)
  {
    var now := entries[h := Entry(ty, given)];
    assert h in now && now[h].obj == given;
    forall obj: nat | obj < given && Live(entries, obj)
      ensures Live(now, obj)
    {
      var g :| g in entries && entries[g].obj == obj;
      assert g in now && now[g].obj == obj;
    }
  }

  lemma PlacedAfterTake(entries: map<nat, Entry>, given: nat, returned: set<nat>, dropped: set<nat>, h: nat)
    requires Placed(entries, given, returned, dropped) && h in entries
    ensures Placed(entries - {h}, given, returned + {entries[h].obj}, dropped)
    ensures Placed(entries - {h}, given, returned, dropped + {entries[h].obj})
  {
    var now := entries - {h};
    forall obj: nat | obj < given && Live(entries, obj) && obj != entries[h].obj
      ensures Live(now, obj)
    {
      var g :| g in entries && entries[g].obj == obj;
      assert g in now && now[g].obj == obj;
    }
  }

  lemma AccountedAlloc(r: Run, ty: HandleType, n: Run)
    requires Counted(r) && Accounted(r) && Step(r, AllocOp(ty)) == Some(n)
    ensures Accounted(n)
  {
    ProbeOnce(r.table);
    PlacedAfterStore(r.table.entries, r.given, r.returned, r.dropped, n.table.counter, ty);
  }

  lemma AccountedFree(r: Run, h: nat, ty: HandleType, n: Run)
    requires Accounted(r) && Step(r, FreeOp(h, ty)) == Some(n)
    ensures Accounted(n)
  {
    if h in r.table.entries {
      PlacedAfterTake(r.table.entries, r.given, r.returned, r.dropped, h);
    } else {
      assert r.table.entries - {h} == r.table.entries;
    }
  }

  lemma AccountedFreeCtx(r: Run, h: nat, n: Run)
    requires Accounted(r) && Step(r, FreeCtxOp(h)) == Some(n)
    ensures Accounted(n)
  {
    if h in r.table.entries {
      PlacedAfterTake(r.table.entries, r.given, r.returned, r.dropped, h);
    }
  }

  // ---- theorems over every run ----

  /**
   Over every run in which the counter has not overflowed: live handles are non-zero and at most
   the counter, which is at most the number of allocations; a lookup gives the object last stored
   under that handle, if its type matches, and nothing otherwise; and each object the table was
   given is live, was returned by one free, or was dropped by a mismatched free, never two of these.
   */
  lemma {:induction false} RunHolds(ops: seq<Op>)
    ensures After(ops).Some? ==>
      var r := After(ops).value;
      Counted(r) && Logged(r) && Accounted(r) && r.given == Allocations(ops)
  {
    if ops != [] && After(ops).Some? {
      RunHolds(ops[..|ops| - 1]);
      var r, op, n := After(ops[..|ops| - 1]).value, ops[|ops| - 1], After(ops).value;
      CountedStep(r, op, n);
      LoggedStep(r, op, n);
      match op
      case AllocOp(ty) => AccountedAlloc(r, ty, n);
      case FreeOp(h, ty) => AccountedFree(r, h, ty, n);
      case FreeCtxOp(h) => AccountedFreeCtx(r, h, n);
    }
  }

  lemma LookupGivesLast(ops: seq<Op>, h: nat, ty: HandleType)
    requires After(ops).Some?
    ensures
      var r := After(ops).value;
      Lookup(r.table, h, ty) ==
        match LastStored(r.log, h)
        case Some(e) => (if e.ty == ty then Ok(e.obj) else Err(InvalidHandle))
        case None => Err(InvalidHandle)
  {
    RunHolds(ops);
  }

  /** The counter overflows in no run of fewer than 2^32 allocations. */
  lemma {:induction false} NoOverflow(ops: seq<Op>)
    requires Allocations(ops) <= U32_MAX
    ensures After(ops).Some?
  {
    if ops != [] {
      NoOverflow(ops[..|ops| - 1]);
      RunHolds(ops[..|ops| - 1]);
      ProbeOnce(After(ops[..|ops| - 1]).value.table);
    }
  }

  /**
   An allocation hands out a handle that was issued before exactly when the handle the counter
   stands at has been freed; every other freed handle stays retired.
   */
  lemma ReusesIffCounterFreed(ops: seq<Op>, ty: HandleType)
    requires After(ops).Some? && Alloc(After(ops).value.table, ty, After(ops).value.given).Some?
    ensures
      var r := After(ops).value;
      var h := Alloc(r.table, ty, r.given).value.1;
      && (Issued(r.log, h) <==> r.table.counter != 0 && r.table.counter !in r.table.entries)
      && (Issued(r.log, h) ==> h == r.table.counter)
  {
    RunHolds(ops);
    ProbeOnce(After(ops).value.table);
  }

  /** Freeing through the context entry point drops nothing and leaves other types alone. */
  lemma ContextFreeDropsNothing(t: Table, h: nat)
    ensures
      var (n, r) := FreeCtx(t, h);
      && (r.Ok? <==> h in t.entries && IsCtx(t.entries[h].ty))
      && n.entries == (if r.Ok? then t.entries - {h} else t.entries)
      && (r.Ok? ==> r.value == t.entries[h].obj)
  {
  }
}
