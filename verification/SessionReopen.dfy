/**
 One session handle and its reopen (api/lib/src/session.rs, api/lib/src/partition.rs).  The guard
 holds the session's write lock, so racing attempts reach it one after the other, each with the
 partition epoch its thread read; the new masking key is stored under a second acquisition.
 */
module SessionReopen {
  import opened Common

  /** `seed` is `None` for a V2 session, which has no reopen path. */
  datatype Sess = Sess(epoch: nat, seed: Option<seq<Byte>>, bmk: seq<Byte>)

  /** The guarded section: `Ok(None)` when the session is current, the device's answer when it is stale. */
  function Guarded(s: Sess, partEpoch: nat, dev: Result<seq<Byte>>): (Sess, Result<Option<seq<Byte>>>) {
    if s.epoch == partEpoch then (s, Ok(None))
    else if s.epoch > partEpoch then (s, Err(InternalError))
    else match dev
      case Err(e) => (s, Err(e))
      case Ok(bmk) => (s.(epoch := partEpoch), Ok(Some(bmk)))
  }

  /** `reopen_session_if_needed`: a fast path on the epochs read first, then the guard, then the new BMK. */
  function Reopen(s: Sess, partEpoch: nat, seen: nat, resilient: bool, dev: Result<seq<Byte>>): (Sess, Result<()>) {
    if seen == partEpoch then (s, Ok(()))
    else if seen > partEpoch then (s, Err(InternalError))
    else if !resilient then (s, Ok(()))
    else if s.seed.None? then (s, Err(SessionNeedsRenegotiation))
    else
      match Guarded(s, partEpoch, dev)
      case (t, Err(e)) => (t, Err(e))
      case (t, Ok(None)) => (t, Ok(()))
      case (t, Ok(Some(bmk))) => (t.(bmk := bmk), Ok(()))
  }

  // ---- racing attempts ----

  /** An attempt: the epochs its thread read, and what the device would answer it. */
  datatype Attempt = Attempt(partEpoch: nat, seen: nat, dev: Result<seq<Byte>>)

  /**
   The two critical sections of an attempt, each under the session's write lock, which is released
   in between: the guard, and storing the masking key the device returned.
   */
  datatype Section = Guard(who: nat) | Store(who: nat)

  /** The session after the sections `steps` of the attempts `att`. */
  function Race(s: Sess, att: nat -> Attempt, steps: seq<Section>): Sess {
    if steps == [] then s
    else
      var prev := Race(s, att, steps[..|steps| - 1]);
      var a := att(steps[|steps| - 1].who);
      match steps[|steps| - 1]
      case Guard(_) => if a.seen < a.partEpoch && prev.seed.Some? then Guarded(prev, a.partEpoch, a.dev).0 else prev
      case Store(_) => if a.dev.Ok? then prev.(bmk := a.dev.value) else prev
  }

  /** Step `i` is a guard that finds the session stale, and the device answers. */
  predicate Reopens(s: Sess, att: nat -> Attempt, steps: seq<Section>, i: nat)
    requires i < |steps|
  {
    var a := att(steps[i].who);
    && steps[i].Guard? && a.seen < a.partEpoch && s.seed.Some?
    && Race(s, att, steps[..i]).epoch < a.partEpoch && a.dev.Ok?
  }

  /** No section happens twice, and a key is stored only after the guard that obtained it. */
  predicate LegalAt(s: Sess, att: nat -> Attempt, steps: seq<Section>, i: nat)
    requires i < |steps|
  {
    && steps[i] !in steps[..i]
    && (steps[i].Store? ==> exists j :: 0 <= j < i && steps[j] == Guard(steps[i].who) && Reopens(s, att, steps, j))
  }

  predicate Legal(s: Sess, att: nat -> Attempt, steps: seq<Section>) {
    forall i | 0 <= i < |steps| :: LegalAt(s, att, steps, i)
  }

  lemma RaceStep(s: Sess, att: nat -> Attempt, steps: seq<Section>, i: nat)
    requires i < |steps| && Race(s, att, steps[..i]).seed == s.seed
    ensures
      var before, after, a := Race(s, att, steps[..i]), Race(s, att, steps[..i + 1]), att(steps[i].who);
      && (Reopens(s, att, steps, i) ==> after == before.(epoch := a.partEpoch))
      && (steps[i].Store? && a.dev.Ok? ==> after == before.(bmk := a.dev.value))
      && (!Reopens(s, att, steps, i) && !(steps[i].Store? && a.dev.Ok?) ==> after == before)
  {
    assert steps[..i + 1][..i] == steps[..i];
  }

  lemma {:induction false} SeedStays(s: Sess, att: nat -> Attempt, steps: seq<Section>, i: nat)
    requires i <= |steps|
    ensures Race(s, att, steps[..i]).seed == s.seed
  {
    if i > 0 {
      SeedStays(s, att, steps, i - 1);
      RaceStep(s, att, steps, i - 1);
    }
  }

  /** The epoch never moves back, and moves only by a reopen; the key moves only by a store. */
  lemma {:induction false} Between(s: Sess, att: nat -> Attempt, steps: seq<Section>, i: nat, k: nat)
    requires i <= k <= |steps|
    ensures
      var a, b := Race(s, att, steps[..i]), Race(s, att, steps[..k]);
      && a.epoch <= b.epoch
      && ((forall j | i <= j < k :: !Reopens(s, att, steps, j)) ==> a.epoch == b.epoch)
      && ((forall j | i <= j < k :: !steps[j].Store?) ==> a.bmk == b.bmk)
    decreases k
  {
    if i < k {
      Between(s, att, steps, i, k - 1);
      SeedStays(s, att, steps, k - 1);
      RaceStep(s, att, steps, k - 1);
    }
  }

  /**
   However the sections interleave, whatever epochs the attempts carry and whatever they saw: for
   each epoch at most one attempt reaches the device and succeeds.
   */
  lemma OneReopenPerEpoch(s: Sess, att: nat -> Attempt, steps: seq<Section>, i: nat, j: nat)
    requires i < j < |steps| && Reopens(s, att, steps, i) && Reopens(s, att, steps, j)
    ensures att(steps[i].who).partEpoch < att(steps[j].who).partEpoch
  {
    SeedStays(s, att, steps, i);
    RaceStep(s, att, steps, i);
    Between(s, att, steps, i + 1, j);
  }

  predicate LastReopen(s: Sess, att: nat -> Attempt, steps: seq<Section>, g: nat) {
    g < |steps| && Reopens(s, att, steps, g) && forall j | g < j < |steps| :: !Reopens(s, att, steps, j)
  }

  predicate LastStore(steps: seq<Section>, v: nat) {
    v < |steps| && steps[v].Store? && forall j | v < j < |steps| :: !steps[j].Store?
  }

  lemma EpochOfLastReopen(s: Sess, att: nat -> Attempt, steps: seq<Section>, g: nat)
    requires LastReopen(s, att, steps, g)
    ensures Race(s, att, steps[..|steps|]).epoch == att(steps[g].who).partEpoch
  {
    SeedStays(s, att, steps, g);
    RaceStep(s, att, steps, g);
    Between(s, att, steps, g + 1, |steps|);
  }

  lemma KeyOfLastStore(s: Sess, att: nat -> Attempt, steps: seq<Section>, v: nat)
    requires Legal(s, att, steps) && LastStore(steps, v)
    ensures att(steps[v].who).dev.Ok? && Race(s, att, steps[..|steps|]).bmk == att(steps[v].who).dev.value
  {
    assert LegalAt(s, att, steps, v);
    SeedStays(s, att, steps, v);
    RaceStep(s, att, steps, v);
    Between(s, att, steps, v + 1, |steps|);
  }

  /**
   In every legal interleaving the session ends with the epoch of the last reopen and the key of
   the last store.  If the two attempts got different keys, epoch and key belong together exactly
   when the last store is that of the last reopen.
   */
  lemma EpochAndKeyAgreeIff(s: Sess, att: nat -> Attempt, steps: seq<Section>, g: nat, v: nat)
    requires Legal(s, att, steps) && LastReopen(s, att, steps, g) && LastStore(steps, v)
    ensures
      var last, storer := att(steps[g].who), att(steps[v].who);
      && storer.dev.Ok? && Race(s, att, steps) == Sess(last.partEpoch, s.seed, storer.dev.value)
      && (last.dev != storer.dev || steps[g].who == steps[v].who ==>
            (Race(s, att, steps) == Sess(last.partEpoch, s.seed, last.dev.value) <==> steps[v].who == steps[g].who))
  {
    assert steps[..|steps|] == steps;
    SeedStays(s, att, steps, |steps|);
    EpochOfLastReopen(s, att, steps, g);
    KeyOfLastStore(s, att, steps, v);
  }

  /** Every reopen stores its key before another section begins, as the key barrier makes it. */
  predicate StoresAtOnce(s: Sess, att: nat -> Attempt, steps: seq<Section>) {
    forall i | 0 <= i < |steps| && Reopens(s, att, steps, i) :: i + 1 < |steps| && steps[i + 1] == Store(steps[i].who)
  }

  lemma StoredAtOnce(s: Sess, att: nat -> Attempt, steps: seq<Section>, k: nat)
    requires Legal(s, att, steps) && StoresAtOnce(s, att, steps) && k < |steps| && steps[k].Store?
    ensures k > 0 && Reopens(s, att, steps, k - 1)
  {
    assert LegalAt(s, att, steps, k);
    var j :| 0 <= j < k && steps[j] == Guard(steps[k].who) && Reopens(s, att, steps, j);
    assert steps[j + 1] == steps[k];
  }

  /** Then the session ends at the epoch and with the key of the last reopen. */
  lemma LastReopenWins(s: Sess, att: nat -> Attempt, steps: seq<Section>, g: nat)
    requires Legal(s, att, steps) && StoresAtOnce(s, att, steps) && LastReopen(s, att, steps, g)
    ensures Race(s, att, steps) == Sess(att(steps[g].who).partEpoch, s.seed, att(steps[g].who).dev.value)
  {
    forall k | g + 1 < k < |steps| ensures !steps[k].Store? {
      if steps[k].Store? {
        StoredAtOnce(s, att, steps, k);
      }
    }
    EpochAndKeyAgreeIff(s, att, steps, g, g + 1);
  }

  /** Sections of two attempts that reopen one after the other and store the other way round. */
  const CROSSED: seq<Section> := [Guard(0), Guard(1), Store(1), Store(0)]

  /** Two attempts that both find the session stale and both succeed. */
  predicate BothReopen(s: Sess, att: nat -> Attempt) {
    && s.seed.Some? && att(0).dev.Ok? && att(1).dev.Ok?
    && att(0).seen < att(0).partEpoch && att(1).seen < att(1).partEpoch
    && s.epoch < att(0).partEpoch < att(1).partEpoch
  }

  lemma CrossedGuards(s: Sess, att: nat -> Attempt)
    requires BothReopen(s, att)
    ensures Reopens(s, att, CROSSED, 0) && Reopens(s, att, CROSSED, 1)
    ensures Race(s, att, CROSSED[..2]) == s.(epoch := att(1).partEpoch)
  {
    assert CROSSED[..0] == [];
    RaceStep(s, att, CROSSED, 0);
    RaceStep(s, att, CROSSED, 1);
  }

  /**
   Without the barrier the key of the last reopen can be lost: whenever two attempts carry growing
   epochs and both succeed, crossing their sections leaves the later epoch with the earlier key.
   */
  lemma CrossedStores(s: Sess, att: nat -> Attempt)
    requires BothReopen(s, att)
    ensures Legal(s, att, CROSSED) && LastReopen(s, att, CROSSED, 1)
    ensures Race(s, att, CROSSED) == Sess(att(1).partEpoch, s.seed, att(0).dev.value)
  {
    CrossedGuards(s, att);
    RaceStep(s, att, CROSSED, 2);
    RaceStep(s, att, CROSSED, 3);
    assert CROSSED[..4] == CROSSED;
    forall i | 0 <= i < |CROSSED| ensures LegalAt(s, att, CROSSED, i) {
      assert CROSSED[0] == Guard(0) && CROSSED[1] == Guard(1);
    }
  }

  /** The sections of one undisturbed attempt. */
  function Sections(s: Sess, a: Attempt): seq<Section> {
    if a.seen >= a.partEpoch || s.seed.None? then []
    else if s.epoch < a.partEpoch && a.dev.Ok? then [Guard(0), Store(0)]
    else [Guard(0)]
  }

  /** An undisturbed `reopen_session_if_needed` is its sections one after the other. */
  lemma ReopenIsItsSections(s: Sess, a: Attempt)
    ensures Reopen(s, a.partEpoch, a.seen, true, a.dev).0 == Race(s, _ => a, Sections(s, a))
  {
    var att: nat -> Attempt := _ => a;
    var steps := [Guard(0), Store(0)];
    assert steps[..0] == [] && steps[..1] == [Guard(0)] && steps[..2] == steps;
    RaceStep(s, att, steps, 0);
    RaceStep(s, att, steps, 1);
  }

  class Session {
    var epoch: nat
    const seed: Option<seq<Byte>>
    var bmk: seq<Byte>

    ghost function State(): Sess
      reads this
    {
      Sess(epoch, seed, bmk)
    }

    /** A session records the partition's epoch when the handle is built. */
    constructor (partEpoch: nat, seed: Option<seq<Byte>>, bmk: seq<Byte>)
      ensures State() == Sess(partEpoch, seed, bmk)
    {
      this.epoch, this.seed, this.bmk := partEpoch, seed, bmk;
    }

    method WithReopenGuard(partEpoch: nat, dev: Result<seq<Byte>>) returns (r: Result<Option<seq<Byte>>>)
      modifies `epoch
      ensures (State(), r) == Guarded(old(State()), partEpoch, dev)
    {
      if epoch == partEpoch {
        return Ok(None);
      } else if epoch > partEpoch {
        return Err(InternalError);
      }
      if dev.Err? {
        return Err(dev.error);
      }
      epoch := partEpoch;
      return Ok(Some(dev.value));
    }

    method SetBmkSession(bmk: seq<Byte>)
      modifies `bmk
      ensures State() == old(State()).(bmk := bmk)
    {
      this.bmk := bmk;
    }

    method ReopenIfNeeded(partEpoch: nat, seen: nat, resilient: bool, dev: Result<seq<Byte>>) returns (r: Result<()>)
      modifies this
      ensures (State(), r) == Reopen(old(State()), partEpoch, seen, resilient, dev)
    {
      if seen == partEpoch {
        return Ok(());
      } else if seen > partEpoch {
        return Err(InternalError);
      }
      if !resilient {
        return Ok(());
      }
      if seed.None? {
        return Err(SessionNeedsRenegotiation);
      }
      var result := WithReopenGuard(partEpoch, dev);
      if result.Err? {
        return Err(result.error);
      }
      if result.value.Some? {
        SetBmkSession(result.value.value);
      }
      return Ok(());
    }
  }
}
