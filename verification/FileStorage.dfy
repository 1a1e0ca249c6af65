/**
 The write-temp-then-rename store (crates/resiliency_test_helpers/src/lib.rs) over a file system of
 directory entries and inodes.  Any number of writers and readers interleave; a writer writes its
 temporary file in pieces, may fail or be cut off after any step, and a reader keeps reading the
 inode it opened.
 */
module FileStorage {
  import opened Common

  function TmpName(key: string): string {
    "." + key + ".tmp"
  }

  lemma TmpNameInjective(a: string, b: string)
    requires TmpName(a) == TmpName(b)
    ensures a == b
  {
    assert a == TmpName(a)[1..|TmpName(a)| - 4];
    assert b == TmpName(b)[1..|TmpName(b)| - 4];
  }

  /** `Writing` has an open handle on `ino` with `done` bytes written; `Failing` is about to remove the temporary file. */
  datatype Pc = Start | Writing(ino: nat, done: nat) | Failing | Renamed | Finished(ok: bool) | Cut

  datatype Writer = Writer(key: string, value: seq<Byte>, pc: Pc)

  datatype State = State(dir: map<string, nat>, data: map<nat, seq<Byte>>, next: nat, writers: seq<Writer>)

  datatype Action =
    | Create            // open the temporary file, truncating what a cut-off writer left there
    | Put(n: nat)       // write the next n bytes
    | Fail              // creating, writing, syncing or renaming reports an error
    | Rename
    | Remove(ok: bool)  // removing the temporary file after an error; its own failure is ignored
    | SyncDir(ok: bool)
    | Die

  /** A clear reports success whether or not the removal worked. */
  datatype Label = Act(w: nat, action: Action) | Clear(key: string, gone: bool)

  predicate ActionEnabled(s: State, w: Writer, a: Action) {
    match a
    case Create => w.pc.Start?
    case Put(n) => w.pc.Writing? && w.pc.done + n <= |w.value|
    case Fail => w.pc.Start? || w.pc.Writing?
    case Rename => w.pc.Writing? && w.pc.done == |w.value|
    case Remove(_) => w.pc.Failing?
    case SyncDir(_) => w.pc.Renamed?
    case Die => !w.pc.Finished?
  }

  /** The inode's bytes after `piece` is written at `offset`; a gap left by a truncation reads as zeros. */
  function Overwritten(bytes: seq<Byte>, offset: nat, piece: seq<Byte>): seq<Byte> {
    var padded := if |bytes| < offset then bytes + seq(offset - |bytes|, _ => 0) else bytes;
    padded[..offset] + piece + (if offset + |piece| <= |padded| then padded[offset + |piece|..] else [])
  }

  function DataAt(s: State, ino: nat): seq<Byte> {
    if ino in s.data then s.data[ino] else []
  }

  function ActionAfter(s: State, i: nat, a: Action): State
    requires i < |s.writers| && ActionEnabled(s, s.writers[i], a)
  {
    var w := s.writers[i];
    var tmp := TmpName(w.key);
    match a
    case Create =>
      if tmp in s.dir then
        s.(data := s.data[s.dir[tmp] := []], writers := s.writers[i := w.(pc := Writing(s.dir[tmp], 0))])
      else
        State(s.dir[tmp := s.next], s.data[s.next := []], s.next + 1, s.writers[i := w.(pc := Writing(s.next, 0))])
    case Put(n) =>
      var (ino, done) := (w.pc.ino, w.pc.done);
      s.(data := s.data[ino := Overwritten(DataAt(s, ino), done, w.value[done..done + n])],
         writers := s.writers[i := w.(pc := Writing(ino, done + n))])
    case Fail => s.(writers := s.writers[i := w.(pc := if w.pc.Start? then Finished(false) else Failing)])
    case Rename =>
      if tmp in s.dir then
        s.(dir := s.dir[w.key := s.dir[tmp]] - {tmp}, writers := s.writers[i := w.(pc := Renamed)])
      else
        s.(writers := s.writers[i := w.(pc := Failing)])
    case Remove(ok) =>
      s.(dir := if ok then s.dir - {tmp} else s.dir, writers := s.writers[i := w.(pc := Finished(false))])
    case SyncDir(ok) => s.(writers := s.writers[i := w.(pc := Finished(ok))])
    case Die => s.(writers := s.writers[i := w.(pc := Cut)])
  }

  predicate Enabled(s: State, l: Label) {
    l.Act? ==> l.w < |s.writers| && ActionEnabled(s, s.writers[l.w], l.action)
  }

  function After(s: State, l: Label): State
    requires Enabled(s, l)
  {
    match l
    case Act(i, a) => ActionAfter(s, i, a)
    case Clear(key, gone) => if gone then s.(dir := s.dir - {key}) else s
  }

  // ---- what a caller sees ----

  /** The store as its readers see it: the complete bytes of every key that exists. */
  function View(s: State, keys: set<string>): map<string, seq<Byte>> {
    map k | k in keys && k in s.dir :: DataAt(s, s.dir[k])
  }

  /** No key is another key's temporary name. */
  predicate Apart(keys: set<string>) {
    forall a, b | a in keys && b in keys :: a != TmpName(b)
  }

  predicate Busy(w: Writer) {
    w.pc.Writing? || w.pc.Failing?
  }

  /** Writers of one key do not overlap. */
  predicate Serialized(s: State) {
    forall i, j | 0 <= i < |s.writers| && 0 <= j < |s.writers| && Busy(s.writers[i]) && Busy(s.writers[j])
      && s.writers[i].key == s.writers[j].key :: i == j
  }

  predicate WriterInv(s: State, w: Writer) {
    w.pc.Writing? ==>
      var tmp := TmpName(w.key);
      && w.pc.done <= |w.value|
      && tmp in s.dir && s.dir[tmp] == w.pc.ino && DataAt(s, w.pc.ino) == w.value[..w.pc.done]
  }

  predicate Linked(s: State) {
    && (forall p | p in s.dir :: s.dir[p] < s.next)
    && (forall p, q | p in s.dir && q in s.dir && s.dir[p] == s.dir[q] :: p == q)
  }

  predicate Inv(s: State, keys: set<string>) {
    && Apart(keys) && Serialized(s) && Linked(s)
    && (forall i | 0 <= i < |s.writers| :: s.writers[i].key in keys && WriterInv(s, s.writers[i]))
  }

  predicate Initial(s: State, keys: set<string>) {
    && Apart(keys) && Linked(s)
    && (forall i | 0 <= i < |s.writers| :: s.writers[i].key in keys && s.writers[i].pc.Start?)
  }

  predicate LabelOk(l: Label, keys: set<string>) {
    l.Clear? ==> l.key in keys
  }

  predicate IsRun(states: seq<State>, labels: seq<Label>, keys: set<string>) {
    && |states| == |labels| + 1 && Initial(states[0], keys)
    && (forall k: nat | k < |states| :: Serialized(states[k]))
    && (forall k: nat {:trigger labels[k]} | k < |labels| ::
          LabelOk(labels[k], keys) && Enabled(states[k], labels[k]) && states[k + 1] == After(states[k], labels[k]))
  }

  // ---- one step ----

  lemma Appended(bytes: seq<Byte>, done: nat, value: seq<Byte>, n: nat)
    requires done + n <= |value| && bytes == value[..done]
    ensures Overwritten(bytes, done, value[done..done + n]) == value[..done + n]
  {
  }

  /** Steps that touch another writer's temporary file do not exist. */
  lemma OthersKept(s: State, i: nat, a: Action, j: nat, keys: set<string>)
    requires Inv(s, keys) && i < |s.writers| && ActionEnabled(s, s.writers[i], a) && j < |s.writers| && j != i
    requires Serialized(ActionAfter(s, i, a))
    ensures WriterInv(ActionAfter(s, i, a), s.writers[j])
  {
    var n, w, v := ActionAfter(s, i, a), s.writers[i], s.writers[j];
    assert WriterInv(s, v) && WriterInv(s, w);
    if v.pc.Writing? {
      assert n.writers[j] == v;
      if w.key == v.key {
        assert !(Busy(n.writers[j]) && Busy(n.writers[i]));
      } else if TmpName(w.key) == TmpName(v.key) {
        TmpNameInjective(w.key, v.key);
      }
    }
  }

  lemma ActKeeps(s: State, i: nat, a: Action, keys: set<string>)
    requires Inv(s, keys) && i < |s.writers| && ActionEnabled(s, s.writers[i], a) && Serialized(ActionAfter(s, i, a))
    ensures Inv(ActionAfter(s, i, a), keys)
  {
    var n, w := ActionAfter(s, i, a), s.writers[i];
    assert WriterInv(s, w);
    if a.Put? {
      Appended(DataAt(s, w.pc.ino), w.pc.done, w.value, a.n);
    }
    forall j | 0 <= j < |n.writers|
      ensures n.writers[j].key in keys && WriterInv(n, n.writers[j])
    {
      if j != i {
        OthersKept(s, i, a, j, keys);
      }
    }
  }

  lemma ClearKeeps(s: State, key: string, gone: bool, keys: set<string>)
    requires Inv(s, keys) && key in keys
    ensures Inv(After(s, Clear(key, gone)), keys)
  {
    var n := After(s, Clear(key, gone));
    forall j | 0 <= j < |n.writers|
      ensures WriterInv(n, n.writers[j])
    {
      assert WriterInv(s, s.writers[j]);
    }
  }

  lemma RenameRefines(s: State, i: nat, keys: set<string>)
    requires Inv(s, keys) && i < |s.writers| && ActionEnabled(s, s.writers[i], Rename)
    ensures ActionAfter(s, i, Rename).writers[i].pc.Renamed?
    ensures View(ActionAfter(s, i, Rename), keys) == View(s, keys)[s.writers[i].key := s.writers[i].value]
  {
    var w := s.writers[i];
    assert w.key in keys && WriterInv(s, w);
    assert TmpName(w.key) !in keys;
    assert w.value[..|w.value|] == w.value;
  }

  lemma OtherStepsInvisible(s: State, i: nat, a: Action, keys: set<string>)
    requires Inv(s, keys) && i < |s.writers| && ActionEnabled(s, s.writers[i], a) && !a.Rename?
    ensures View(ActionAfter(s, i, a), keys) == View(s, keys)
  {
    var w := s.writers[i];
    assert w.key in keys && WriterInv(s, w);
    assert TmpName(w.key) !in keys;
  }

  /** The effect of a step on an atomic store: a rename puts, a clear that works deletes, all else does nothing. */
  function Atomic(view: map<string, seq<Byte>>, writers: seq<Writer>, l: Label): map<string, seq<Byte>> {
    match l
    case Clear(key, gone) => if gone then view - {key} else view
    case Act(i, a) => if a.Rename? && i < |writers| then view[writers[i].key := writers[i].value] else view
  }

  function Replay(view: map<string, seq<Byte>>, writers: seq<Writer>, labels: seq<Label>): map<string, seq<Byte>> {
    if labels == [] then view else Atomic(Replay(view, writers, labels[..|labels| - 1]), writers, labels[|labels| - 1])
  }

  lemma StepRefines(s: State, l: Label, keys: set<string>)
    requires Inv(s, keys) && LabelOk(l, keys) && Enabled(s, l)
    ensures View(After(s, l), keys) == Atomic(View(s, keys), s.writers, l)
  {
    if l.Act? {
      if l.action.Rename? {
        RenameRefines(s, l.w, keys);
      } else {
        OtherStepsInvisible(s, l.w, l.action, keys);
      }
    }
  }

  // ---- whole runs ----

  lemma {:induction false} RunInv(states: seq<State>, labels: seq<Label>, keys: set<string>, k: nat)
    requires IsRun(states, labels, keys) && k < |states|
    ensures Inv(states[k], keys)
  {
    if k > 0 {
      RunInv(states, labels, keys, k - 1);
      match labels[k - 1]
      case Act(i, a) => ActKeeps(states[k - 1], i, a, keys);
      case Clear(key, gone) => ClearKeeps(states[k - 1], key, gone, keys);
    }
  }

  lemma WriterStep(s: State, l: Label)
    requires Enabled(s, l)
    ensures |After(s, l).writers| == |s.writers|
    ensures forall i | 0 <= i < |s.writers| ::
      After(s, l).writers[i].key == s.writers[i].key && After(s, l).writers[i].value == s.writers[i].value
  {
  }

  lemma {:induction false} WritersFixed(states: seq<State>, labels: seq<Label>, keys: set<string>, k: nat)
    requires IsRun(states, labels, keys) && k < |states|
    ensures |states[k].writers| == |states[0].writers|
    ensures forall i | 0 <= i < |states[k].writers| ::
      states[k].writers[i].key == states[0].writers[i].key && states[k].writers[i].value == states[0].writers[i].value
  {
    if k > 0 {
      WritersFixed(states, labels, keys, k - 1);
      WriterStep(states[k - 1], labels[k - 1]);
    }
  }

  lemma SameAtomic(view: map<string, seq<Byte>>, a: seq<Writer>, b: seq<Writer>, l: Label)
    requires |a| == |b| && forall i | 0 <= i < |a| :: a[i].key == b[i].key && a[i].value == b[i].value
    ensures Atomic(view, a, l) == Atomic(view, b, l)
  {
  }

  lemma ReplayStep(view: map<string, seq<Byte>>, writers: seq<Writer>, labels: seq<Label>, k: nat)
    requires 0 < k <= |labels|
    ensures Replay(view, writers, labels[..k]) == Atomic(Replay(view, writers, labels[..k - 1]), writers, labels[k - 1])
  {
    assert labels[..k][..k - 1] == labels[..k - 1];
  }

  /**
   Refinement: after any interleaving of pieces, errors, cut-offs and clears, every key reads as
   the store would if each write were one atomic step at its rename.  A write that never reached
   its rename, for whatever reason, has changed no key.
   */
  lemma {:induction false} WritesAreAtomic(states: seq<State>, labels: seq<Label>, keys: set<string>, k: nat)
    requires IsRun(states, labels, keys) && k < |states|
    ensures View(states[k], keys) == Replay(View(states[0], keys), states[0].writers, labels[..k])
  {
    if k > 0 {
      WritesAreAtomic(states, labels, keys, k - 1);
      RunInv(states, labels, keys, k - 1);
      WritersFixed(states, labels, keys, k - 1);
      StepRefines(states[k - 1], labels[k - 1], keys);
      SameAtomic(View(states[k - 1], keys), states[k - 1].writers, states[0].writers, labels[k - 1]);
      ReplayStep(View(states[0], keys), states[0].writers, labels, k);
    }
  }

  /** How often writer `i` has renamed. */
  function Renames(labels: seq<Label>, i: nat): nat {
    if labels == [] then 0
    else Renames(labels[..|labels| - 1], i) + if labels[|labels| - 1] == Act(i, Rename) then 1 else 0
  }

  /** What `n` renames and a failed directory sync mean for a writer that stands at `pc`. */
  predicate Tells(pc: Pc, n: nat, syncFailed: bool) {
    && (pc.Start? || pc.Writing? || pc.Failing? ==> n == 0)
    && (pc.Renamed? || pc == Finished(true) ==> n == 1)
    && (pc == Finished(false) && n > 0 ==> n == 1 && syncFailed)
    && (pc.Cut? ==> n <= 1)
  }

  lemma TellsStep(s: State, l: Label, i: nat, keys: set<string>, n: nat, syncFailed: bool)
    requires Inv(s, keys) && Enabled(s, l) && i < |s.writers| && Tells(s.writers[i].pc, n, syncFailed)
    ensures |After(s, l).writers| == |s.writers|
    ensures Tells(After(s, l).writers[i].pc, n + if l == Act(i, Rename) then 1 else 0, syncFailed || l == Act(i, SyncDir(false)))
  {
    if l == Act(i, Rename) {
      RenameRefines(s, i, keys);
    }
  }

  /**
   What the result of `write` tells: success means published exactly once; an error before the
   rename means not at all; only a failed directory sync reports an error for a published value.
   */
  lemma {:induction false} ResultTellsPublication(states: seq<State>, labels: seq<Label>, keys: set<string>, k: nat, i: nat)
    requires IsRun(states, labels, keys) && k < |states| && i < |states[k].writers|
    ensures Tells(states[k].writers[i].pc, Renames(labels[..k], i), Act(i, SyncDir(false)) in labels[..k])
  {
    if k > 0 {
      var l := labels[k - 1];
      assert labels[..k] == labels[..k - 1] + [l];
      WriterStep(states[k - 1], l);
      ResultTellsPublication(states, labels, keys, k - 1, i);
      RunInv(states, labels, keys, k - 1);
      TellsStep(states[k - 1], l, i, keys, Renames(labels[..k - 1], i), Act(i, SyncDir(false)) in labels[..k - 1]);
    }
  }

  // ---- readers ----

  /** No temporary name leads to the inode, so nobody will write to it again. */
  predicate Frozen(s: State, keys: set<string>, ino: nat) {
    ino < s.next && forall k | k in keys && TmpName(k) in s.dir :: s.dir[TmpName(k)] != ino
  }

  lemma FrozenStep(s: State, l: Label, n: State, keys: set<string>, ino: nat)
    requires Inv(s, keys) && LabelOk(l, keys) && Enabled(s, l) && n == After(s, l) && Frozen(s, keys, ino)
    ensures Frozen(n, keys, ino) && DataAt(n, ino) == DataAt(s, ino)
  {
    if l.Act? {
      var w := s.writers[l.w];
      assert w.key in keys && WriterInv(s, w);
    }
  }

  lemma KeyFrozen(s: State, keys: set<string>, key: string)
    requires Inv(s, keys) && key in keys && key in s.dir
    ensures Frozen(s, keys, s.dir[key])
  {
  }

  lemma {:induction false} FrozenRun(states: seq<State>, labels: seq<Label>, keys: set<string>, ino: nat, j: nat, m: nat)
    requires IsRun(states, labels, keys) && j <= m < |states| && Frozen(states[j], keys, ino)
    ensures Frozen(states[m], keys, ino) && DataAt(states[m], ino) == DataAt(states[j], ino)
  {
    if m > j {
      RunInv(states, labels, keys, m - 1);
      FrozenRun(states, labels, keys, ino, j, m - 1);
      FrozenStep(states[m - 1], labels[m - 1], states[m], keys, ino);
    }
  }

  /**
   A reader that opened a key at one moment and reads on at any later moments, however the key is
   replaced or cleared meanwhile, gets exactly the complete value the key had when it was opened.
   */
  lemma ReadersSeeOneValue(states: seq<State>, labels: seq<Label>, keys: set<string>, key: string, j: nat, m: nat)
    requires IsRun(states, labels, keys) && j <= m < |states| && key in keys && key in states[j].dir
    ensures DataAt(states[m], states[j].dir[key]) == View(states[j], keys)[key]
  {
    RunInv(states, labels, keys, j);
    KeyFrozen(states[j], keys, key);
    FrozenRun(states, labels, keys, states[j].dir[key], j, m);
  }

  // ---- both conditions are needed ----

  /**
   Opening the temporary file leaves the contents of every key alone in all states if and only if
   no key is the temporary name of the key being written.
   */
  lemma CreateHarmlessIffApart(key: string, keys: set<string>)
    ensures TmpName(key) !in keys <==>
      forall s: State, i: nat | Linked(s) && i < |s.writers| && s.writers[i] == Writer(key, [], Start) ::
        View(ActionAfter(s, i, Create), keys) == View(s, keys)
  {
    if TmpName(key) in keys {
      var s := State(map[TmpName(key) := 0], map[0 := [1]], 1, [Writer(key, [], Start)]);
      assert Linked(s) && s.writers[0] == Writer(key, [], Start);
      assert View(s, keys)[TmpName(key)] == [1];
      assert View(ActionAfter(s, 0, Create), keys)[TmpName(key)] == [];
    }
  }

  /** Two overlapping writers of one key, both of which have opened the temporary file. */
  function Racing(key: string, a: seq<Byte>, b: seq<Byte>): State {
    State(map[TmpName(key) := 0], map[0 := []], 1, [Writer(key, a, Writing(0, 0)), Writer(key, b, Writing(0, 0))])
  }

  /**
   Without serialisation: the first writer writes and renames, and the second, whose handle now
   reaches the published inode, mixes its own bytes into it piece by piece.
   */
  lemma OverlappingWritersTear(key: string, a: seq<Byte>, b: seq<Byte>, n: nat)
    requires n <= |a| && n <= |b|
    ensures
      var s1 := ActionAfter(Racing(key, a, b), 0, Put(|a|));
      var s2 := ActionAfter(s1, 0, Rename);
      var s3 := ActionAfter(s2, 1, Put(n));
      View(s2, {key})[key] == a && View(s3, {key})[key] == b[..n] + a[n..]
  {
    var s1 := ActionAfter(Racing(key, a, b), 0, Put(|a|));
    assert s1.data[0] == a;
    assert |TmpName(key)| != |key|;
    var s2 := ActionAfter(s1, 0, Rename);
    assert s2.dir[key] == 0;
    var s3 := ActionAfter(s2, 1, Put(n));
    assert s3.data[0] == b[..n] + a[n..];
  }

  // ---- one call, undisturbed by other writers of its key ----

  /** The state after the steps `labels`, if each of them can be taken. */
  function Exec(s: State, labels: seq<Label>): Option<State> {
    if labels == [] then Some(s)
    else match Exec(s, labels[..|labels| - 1])
      case Some(m) => if Enabled(m, labels[|labels| - 1]) then Some(After(m, labels[|labels| - 1])) else None
      case None => None
  }

  lemma ExecMore(s: State, labels: seq<Label>, l: Label)
    ensures Exec(s, labels).Some? && Enabled(Exec(s, labels).value, l) ==>
      Exec(s, labels + [l]) == Some(After(Exec(s, labels).value, l))
  {
    assert (labels + [l])[..|labels|] == labels;
  }

  /** A writer of `key` starts. */
  function Begun(s: State, key: string, value: seq<Byte>): State {
    s.(writers := s.writers + [Writer(key, value, Start)])
  }

  /** No writer other than `i` is busy with `key`. */
  predicate Alone(s: State, i: nat, key: string) {
    forall j | 0 <= j < |s.writers| && j != i && s.writers[j].key == key :: !Busy(s.writers[j])
  }

  lemma BeginKeeps(s: State, key: string, value: seq<Byte>, keys: set<string>)
    requires Inv(s, keys) && key in keys && Alone(s, |s.writers|, key)
    ensures Inv(Begun(s, key, value), keys) && Alone(Begun(s, key, value), |s.writers|, key)
    ensures View(Begun(s, key, value), keys) == View(s, keys)
  {
    var n := Begun(s, key, value);
    forall i | 0 <= i < |n.writers| ensures n.writers[i].key in keys && WriterInv(n, n.writers[i]) {
      if i < |s.writers| {
        assert WriterInv(s, s.writers[i]);
      }
    }
  }

  /** Where an undisturbed writer stands after a step. */
  predicate Advances(pc: Pc, a: Action, next: Pc) {
    match a
    case Create => next.Writing? && next.done == 0
    case Put(n) => pc.Writing? && next == pc.(done := pc.done + n)
    case Fail => next == if pc.Start? then Finished(false) else Failing
    case Rename => next.Renamed?
    case Remove(_) => next == Finished(false)
    case SyncDir(ok) => next == Finished(ok)
    case Die => next.Cut?
  }

  lemma AloneStep(s: State, i: nat, a: Action, keys: set<string>)
    requires Inv(s, keys) && i < |s.writers| && ActionEnabled(s, s.writers[i], a) && Alone(s, i, s.writers[i].key)
    ensures
      var n, w := ActionAfter(s, i, a), s.writers[i];
      && Inv(n, keys) && |n.writers| == |s.writers| && Alone(n, i, w.key)
      && n.writers[i] == w.(pc := n.writers[i].pc) && Advances(w.pc, a, n.writers[i].pc)
      && View(n, keys) == if a.Rename? then View(s, keys)[w.key := w.value] else View(s, keys)
  {
    ActKeeps(s, i, a, keys);
    if a.Rename? {
      RenameRefines(s, i, keys);
    } else {
      OtherStepsInvisible(s, i, a, keys);
    }
  }

  /** Which of the calls into the file system succeed. */
  datatype FsIo = FsIo(create: bool, write: bool, sync: bool, rename: bool, remove: bool, syncDir: bool)

  class Directory {
    var st: State
    const syncOnWrite: bool

    constructor (syncOnWrite: bool)
      ensures st == State(map[], map[], 0, []) && this.syncOnWrite == syncOnWrite
    {
      st := State(map[], map[], 0, []);
      this.syncOnWrite := syncOnWrite;
    }

    /** `open` and `read` say whether these calls succeed on a file that exists. */
    method Read(key: string, open: bool, read: bool) returns (r: Result<seq<Byte>>)
      ensures
        var view := View(st, {key});
        r == if key !in view then Err(NotFound) else if open && read then Ok(view[key]) else Err(InternalError)
    {
      if key !in st.dir {
        return Err(NotFound);
      }
      if !open || !read {
        return Err(InternalError);
      }
      return Ok(DataAt(st, st.dir[key]));
    }

    /** The calls up to the rename all succeed. */
    predicate Publishes(io: FsIo) {
      io.create && io.write && io.rename && (syncOnWrite ==> io.sync)
    }

    /** One step of writer `i`, recorded in `labels`. */
    method Take(i: nat, a: Action, ghost keys: set<string>, ghost was: State, ghost labels: seq<Label>)
      returns (ghost more: seq<Label>)
      requires Inv(st, keys) && i < |st.writers| && ActionEnabled(st, st.writers[i], a) && Alone(st, i, st.writers[i].key)
      requires Exec(was, labels) == Some(st)
      modifies `st
      ensures Exec(was, more) == Some(st)
      ensures Inv(st, keys) && |st.writers| == |old(st).writers| && Alone(st, i, old(st).writers[i].key)
      ensures st.writers[i] == old(st).writers[i].(pc := st.writers[i].pc) && Advances(old(st).writers[i].pc, a, st.writers[i].pc)
      ensures View(st, keys)
        == if a.Rename? then View(old(st), keys)[old(st).writers[i].key := old(st).writers[i].value] else View(old(st), keys)
    {
      AloneStep(st, i, a, keys);
      ExecMore(was, labels, Act(i, a));
      more := labels + [Act(i, a)];
      st := ActionAfter(st, i, a);
    }

    /**
     `piece` is how much of the data reached the file before a failing write.  The call is a run of
     the step system by one more writer; to readers of any key it is one atomic put, exactly when
     every call up to the rename succeeded.
     */
    method Write(key: string, value: seq<Byte>, piece: nat, io: FsIo, ghost keys: set<string>)
      returns (r: Result<()>, ghost labels: seq<Label>)
      requires Inv(st, keys) && key in keys && Alone(st, |st.writers|, key) && piece <= |value|
      modifies `st
      ensures Inv(st, keys) && Exec(Begun(old(st), key, value), labels) == Some(st)
      ensures r.Ok? <==> Publishes(io) && (syncOnWrite ==> io.syncDir)
      ensures View(st, keys) == if Publishes(io) then View(old(st), keys)[key := value] else View(old(st), keys)
      ensures |st.writers| == |old(st).writers| + 1 && st.writers[|old(st).writers|].pc == Finished(r.Ok?)
    {
      BeginKeeps(st, key, value, keys);
      var i := |st.writers|;
      st := Begun(st, key, value);
      ghost var was := st;
      labels := [];
      if !io.create {
        labels := Take(i, Fail, keys, was, labels);
        return Err(InternalError), labels;
      }
      labels := Take(i, Create, keys, was, labels);
      labels := Take(i, Put(if io.write then |value| else piece), keys, was, labels);
      if !io.write || (syncOnWrite && !io.sync) || !io.rename {
        labels := Take(i, Fail, keys, was, labels);
        labels := Take(i, Remove(io.remove), keys, was, labels);
        return Err(InternalError), labels;
      }
      labels := Take(i, Rename, keys, was, labels);
      labels := Take(i, SyncDir(!syncOnWrite || io.syncDir), keys, was, labels);
      return if !syncOnWrite || io.syncDir then Ok(()) else Err(InternalError), labels;
    }

    /** `gone` says whether a file that exists could be removed. */
    method Clear(key: string, gone: bool, ghost keys: set<string>) returns (r: Result<()>)
      requires Inv(st, keys) && key in keys
      modifies `st
      ensures r == Ok(()) && Inv(st, keys) && st == After(old(st), Label.Clear(key, gone))
      ensures View(st, keys) == if gone then View(old(st), keys) - {key} else View(old(st), keys)
    {
      ClearKeeps(st, key, gone, keys);
      StepRefines(st, Label.Clear(key, gone), keys);
      if gone {
        st := st.(dir := st.dir - {key});
      }
      return Ok(());
    }
  }
}
