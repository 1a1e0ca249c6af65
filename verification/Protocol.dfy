/**
 The resiliency protocol as a step system.

 Any number of processes share one store and one cross-process lock; each process holds an
 in-memory restore epoch, a key barrier, one partition lock, and one lock per session and per
 key.  Any number of threads run key operations, key generation, session opening, partition
 initialisation and key deletion.  A thread's program counter names the point it has reached;
 the locks it holds and the lock it is about to take are functions of that point, as the
 source's lock guards are lexical scopes.  The device, the I/O results and the remaining retry
 budget are chosen freely at every step.
 */
module Protocol {
  import opened Common
  import opened Epoch
  import opened LockOrder
  import opened Trace

  // ---- data ----

  /** `bmk` stands for the masking key the device issued with the last open or reopen that was stored. */
  datatype Session = Session(proc: nat, epoch: nat, v2: bool, bmk: nat)

  datatype Key = Key(proc: nat, sess: nat, epoch: nat, deleted: bool)

  datatype Task =
    | NoTask
    | KeyOp(key: nat, sess: nat)
    | KeyGen(sess: nat)
    | OpenSession(v2: bool)
    | InitPart
    | DeleteKey(key: nat, sess: nat)

  /** The answer of `init_part_raw_no_res`, in the three classes its callers match on. */
  datatype DevAnswer = Established | AlreadyEstablished | DevFailed

  /** How one device operation ended, as the retry loops classify it. */
  datatype OpResult = Done | Retryable | Fatal | Stale

  /** `execute_key_op_with_retry`. */
  datatype OpPc =
    | OpWantRead | OpReadKey | OpCompareOld | OpReadKeyAgain | OpCompareNew
    | OpLockKey | OpLockSession | OpLockInner | OpDevice
    | OpDecide(res: OpResult) | OpBackoff | OpWantWrite

  /** `restore_partition`. */
  datatype RsPc =
    | RsSnapshot | RsWantLock | RsLockInner | RsCheck | RsDevice | RsWantApply(answer: DevAnswer)
    | RsPersist | RsReadEpoch | RsSetMem | RsWriteEpoch | RsSync

  /** `reopen_session_if_needed` and `with_reopen_guard`. */
  datatype RoPc =
    | RoEpoch | RoSession | RoCreds | RoSeed | RoWantSession | RoGuard | RoInner | RoDevice | RoBmk

  /** `restore_from_masked`. */
  datatype RkPc =
    | RkEpoch | RkKey | RkWantKey | RkGuard | RkSession | RkInner | RkDevice | RkDone

  /** `execute_key_gen_with_retry`; `w` says whether the barrier is held for writing. */
  datatype GnPc =
    | GnWantRead | GnSession(w: bool) | GnInner(w: bool) | GnDevice(w: bool)
    | GnDecide(res: OpResult) | GnBackoff | GnWantWrite | GnCreate

  /** `execute_open_session_with_retry` and `HsmSession::new`. */
  datatype OsPc = OsInner | OsDevice | OsDecide(res: OpResult) | OsBackoff | OsCreate

  /** `HsmPartition::init`. */
  datatype InPc = InWantLock | InWantInner | InDevice | InBackoff | InReadEpoch

  /** `HsmKeyDeleteOp::delete_key` and `ddi::delete_key`. */
  datatype DlPc = DlWantKey | DlWantRead | DlCompare | DlSession | DlInner | DlDevice

  datatype Pc =
    | Idle
    | Op(op: OpPc)
    | Rs(rs: RsPc)
    | Ro(ro: RoPc)
    | Rk(rk: RkPc)
    | Gn(gn: GnPc)
    | Os(os: OsPc)
    | In(init: InPc)
    | Dl(dl: DlPc)

  /**
   `snap` is the epoch snapshot of `restore_partition` (and, while a key is being restored, the
   epoch the session was brought to); `cur` is the last epoch read; `mark` is the length of the
   history when the thread last took the key barrier for writing or, in a key operation, when it
   compared the key with the partition; `issue` is a masking key the device issued and the
   session has not stored yet.
   */
  datatype Thread = Thread(proc: nat, task: Task, pc: Pc, snap: nat, cur: nat, mark: nat, issue: nat)

  /** A masking key issued for a session when it was opened or reopened. */
  datatype Issue = Issue(sess: nat, epoch: nat, bmk: nat)

  /** `log` is the history of epoch moves, `issued` that of opened and reopened sessions. */
  datatype State = State(
    stored: Option<nat>,
    procs: seq<Option<nat>>,
    sessions: seq<Session>,
    keys: seq<Key>,
    threads: seq<Thread>,
    log: seq<Event>,
    issued: seq<Issue>)

  // ---- locks ----

  function TaskSess(task: Task): nat {
    match task
    case KeyOp(_, i) => i
    case KeyGen(i) => i
    case DeleteKey(_, i) => i
    case _ => 0
  }

  function TaskKey(task: Task): nat {
    match task
    case KeyOp(k, _) => k
    case DeleteKey(k, _) => k
    case _ => 0
  }

  function BarrierR(th: Thread): Grant { Grant(Barrier(th.proc), false) }
  function BarrierW(th: Thread): Grant { Grant(Barrier(th.proc), true) }
  function InnerR(th: Thread): Grant { Grant(Inner(th.proc), false) }
  function InnerW(th: Thread): Grant { Grant(Inner(th.proc), true) }
  function SessR(th: Thread): Grant { Grant(SessLock(TaskSess(th.task)), false) }
  function SessW(th: Thread): Grant { Grant(SessLock(TaskSess(th.task)), true) }
  function KeyR(th: Thread): Grant { Grant(KeyLock(TaskKey(th.task)), false) }
  function KeyW(th: Thread): Grant { Grant(KeyLock(TaskKey(th.task)), true) }
  const ResLock: Grant := Grant(Res, true)

  /** Recovery runs under the barrier, except when it is entered from session opening. */
  function RecoveryGrants(th: Thread): set<Grant> {
    if th.task.OpenSession? then {} else {BarrierW(th)}
  }

  function HoldsOp(th: Thread, pc: OpPc): set<Grant> {
    match pc
    case OpWantRead | OpDecide(_) | OpBackoff | OpWantWrite => {}
    case OpReadKey | OpCompareOld | OpReadKeyAgain | OpCompareNew | OpLockKey => {BarrierR(th)}
    case OpLockSession => {BarrierR(th), KeyR(th)}
    case OpLockInner => {BarrierR(th), KeyR(th), SessR(th)}
    case OpDevice => {BarrierR(th), KeyR(th), SessR(th), InnerR(th)}
  }

  function HoldsRs(th: Thread, pc: RsPc): set<Grant> {
    match pc
    case RsSnapshot | RsWantLock => {}
    case RsLockInner | RsWantApply(_) => {ResLock}
    case RsCheck | RsDevice => {ResLock, InnerR(th)}
    case RsPersist | RsReadEpoch | RsSetMem | RsWriteEpoch | RsSync => {ResLock, InnerW(th)}
  }

  function HoldsRo(th: Thread, pc: RoPc): set<Grant> {
    match pc
    case RoEpoch | RoSession | RoCreds | RoSeed | RoWantSession | RoBmk => {}
    case RoGuard | RoInner => {SessW(th)}
    case RoDevice => {SessW(th), InnerR(th)}
  }

  function HoldsRk(th: Thread, pc: RkPc): set<Grant> {
    match pc
    case RkEpoch | RkKey | RkWantKey | RkDone => {}
    case RkGuard | RkSession => {KeyW(th)}
    case RkInner => {KeyW(th), SessR(th)}
    case RkDevice => {KeyW(th), SessR(th), InnerR(th)}
  }

  function HoldsGn(th: Thread, pc: GnPc): set<Grant> {
    match pc
    case GnWantRead | GnDecide(_) | GnBackoff | GnWantWrite | GnCreate => {}
    case GnSession(w) => {Grant(Barrier(th.proc), w)}
    case GnInner(w) => {Grant(Barrier(th.proc), w), SessR(th)}
    case GnDevice(w) => {Grant(Barrier(th.proc), w), SessR(th), InnerR(th)}
  }

  function HoldsDl(th: Thread, pc: DlPc): set<Grant> {
    match pc
    case DlWantKey => {}
    case DlWantRead => {KeyW(th)}
    case DlCompare | DlSession => {KeyW(th), BarrierR(th)}
    case DlInner => {KeyW(th), BarrierR(th), SessR(th)}
    case DlDevice => {KeyW(th), BarrierR(th), SessR(th), InnerR(th)}
  }

  /** The locks a thread holds. */
  function Holds(th: Thread): set<Grant> {
    match th.pc
    case Idle => {}
    case Op(pc) => HoldsOp(th, pc)
    case Rs(pc) => RecoveryGrants(th) + HoldsRs(th, pc)
    case Ro(pc) => RecoveryGrants(th) + HoldsRo(th, pc)
    case Rk(pc) => RecoveryGrants(th) + HoldsRk(th, pc)
    case Gn(pc) => HoldsGn(th, pc)
    case Os(pc) => if pc.OsDevice? then {InnerR(th)} else {}
    case In(pc) => (match pc
      case InWantLock => {}
      case InWantInner => {ResLock}
      case InDevice | InBackoff | InReadEpoch => {ResLock, InnerW(th)})
    case Dl(pc) => HoldsDl(th, pc)
  }

  /** The lock a thread must obtain for its next step; a short read locks, reads and unlocks in it. */
  function Wants(th: Thread): Option<Grant> {
    match th.pc
    case Idle => None
    case Op(pc) => (match pc
      case OpWantRead => Some(BarrierR(th))
      case OpReadKey | OpReadKeyAgain | OpLockKey => Some(KeyR(th))
      case OpCompareOld | OpCompareNew | OpLockInner => Some(InnerR(th))
      case OpLockSession => Some(SessR(th))
      case OpWantWrite => Some(BarrierW(th))
      case OpDevice | OpDecide(_) | OpBackoff => None)
    case Rs(pc) => (match pc
      case RsSnapshot | RsLockInner => Some(InnerR(th))
      case RsWantLock => Some(ResLock)
      case RsWantApply(_) => Some(InnerW(th))
      case _ => None)
    case Ro(pc) => (match pc
      case RoEpoch | RoCreds | RoInner => Some(InnerR(th))
      case RoSession | RoSeed => Some(SessR(th))
      case RoWantSession | RoBmk => Some(SessW(th))
      case RoGuard | RoDevice => None)
    case Rk(pc) => (match pc
      case RkEpoch | RkInner => Some(InnerR(th))
      case RkKey => Some(KeyR(th))
      case RkWantKey => Some(KeyW(th))
      case RkSession => Some(SessR(th))
      case RkGuard | RkDevice | RkDone => None)
    case Gn(pc) => (match pc
      case GnWantRead => Some(BarrierR(th))
      case GnSession(_) => Some(SessR(th))
      case GnInner(_) | GnCreate => Some(InnerR(th))
      case GnWantWrite => Some(BarrierW(th))
      case GnDevice(_) | GnDecide(_) | GnBackoff => None)
    case Os(pc) => (match pc
      case OsInner | OsCreate => Some(InnerR(th))
      case _ => None)
    case In(pc) => (match pc
      case InWantLock => Some(ResLock)
      case InWantInner => Some(InnerW(th))
      case _ => None)
    case Dl(pc) => (match pc
      case DlWantKey => Some(KeyW(th))
      case DlWantRead => Some(BarrierR(th))
      case DlCompare | DlInner => Some(InnerR(th))
      case DlSession => Some(SessR(th))
      case DlDevice => None)
  }

  /** No other thread holds a lock that conflicts with the one thread `t` wants. */
  predicate Ready(s: State, t: nat)
    requires t < |s.threads|
  {
    Wants(s.threads[t]).Some? ==>
      forall u :: 0 <= u < |s.threads| && u != t ==>
        Compatible({Wants(s.threads[t]).value}, Holds(s.threads[u]))
  }

  // ---- well-formedness ----

  predicate PcFitsTask(pc: Pc, task: Task) {
    match pc
    case Idle => task.NoTask?
    case Op(_) => task.KeyOp?
    case Rs(_) => task.KeyOp? || task.KeyGen? || task.OpenSession?
    case Ro(_) => task.KeyOp? || task.KeyGen?
    case Rk(_) => task.KeyOp?
    case Gn(_) => task.KeyGen?
    case Os(_) => task.OpenSession?
    case In(_) => task.InitPart?
    case Dl(_) => task.DeleteKey?
  }

  /** The task names objects of the thread's own process, which has resiliency enabled. */
  predicate TaskFits(s: State, p: nat, task: Task) {
    && p < |s.procs|
    && (!task.NoTask? && !task.InitPart? ==> s.procs[p].Some?)
    && (task.KeyOp? || task.KeyGen? || task.DeleteKey? ==>
          TaskSess(task) < |s.sessions| && s.sessions[TaskSess(task)].proc == p)
    && (task.KeyOp? || task.DeleteKey? ==>
          && TaskKey(task) < |s.keys|
          && s.keys[TaskKey(task)].proc == p
          && s.keys[TaskKey(task)].sess == TaskSess(task))
  }

  predicate Fits(s: State, th: Thread) {
    TaskFits(s, th.proc, th.task) && PcFitsTask(th.pc, th.task)
  }

  /** The partition's current restore epoch; 0 while resiliency is not enabled. */
  function Mem(s: State, p: nat): nat
    requires p < |s.procs|
  {
    if s.procs[p].Some? then s.procs[p].value else 0
  }

  // ---- steps ----

  /**
   Everything a step may depend on besides the state: the device's answers, whether an I/O call
   succeeds, what becomes of an epoch write, whether retry budget remains, the masking key the
   device issues, and the next task of an idle thread.
   */
  datatype Choice = Choice(answer: DevAnswer, res: OpResult, io: bool, write: WriteOutcome, again: bool, bmk: nat, task: Task)

  datatype Effect =
    | NoEffect
    | EnterArm(snap: nat)
    | LeaveArm(snap: nat)
    | SetMem(epoch: nat, how: How, barrier: bool)
    | WriteStore(snap: nat, epoch: nat, out: WriteOutcome)
    | MoveSession(sess: nat, epoch: nat, bmk: nat)
    | StoreBmk(sess: nat, bmk: nat)
    | MoveKey(key: nat, epoch: nat)
    | AddSession(v2: bool, bmk: nat)
    | AddKey(sess: nat)
    | DropKey(key: nat)

  datatype Move = Move(th: Thread, eff: Effect)

  function Goto(th: Thread, pc: Pc): Move {
    Move(th.(pc := pc), NoEffect)
  }

  function Finish(th: Thread): Move {
    Goto(th.(task := NoTask), Idle)
  }

  function PlanIdle(s: State, th: Thread, c: Choice): Move {
    if !TaskFits(s, th.proc, c.task) then Finish(th)
    else
      var th' := th.(task := c.task);
      match c.task
      case NoTask => Finish(th)
      case KeyOp(_, _) => Goto(th', Op(OpWantRead))
      case KeyGen(_) => Goto(th', Gn(GnWantRead))
      case OpenSession(_) => Goto(th', Os(OsInner))
      case InitPart => Goto(th', In(InWantLock))
      case DeleteKey(_, _) => Goto(th', Dl(DlWantKey))
  }

  function PlanOp(s: State, th: Thread, pc: OpPc, c: Choice): Move
    requires Fits(s, th) && th.task.KeyOp?
  {
    match pc
    case OpWantRead => Goto(th, Op(OpReadKey))
    case OpReadKey => Goto(th.(cur := s.keys[th.task.key].epoch), Op(OpCompareOld))
    case OpCompareOld =>
      if th.cur < Mem(s, th.proc) then Goto(th, Op(OpDecide(Stale)))
      else Goto(th.(mark := |s.log|), Op(OpReadKeyAgain))
    case OpReadKeyAgain => Goto(th.(cur := s.keys[th.task.key].epoch), Op(OpCompareNew))
    case OpCompareNew => if th.cur > Mem(s, th.proc) then Finish(th) else Goto(th, Op(OpLockKey))
    case OpLockKey => Goto(th, Op(OpLockSession))
    case OpLockSession => Goto(th, Op(OpLockInner))
    case OpLockInner => Goto(th, Op(OpDevice))
    case OpDevice => Goto(th, Op(OpDecide(if c.res.Stale? then Fatal else c.res)))
    case OpDecide(res) => (match res
      case Done | Fatal => Finish(th)
      case Retryable => if c.again then Goto(th, Op(OpBackoff)) else Finish(th)
      case Stale => if c.again then Goto(th, Op(OpWantWrite)) else Finish(th))
    case OpBackoff => Goto(th, Op(OpWantWrite))
    case OpWantWrite => Goto(th.(mark := |s.log|), Rs(RsSnapshot))
  }

  /** Where the caller continues after `restore_partition` succeeded. */
  function AfterRestore(th: Thread): Pc {
    if th.task.OpenSession? then Os(OsInner) else Ro(RoEpoch)
  }

  /** Where the caller continues after a recovery step failed; its guards are dropped. */
  function AfterFailure(th: Thread): Pc {
    match th.task
    case OpenSession(_) => Os(OsDecide(Retryable))
    case KeyGen(_) => Gn(GnDecide(Retryable))
    case _ => Op(OpWantRead)
  }

  /** Recovery holds the key barrier unless it was entered from session opening. */
  predicate UnderBarrier(th: Thread) {
    !th.task.OpenSession?
  }

  function PlanRs(s: State, th: Thread, pc: RsPc, c: Choice): Move
    requires Fits(s, th) && (th.task.KeyOp? || th.task.KeyGen? || th.task.OpenSession?)
  {
    var p := th.proc;
    match pc
    case RsSnapshot => Goto(th.(snap := Mem(s, p)), Rs(RsWantLock))
    case RsWantLock => if c.io then Goto(th, Rs(RsLockInner)) else Goto(th, AfterFailure(th))
    case RsLockInner => Goto(th, Rs(RsCheck))
    case RsCheck => if Mem(s, p) != th.snap then Goto(th, AfterRestore(th)) else Goto(th, Rs(RsDevice))
    case RsDevice => if c.io then Goto(th, Rs(RsWantApply(c.answer))) else Goto(th, AfterFailure(th))
    case RsWantApply(answer) => (match answer
      case Established => Move(th.(pc := Rs(RsPersist)), EnterArm(th.snap))
      case AlreadyEstablished => Goto(th, Rs(RsSync))
      case DevFailed => Goto(th, AfterFailure(th)))
    case RsPersist =>
      if c.io then Goto(th, Rs(RsReadEpoch)) else Move(th.(pc := AfterFailure(th)), LeaveArm(th.snap))
    case RsReadEpoch =>
      if c.io then Goto(th.(cur := Bumped(s.stored)), Rs(RsSetMem))
      else Move(th.(pc := AfterFailure(th)), LeaveArm(th.snap))
    case RsSetMem => Move(th.(pc := Rs(RsWriteEpoch)), SetMem(th.cur, ByRestore, UnderBarrier(th)))
    case RsWriteEpoch =>
      Move(th.(pc := if c.write.Stored? then AfterRestore(th) else AfterFailure(th)),
           WriteStore(th.snap, th.cur, c.write))
    case RsSync =>
      if !c.io then Goto(th, AfterFailure(th))
      else match Synced(Mem(s, p), s.stored)
        case Adopt(e) => Move(th.(pc := AfterRestore(th)), SetMem(e, BySync, UnderBarrier(th)))
        case Keep => Goto(th, AfterRestore(th))
        case Backwards => Goto(th, AfterFailure(th))
  }

  /** Where the caller continues after `reopen_session_if_needed` succeeded. */
  function AfterReopen(th: Thread): Pc {
    if th.task.KeyGen? then Gn(GnSession(true)) else Rk(RkEpoch)
  }

  function PlanRo(s: State, th: Thread, pc: RoPc, c: Choice): Move
    requires Fits(s, th) && (th.task.KeyOp? || th.task.KeyGen?)
  {
    var i := th.task.sess;
    match pc
    case RoEpoch => Goto(th.(cur := Mem(s, th.proc)), Ro(RoSession))
    case RoSession =>
      if s.sessions[i].epoch == th.cur then Goto(th, AfterReopen(th))
      else if s.sessions[i].epoch > th.cur then Goto(th, AfterFailure(th))
      else Goto(th, Ro(RoCreds))
    case RoCreds => Goto(th, Ro(RoSeed))
    case RoSeed => if s.sessions[i].v2 then Goto(th, AfterFailure(th)) else Goto(th, Ro(RoWantSession))
    case RoWantSession => Goto(th, Ro(RoGuard))
    case RoGuard =>
      if s.sessions[i].epoch == th.cur then Goto(th, AfterReopen(th))
      else if s.sessions[i].epoch > th.cur then Goto(th, AfterFailure(th))
      else Goto(th, Ro(RoInner))
    case RoInner => Goto(th, Ro(RoDevice))
    case RoDevice =>
      if c.io then Move(th.(pc := Ro(RoBmk), issue := c.bmk), MoveSession(i, th.cur, c.bmk))
      else Goto(th, AfterFailure(th))
    case RoBmk => Move(th.(pc := AfterReopen(th)), StoreBmk(i, th.issue))
  }

  function PlanRk(s: State, th: Thread, pc: RkPc, c: Choice): Move
    requires Fits(s, th) && th.task.KeyOp?
  {
    var k := th.task.key;
    match pc
    case RkEpoch => Goto(th.(snap := th.cur, cur := Mem(s, th.proc)), Rk(RkKey))
    case RkKey => if s.keys[k].epoch == th.cur then Goto(th, Rk(RkDone)) else Goto(th, Rk(RkWantKey))
    case RkWantKey => Goto(th, Rk(RkGuard))
    case RkGuard =>
      if s.keys[k].epoch == th.cur then Goto(th, Rk(RkDone))
      else if s.keys[k].deleted then Goto(th, AfterFailure(th))
      else Goto(th, Rk(RkSession))
    case RkSession => Goto(th, Rk(RkInner))
    case RkInner => Goto(th, Rk(RkDevice))
    case RkDevice =>
      if c.io then Move(th.(pc := Rk(RkDone)), MoveKey(k, th.cur)) else Goto(th, AfterFailure(th))
    case RkDone => Goto(th, Op(OpWantRead))
  }

  function PlanGn(s: State, th: Thread, pc: GnPc, c: Choice): Move
    requires Fits(s, th) && th.task.KeyGen?
  {
    match pc
    case GnWantRead => Goto(th, Gn(GnSession(false)))
    case GnSession(w) => Goto(th, Gn(GnInner(w)))
    case GnInner(w) => Goto(th, Gn(GnDevice(w)))
    case GnDevice(_) => Goto(th, Gn(GnDecide(if c.res.Stale? then Fatal else c.res)))
    case GnDecide(res) => (match res
      case Done => Goto(th, Gn(GnCreate))
      case Retryable => if c.again then Goto(th, Gn(GnBackoff)) else Finish(th)
      case _ => Finish(th))
    case GnBackoff => Goto(th, Gn(GnWantWrite))
    case GnWantWrite => Goto(th.(mark := |s.log|), Rs(RsSnapshot))
    case GnCreate => Move(th.(task := NoTask, pc := Idle), AddKey(th.task.sess))
  }

  function PlanOs(s: State, th: Thread, pc: OsPc, c: Choice): Move
    requires Fits(s, th) && th.task.OpenSession?
  {
    match pc
    case OsInner => Goto(th, Os(OsDevice))
    case OsDevice => Goto(th, Os(OsDecide(if c.res.Stale? then Fatal else c.res)))
    case OsDecide(res) => (match res
      case Done => Goto(th, Os(OsCreate))
      case Retryable => if c.again then Goto(th, Os(OsBackoff)) else Finish(th)
      case _ => Finish(th))
    case OsBackoff => Goto(th.(mark := |s.log|), Rs(RsSnapshot))
    case OsCreate => Move(th.(task := NoTask, pc := Idle), AddSession(th.task.v2, c.bmk))
  }

  function PlanIn(s: State, th: Thread, pc: InPc, c: Choice): Move
    requires Fits(s, th) && th.task.InitPart?
  {
    match pc
    case InWantLock => if c.io then Goto(th, In(InWantInner)) else Finish(th)
    case InWantInner => Goto(th, In(InDevice))
    case InDevice =>
      if !c.answer.DevFailed? then Goto(th, In(InReadEpoch))
      else if c.again then Goto(th, In(InBackoff))
      else Finish(th)
    case InBackoff => Goto(th, In(InDevice))
    case InReadEpoch =>
      if c.io then Move(th.(task := NoTask, pc := Idle), SetMem(Val(s.stored), ByInit, false)) else Finish(th)
  }

  function PlanDl(s: State, th: Thread, pc: DlPc, c: Choice): Move
    requires Fits(s, th) && th.task.DeleteKey?
  {
    var k := th.task.key;
    match pc
    case DlWantKey => if s.keys[k].deleted then Finish(th) else Goto(th, Dl(DlWantRead))
    case DlWantRead => Goto(th, Dl(DlCompare))
    case DlCompare =>
      if s.keys[k].epoch < Mem(s, th.proc) then Move(th.(task := NoTask, pc := Idle), DropKey(k))
      else if s.keys[k].epoch > Mem(s, th.proc) then Finish(th)
      else Goto(th, Dl(DlSession))
    case DlSession => Goto(th, Dl(DlInner))
    case DlInner => Goto(th, Dl(DlDevice))
    case DlDevice =>
      if c.io then Move(th.(task := NoTask, pc := Idle), DropKey(k)) else Finish(th)
  }

  /** What a thread does in its next step. */
  function Plan(s: State, th: Thread, c: Choice): Move
    requires Fits(s, th)
  {
    match th.pc
    case Idle => PlanIdle(s, th, c)
    case Op(pc) => PlanOp(s, th, pc, c)
    case Rs(pc) => PlanRs(s, th, pc, c)
    case Ro(pc) => PlanRo(s, th, pc, c)
    case Rk(pc) => PlanRk(s, th, pc, c)
    case Gn(pc) => PlanGn(s, th, pc, c)
    case Os(pc) => PlanOs(s, th, pc, c)
    case In(pc) => PlanIn(s, th, pc, c)
    case Dl(pc) => PlanDl(s, th, pc, c)
  }

  predicate EffectFits(s: State, p: nat, eff: Effect) {
    && p < |s.procs|
    && (eff.MoveSession? || eff.StoreBmk? ==> eff.sess < |s.sessions| && s.sessions[eff.sess].proc == p)
    && (eff.MoveKey? || eff.DropKey? ==> eff.key < |s.keys| && s.keys[eff.key].proc == p)
  }

  /** The shared state after thread `t` of process `p` has had effect `eff`. */
  function Apply(s: State, t: nat, p: nat, eff: Effect): State
    requires EffectFits(s, p, eff)
  {
    match eff
    case NoEffect => s
    case EnterArm(snap) => s.(log := s.log + [Entered(t, p, snap)])
    case LeaveArm(snap) => s.(log := s.log + [GaveUp(t, p, snap)])
    case SetMem(e, how, barrier) =>
      s.(procs := s.procs[p := Some(e)], log := s.log + [MemSet(t, p, e, how, barrier)])
    case WriteStore(snap, e, out) =>
      s.(stored := if out.Lost? then s.stored else Some(e), log := s.log + [Wrote(t, p, snap, e, out)])
    case MoveSession(i, e, bmk) =>
      s.(sessions := s.sessions[i := s.sessions[i].(epoch := e)], issued := s.issued + [Issue(i, e, bmk)])
    case StoreBmk(i, bmk) => s.(sessions := s.sessions[i := s.sessions[i].(bmk := bmk)])
    case MoveKey(k, e) =>
      s.(keys := s.keys[k := s.keys[k].(epoch := e, deleted := false)])
    case AddSession(v2, bmk) =>
      s.(sessions := s.sessions + [Session(p, Mem(s, p), v2, bmk)], issued := s.issued + [Issue(|s.sessions|, Mem(s, p), bmk)])
    case AddKey(i) => s.(keys := s.keys + [Key(p, i, Mem(s, p), false)])
    case DropKey(k) => s.(keys := s.keys[k := s.keys[k].(deleted := true)])
  }

  /** The effect of a step is about objects of the thread's own process. */
  predicate StepFitsProcess(s: State, th: Thread, c: Choice)
    requires Fits(s, th)
  {
    EffectFits(s, th.proc, Plan(s, th, c).eff) && Plan(s, th, c).th.proc == th.proc
  }

  lemma RecoveryEffectFits(s: State, th: Thread, c: Choice)
    requires Fits(s, th) && (th.pc.Rs? || th.pc.Ro? || th.pc.Rk?)
    ensures StepFitsProcess(s, th, c)
  {
  }

  lemma OtherEffectFits(s: State, th: Thread, c: Choice)
    requires Fits(s, th) && !(th.pc.Rs? || th.pc.Ro? || th.pc.Rk?)
    ensures StepFitsProcess(s, th, c)
  {
  }

  lemma PlanEffectFits(s: State, th: Thread, c: Choice)
    requires Fits(s, th)
    ensures EffectFits(s, th.proc, Plan(s, th, c).eff) && Plan(s, th, c).th.proc == th.proc
  {
    if th.pc.Rs? || th.pc.Ro? || th.pc.Rk? {
      RecoveryEffectFits(s, th, c);
    } else {
      OtherEffectFits(s, th, c);
    }
  }

  /** One step of thread `t`. */
  function Next(s: State, t: nat, c: Choice): State
    requires t < |s.threads| && Fits(s, s.threads[t])
  {
    var th := s.threads[t];
    PlanEffectFits(s, th, c);
    var m := Plan(s, th, c);
    Apply(s, t, th.proc, m.eff).(threads := s.threads[t := m.th])
  }

  ghost predicate Step(s: State, t: nat, c: Choice, s': State) {
    t < |s.threads| && Fits(s, s.threads[t]) && Ready(s, t) && s' == Next(s, t, c)
  }

  /** Every process is fresh, no session or key exists and every thread is idle. */
  predicate Initial(s: State) {
    && (forall p :: 0 <= p < |s.procs| ==> s.procs[p] == None)
    && s.sessions == [] && s.keys == [] && s.log == [] && s.issued == []
    && (forall t :: 0 <= t < |s.threads| ==>
          && s.threads[t].pc == Idle && s.threads[t].task == NoTask
          && s.threads[t].proc < |s.procs| && s.threads[t].mark == 0)
    && Val(s.stored) <= U64_MAX
  }

  datatype Label = Label(thread: nat, choice: Choice)

  /** `run` is a sequence of states connected by the steps of the schedule `sched`. */
  ghost predicate IsPath(run: seq<State>, sched: seq<Label>) {
    && |run| == |sched| + 1
    && forall i {:trigger sched[i]} :: 0 <= i < |sched| ==> Step(run[i], sched[i].thread, sched[i].choice, run[i + 1])
  }

  /** `run` is a run of the step system under the schedule `sched`. */
  ghost predicate IsRun(run: seq<State>, sched: seq<Label>) {
    IsPath(run, sched) && Initial(run[0])
  }
}
