/**
 One process's partition handle: initialisation, reset and restore, the material they cache for
 the next restore, and the C conversions that establish it (api/lib/src/partition.rs,
 api/lib/src/resiliency.rs, api/native/src/partition.rs).  The step functions give the meaning of
 each call on the partition and its store; the class updates its fields and is proved against them.
 */
module PartitionState {
  import opened Common
  import opened Epoch
  import opened Retry

  /** An open enumeration: only the first two values are meaningful. */
  datatype Source = Caller | Tpm | UnknownSource(code: int)

  datatype ObkConfig = ObkConfig(source: Source, obk: Option<seq<Byte>>, mobk: Option<seq<Byte>>)

  datatype PotaData = PotaData(signature: seq<Byte>, pubKey: seq<Byte>)

  datatype Pota = Pota(source: Source, data: Option<PotaData>)

  // ---- C conversions ----

  /** A non-NULL C buffer: malformed when its pointer is NULL but its length is not 0. */
  datatype CBuffer = Malformed | Bytes(bytes: seq<Byte>)

  datatype CObkConfig = CObkConfig(source: Source, obk: Option<CBuffer>, mobk: Option<CBuffer>)

  datatype CPota = CPota(source: Source, signature: Option<CBuffer>, pubKey: Option<CBuffer>, present: bool)

  function ObkFromC(c: CObkConfig): Result<ObkConfig> {
    match c.source
    case Caller =>
      if c.obk == Some(Malformed) || c.mobk == Some(Malformed) then Err(InvalidArgument)
      else (match (c.obk, c.mobk)
        case (Some(Bytes(b)), None) => if b != [] then Ok(ObkConfig(Caller, Some(b), None)) else Err(InvalidArgument)
        case (None, Some(Bytes(b))) => if b != [] then Ok(ObkConfig(Caller, None, Some(b))) else Err(InvalidArgument)
        case _ => Err(InvalidArgument))
    case Tpm => if c.obk.Some? || c.mobk.Some? then Err(InvalidArgument) else Ok(ObkConfig(Tpm, None, None))
    case UnknownSource(_) => Err(InvalidArgument)
  }

  function NonEmpty(b: Option<CBuffer>): Option<seq<Byte>> {
    match b
    case Some(Bytes(x)) => if x != [] then Some(x) else None
    case _ => None
  }

  function PotaFromC(c: CPota): Result<Pota> {
    match c.source
    case Caller =>
      if !c.present || NonEmpty(c.signature).None? || NonEmpty(c.pubKey).None? then Err(InvalidArgument)
      else Ok(Pota(Caller, Some(PotaData(NonEmpty(c.signature).value, NonEmpty(c.pubKey).value))))
    case Tpm => if c.present then Err(InvalidArgument) else Ok(Pota(Tpm, None))
    case UnknownSource(_) => Err(InvalidArgument)
  }

  // ---- the partition and its store as a value ----

  datatype StoreKey = BmkKey | MukKey | EpochKey

  /** Which callbacks the resiliency configuration carries. */
  datatype Config = Config(potaCallback: bool, mobkCallback: bool)

  datatype ResState = ResState(config: Config, creds: nat, obkSource: Source, pota: Pota, epoch: nat)

  datatype PState = PState(bmk: seq<Byte>, mobk: seq<Byte>, rs: Option<ResState>, files: map<StoreKey, seq<Byte>>)

  datatype InitResult = InitResult(mobk: seq<Byte>, bmk: seq<Byte>, pota: PotaData)

  /** What the calls into the lock and the store come to. */
  datatype Io = Io(lock: bool, readBmk: bool, readMuk: bool, readEpoch: bool, writeBmk: WriteOutcome, writeEpoch: WriteOutcome)

  /** A removal reports success or failure, and the key is gone or not. */
  datatype Removal = Removal(ok: bool, gone: bool)

  predicate ValidConfig(config: Config, pota: Pota, obk: ObkConfig) {
    (pota.source == Caller) == config.potaCallback && (obk.source == Caller) == config.mobkCallback
  }

  function ReadKey(files: map<StoreKey, seq<Byte>>, key: StoreKey, ok: bool): Result<seq<Byte>> {
    if !ok then Err(InternalError) else if key in files then Ok(files[key]) else Err(NotFound)
  }

  function Written(files: map<StoreKey, seq<Byte>>, key: StoreKey, value: seq<Byte>, out: WriteOutcome): map<StoreKey, seq<Byte>> {
    if out.Lost? then files else files[key := value]
  }

  function Removed(files: map<StoreKey, seq<Byte>>, key: StoreKey, out: Removal): map<StoreKey, seq<Byte>> {
    if out.gone then files - {key} else files
  }

  function Reported(out: WriteOutcome): Result<()> {
    if out.Stored? then Ok(()) else Err(InternalError)
  }

  function ReadEpoch(files: map<StoreKey, seq<Byte>>, ok: bool): Result<Option<nat>> {
    DecodeStored(ReadKey(files, EpochKey, ok))
  }

  /** Endorsement bytes are kept for the caller-provided source only. */
  function CachedPota(source: Source, data: PotaData): Pota {
    Pota(source, if source == Caller then Some(data) else None)
  }

  // ---- one raw initialisation of the device (api/lib/src/ddi/partition.rs) ----

  /** Every answer the device, the TPM, the callbacks and the store may give to one attempt. */
  datatype Device = Device(bk3: Result<seq<Byte>>, unseal: Result<seq<Byte>>, callback: Result<PotaData>,
                           tpmSign: Result<PotaData>, prepare: Result<()>, first: Result<seq<Byte>>,
                           second: Result<seq<Byte>>, clearBmk: Removal, clearMuk: Removal, writeBmk: WriteOutcome)

  /** The masked owner backup key of an attempt; a plaintext key is exchanged for it on the device. */
  function GetMobk(obk: ObkConfig, d: Device): Result<seq<Byte>> {
    match obk.source
    case Caller =>
      if obk.obk.Some? == obk.mobk.Some? then Err(InvalidArgument)
      else if obk.mobk.Some? then Ok(obk.mobk.value) else d.bk3
    case Tpm => if obk.obk.Some? then Err(InvalidArgument) else d.unseal
    case UnknownSource(_) => Err(InvalidArgument)
  }

  function GetPota(pota: Pota, config: Option<Config>, reendorse: bool, d: Device): Result<PotaData> {
    match pota.source
    case Caller =>
      if reendorse then (if config.None? || !config.value.potaCallback then Err(InvalidArgument) else d.callback)
      else if pota.data.None? then Err(InvalidArgument)
      else Ok(pota.data.value)
    case Tpm => if pota.data.Some? then Err(InvalidArgument) else d.tpmSign
    case UnknownSource(_) => Err(InvalidArgument)
  }

  /** Establish credentials; stale stored keys are cleared and the exchange is tried once without them. */
  function Establish(files: map<StoreKey, seq<Byte>>, resilient: bool, d: Device): (map<StoreKey, seq<Byte>>, Result<seq<Byte>>) {
    var stale := d.first == Err(MaskedKeyDecodeFailed) && resilient;
    var noBmk := Removed(files, BmkKey, d.clearBmk);
    var noKeys := Removed(noBmk, MukKey, d.clearMuk);
    if stale && !d.clearBmk.ok then (noBmk, Err(InternalError))
    else if stale && !d.clearMuk.ok then (noKeys, Err(InternalError))
    else
      var kept := if stale then noKeys else files;
      var bmk := if stale then d.second else d.first;
      if bmk.Err? || !resilient then (kept, bmk)
      else (Written(kept, BmkKey, bmk.value, d.writeBmk), if d.writeBmk.Stored? then bmk else Err(InternalError))
  }

  /** Where a chain of attempts stands; `derived` counts the plaintext keys the device exchanged. */
  datatype Progress = Progress(files: map<StoreKey, seq<Byte>>, cached: Option<seq<Byte>>, derived: nat)

  /** `init_part_raw_no_res`. */
  function RawInit(at: Progress, obk: ObkConfig, pota: Pota, config: Option<Config>, reendorse: bool, d: Device):
    (Progress, Result<InitResult>)
  {
    var mobk := if at.cached.Some? then Ok(at.cached.value) else GetMobk(obk, d);
    if mobk.Err? then (at, Err(mobk.error))
    else
      var exchanged := at.cached.None? && obk.source == Caller && obk.obk.Some?;
      var at1 := at.(cached := Some(mobk.value), derived := at.derived + if exchanged then 1 else 0);
      var data := GetPota(pota, config, reendorse, d);
      if data.Err? then (at1, Err(data.error))
      else if d.prepare.Err? then (at1, Err(d.prepare.error))
      else
        var (files, bmk) := Establish(at.files, config.Some?, d);
        (at1.(files := files), if bmk.Ok? then Ok(InitResult(mobk.value, bmk.value, data.value)) else Err(bmk.error))
  }

  /** `init_part`: attempts until one succeeds or no more are allowed, whatever the retry policy is. */
  function InitAttempts(at: Progress, obk: ObkConfig, pota: Pota, config: Option<Config>, prev: Option<HsmError>, d: Device,
                        more: seq<Device>): (Progress, Result<InitResult>)
    decreases |more|
  {
    var (at1, r) := RawInit(at, obk, pota, config, prev == Some(EccVerifyFailed), d);
    if r.Ok? || more == [] then (at1, r)
    else InitAttempts(at1, obk, pota, config, Some(r.error), more[0], more[1..])
  }

  // ---- the three calls ----

  /** `PartitionInner::init` once the device has answered. */
  function CommitInit(p: PState, config: Option<Config>, creds: nat, obk: ObkConfig, pota: Pota, res: Result<InitResult>, io: Io):
    (PState, Result<()>)
  {
    if res.Err? && !IsAlreadyEstablished(res.error) then (p, Err(res.error))
    else if res.Err? && config.Some? && !io.readBmk then (p, Err(InternalError))
    else
      var p1 :=
        if res.Ok? then p.(bmk := res.value.bmk, mobk := res.value.mobk)
        else p.(bmk := if config.Some? && BmkKey in p.files then p.files[BmkKey] else []);
      if config.None? then (p1, Ok(()))
      else
        match ReadEpoch(p1.files, io.readEpoch)
        case Err(e) => (p1, Err(e))
        case Ok(stored) =>
          var committed := if res.Ok? then CachedPota(pota.source, res.value.pota) else pota;
          (p1.(rs := Some(ResState(config.value, creds, obk.source, committed, Val(stored)))), Ok(()))
  }

  /** `HsmPartition::init`. */
  function InitStep(p: PState, config: Option<Config>, creds: nat, obk: ObkConfig, pota: Pota, d: Device, more: seq<Device>,
                    io: Io): (PState, Result<()>)
  {
    if config.Some? && !ValidConfig(config.value, pota, obk) then (p, Err(InvalidArgument))
    else if config.Some? && !io.lock then (p, Err(InternalError))
    else
      var (at, res) := InitAttempts(Progress(p.files, None, 0), obk, pota, config, None, d, more);
      CommitInit(p.(files := at.files), config, creds, obk, pota, res, io)
  }

  /** `HsmPartition::reset`: the device is erased and only the backup masking key is forgotten. */
  function ResetStep(p: PState, erased: Result<()>): (PState, Result<()>) {
    if erased.Err? then (p, erased) else (p.(bmk := []), Ok(()))
  }

  /** The owner-backup-key configuration a restore presents to the device. */
  function RestoreObk(mobk: seq<Byte>, rs: ResState, callback: Result<seq<Byte>>): Result<ObkConfig> {
    if rs.obkSource != Caller then Ok(ObkConfig(rs.obkSource, None, None))
    else if mobk != [] then Ok(ObkConfig(Caller, None, Some(mobk)))
    else if !rs.config.mobkCallback then Err(InternalError)
    else match callback
      case Ok(fetched) => Ok(ObkConfig(Caller, None, Some(fetched)))
      case Err(e) => Err(e)
  }

  /** `bump_epoch`: memory moves before the store is written, and stays whatever the store reports. */
  function BumpStep(p: PState, rs: ResState, io: Io): (PState, Result<()>) {
    match ReadEpoch(p.files, io.readEpoch)
    case Err(e) => (p, Err(e))
    case Ok(stored) =>
      var e := Bumped(stored);
      (p.(rs := Some(rs.(epoch := e)), files := Written(p.files, EpochKey, ToLe(e, 8), io.writeEpoch)), Reported(io.writeEpoch))
  }

  /** `sync_epoch_from_storage`. */
  function AdoptStep(p: PState, rs: ResState, io: Io): (PState, Result<()>) {
    match ReadEpoch(p.files, io.readEpoch)
    case Err(e) => (p, Err(e))
    case Ok(stored) =>
      match Synced(rs.epoch, stored)
      case Adopt(e) => (p.(rs := Some(rs.(epoch := e))), Ok(()))
      case Keep => (p, Ok(()))
      case Backwards => (p, Err(InternalError))
  }

  /** The end of a restore, once the device has answered. */
  function CommitRestore(p: PState, rs: ResState, res: Result<InitResult>, io: Io): (PState, Result<()>) {
    match res
    case Err(e) => if IsAlreadyEstablished(e) then AdoptStep(p, rs, io) else (p, Err(e))
    case Ok(r) =>
      var files := Written(p.files, BmkKey, r.bmk, io.writeBmk);
      if !io.writeBmk.Stored? then (p.(files := files), Err(InternalError))
      else
        var rs1 := rs.(pota := CachedPota(rs.pota.source, r.pota));
        BumpStep(PState(r.bmk, r.mobk, Some(rs1), files), rs1, io)
  }

  /** What the device is asked to do by a restore: always a single attempt that re-endorses. */
  function RestoreRaw(files: map<StoreKey, seq<Byte>>, rs: ResState, obk: ObkConfig, d: Device): (Progress, Result<InitResult>) {
    RawInit(Progress(files, None, 0), obk, rs.pota, Some(rs.config), true, d)
  }

  /** `HsmPartition::restore_partition` with the epoch snapshot `snap` taken before the lock. */
  function RestoreStep(p: PState, snap: nat, callback: Result<seq<Byte>>, d: Device, io: Io): (PState, Result<()>) {
    if p.rs.None? then (p, Ok(()))
    else if !io.lock then (p, Err(InternalError))
    else
      var rs := p.rs.value;
      if rs.epoch != snap then (p, Ok(()))
      else if !io.readBmk || !io.readMuk then (p, Err(InternalError))
      else
        match RestoreObk(p.mobk, rs, callback)
        case Err(e) => (p, Err(e))
        case Ok(obk) =>
          var (at, res) := RestoreRaw(p.files, rs, obk, d);
          CommitRestore(p.(files := at.files), rs, res, io)
  }

  // ---- the recovery material over any run ----

  datatype Call =
    | InitCall(config: Option<Config>, creds: nat, cobk: CObkConfig, cpota: CPota, d: Device, more: seq<Device>, io: Io)
    | ResetCall(erased: Result<()>)
    | RestoreCall(snap: nat, callback: Result<seq<Byte>>, d: Device, io: Io)

  /** A call entered through the C interface: a failed conversion leaves the partition alone. */
  function CallStep(p: PState, c: Call): PState {
    match c
    case InitCall(config, creds, cobk, cpota, d, more, io) =>
      if ObkFromC(cobk).Err? || PotaFromC(cpota).Err? then p
      else InitStep(p, config, creds, ObkFromC(cobk).value, PotaFromC(cpota).value, d, more, io).0
    case ResetCall(erased) => ResetStep(p, erased).0
    case RestoreCall(snap, callback, d, io) => RestoreStep(p, snap, callback, d, io).0
  }

  function Calls(p: PState, cs: seq<Call>): PState {
    if cs == [] then p else CallStep(Calls(p, cs[..|cs| - 1]), cs[|cs| - 1])
  }

  predicate Coherent(rs: ResState) {
    && (rs.obkSource == Caller || rs.obkSource == Tpm)
    && (rs.pota.source == Caller || rs.pota.source == Tpm)
    && (rs.pota.data.Some? <==> rs.pota.source == Caller)
    && (rs.config.mobkCallback <==> rs.obkSource == Caller)
    && (rs.config.potaCallback <==> rs.pota.source == Caller)
  }

  predicate Material(p: PState) {
    p.rs.Some? ==> Coherent(p.rs.value)
  }

  /** What the conversions accept: exactly one non-empty key from a caller, none from the TPM. */
  lemma ConversionsAccept(cobk: CObkConfig, cpota: CPota)
    ensures ObkFromC(cobk).Ok? <==>
      || (cobk.source == Tpm && cobk.obk.None? && cobk.mobk.None?)
      || (cobk.source == Caller && cobk.mobk.None? && NonEmpty(cobk.obk).Some?)
      || (cobk.source == Caller && cobk.obk.None? && NonEmpty(cobk.mobk).Some?)
    ensures ObkFromC(cobk).Ok? ==>
      var o := ObkFromC(cobk).value;
      o.source == cobk.source && o.obk == NonEmpty(cobk.obk) && o.mobk == NonEmpty(cobk.mobk)
    ensures PotaFromC(cpota).Ok? <==>
      || (cpota.source == Tpm && !cpota.present)
      || (cpota.source == Caller && cpota.present && NonEmpty(cpota.signature).Some? && NonEmpty(cpota.pubKey).Some?)
    ensures PotaFromC(cpota).Ok? ==>
      PotaFromC(cpota).value.source == cpota.source && (PotaFromC(cpota).value.data.Some? <==> cpota.source == Caller)
  {
  }

  lemma InitKeepsMaterial(p: PState, config: Option<Config>, creds: nat, cobk: CObkConfig, cpota: CPota, res: Result<InitResult>, io: Io)
    requires Material(p) && ObkFromC(cobk).Ok? && PotaFromC(cpota).Ok?
    requires config.Some? ==> ValidConfig(config.value, PotaFromC(cpota).value, ObkFromC(cobk).value)
    ensures Material(CommitInit(p, config, creds, ObkFromC(cobk).value, PotaFromC(cpota).value, res, io).0)
  {
    ConversionsAccept(cobk, cpota);
  }

  /** What a restore leaves alone, and that a caller's masked key, once held, is the one kept. */
  lemma RestoreKeeps(p: PState, snap: nat, callback: Result<seq<Byte>>, d: Device, io: Io)
    requires p.rs.Some?
    ensures
      var q := RestoreStep(p, snap, callback, d, io).0;
      && q.rs.Some? && q.rs.value.obkSource == p.rs.value.obkSource && q.rs.value.creds == p.rs.value.creds
      && q.rs.value.pota.source == p.rs.value.pota.source && q.rs.value.config == p.rs.value.config
      && (Material(p) ==> Material(q))
      && (p.rs.value.obkSource == Caller && p.mobk != [] ==> q.mobk == p.mobk)
  {
    var rs := p.rs.value;
    var obk := RestoreObk(p.mobk, rs, callback);
    if obk.Ok? {
      var (at, res) := RestoreRaw(p.files, rs, obk.value, d);
      assert obk.value.source == Caller && res.Ok? ==> res.value.mobk == obk.value.mobk.value;
    }
  }

  lemma CallKeepsMaterial(p: PState, c: Call)
    requires Material(p)
    ensures Material(CallStep(p, c))
  {
    match c
    case InitCall(config, creds, cobk, cpota, d, more, io) =>
      if ObkFromC(cobk).Ok? && PotaFromC(cpota).Ok? {
        var obk, pota := ObkFromC(cobk).value, PotaFromC(cpota).value;
        if config.Some? ==> ValidConfig(config.value, pota, obk) {
          var (at, res) := InitAttempts(Progress(p.files, None, 0), obk, pota, config, None, d, more);
          InitKeepsMaterial(p.(files := at.files), config, creds, cobk, cpota, res, io);
        }
      }
    case ResetCall(_) =>
    case RestoreCall(snap, callback, d, io) =>
      if p.rs.Some? {
        RestoreKeeps(p, snap, callback, d, io);
      }
  }

  /** Over any run of calls through the C interface the cached material stays coherent. */
  lemma {:induction false} RunKeepsMaterial(p: PState, cs: seq<Call>)
    requires p.rs.None?
    ensures Material(Calls(p, cs))
  {
    if cs != [] {
      RunKeepsMaterial(p, cs[..|cs| - 1]);
      CallKeepsMaterial(Calls(p, cs[..|cs| - 1]), cs[|cs| - 1]);
    }
  }

  /**
   Between two initialisations, however many resets and restores succeed or fail, the credentials,
   sources and callbacks stay as initialised, and so does a caller's masked owner backup key.
   */
  lemma {:induction false} RunKeepsSources(p: PState, cs: seq<Call>)
    requires p.rs.Some? && forall c <- cs :: !c.InitCall?
    ensures
      var q := Calls(p, cs);
      && q.rs.Some? && q.rs.value.obkSource == p.rs.value.obkSource && q.rs.value.creds == p.rs.value.creds
      && q.rs.value.pota.source == p.rs.value.pota.source && q.rs.value.config == p.rs.value.config
      && (p.rs.value.obkSource == Caller && p.mobk != [] ==> q.mobk == p.mobk)
  {
    if cs != [] {
      var before, c := Calls(p, cs[..|cs| - 1]), cs[|cs| - 1];
      RunKeepsSources(p, cs[..|cs| - 1]);
      if c.RestoreCall? {
        RestoreKeeps(before, c.snap, c.callback, c.d, c.io);
      }
    }
  }

  /**
   With coherent material a restore is never refused for its arguments.  It presents no plaintext
   owner backup key, so no key is exchanged; the cached masked key is presented as it is; and each
   failure to gather the material is the answer of the callback or of the TPM.
   */
  lemma RestoreGathersMaterial(p: PState, callback: Result<seq<Byte>>, d: Device)
    requires p.rs.Some? && Material(p)
    ensures
      var rs := p.rs.value;
      match RestoreObk(p.mobk, rs, callback)
      case Err(e) => rs.obkSource == Caller && p.mobk == [] && callback == Err(e)
      case Ok(obk) =>
        && obk.obk == None
        && GetMobk(obk, d) == (if rs.obkSource == Tpm then d.unseal else if p.mobk != [] then Ok(p.mobk) else callback)
        && GetPota(rs.pota, Some(rs.config), true, d) == (if rs.pota.source == Tpm then d.tpmSign else d.callback)
        && RestoreRaw(p.files, rs, obk, d).0.derived == 0
  {
  }

  /** However often an initialisation retries, the device exchanges the plaintext key at most once. */
  lemma {:induction false} OneExchange(at: Progress, obk: ObkConfig, pota: Pota, config: Option<Config>, prev: Option<HsmError>,
                                       d: Device, more: seq<Device>)
    ensures
      var (end, r) := InitAttempts(at, obk, pota, config, prev, d, more);
      && end.derived <= at.derived + (if at.cached.None? then 1 else 0)
      && (at.cached.Some? ==> end.cached == at.cached && (r.Ok? ==> r.value.mobk == at.cached.value))
    decreases |more|
  {
    var (at1, r) := RawInit(at, obk, pota, config, prev == Some(EccVerifyFailed), d);
    if r.Err? && more != [] {
      OneExchange(at1, obk, pota, config, Some(r.error), more[0], more[1..]);
    }
  }

  // ---- epochs of a restore ----

  function StoredEpoch(files: map<StoreKey, seq<Byte>>): Option<nat> {
    match ReadEpoch(files, true)
    case Ok(e) => e
    case Err(_) => None
  }

  /** The store holds either no epoch or a well-formed one. */
  predicate EpochReadable(files: map<StoreKey, seq<Byte>>) {
    EpochKey in files ==> |files[EpochKey]| == 8
  }

  lemma BumpedEncodes(stored: Option<nat>)
    ensures |ToLe(Bumped(stored), 8)| == 8 && DecodeStored(Ok(ToLe(Bumped(stored), 8))) == Ok(Some(Bumped(stored)))
  {
    StoredEpochRoundTrip(Bumped(stored), []);
    ToLeLength(Bumped(stored), 8);
  }

  lemma {:induction false} ToLeLength(v: nat, n: nat)
    ensures |ToLe(v, n)| == n
  {
    if n > 0 {
      ToLeLength(v / 256, n - 1);
    }
  }

  /** The device layer rewrites the stored keys but never the stored epoch. */
  lemma RawKeepsEpoch(at: Progress, obk: ObkConfig, pota: Pota, config: Option<Config>, reendorse: bool, d: Device)
    ensures
      var files := RawInit(at, obk, pota, config, reendorse, d).0.files;
      StoredEpoch(files) == StoredEpoch(at.files) && EpochReadable(files) == EpochReadable(at.files)
  {
  }

  /** The success arm got as far as moving memory. */
  predicate Bumps(res: Result<InitResult>, io: Io) {
    res.Ok? && io.writeBmk.Stored? && io.readEpoch
  }

  /** The device was already established and the stored epoch could be read. */
  predicate Syncs(res: Result<InitResult>, io: Io) {
    res.Err? && IsAlreadyEstablished(res.error) && io.readEpoch
  }

  /**
   What the end of a restore does to the two epochs, for every answer of the device and the store.
   Memory moves to one above the stored value exactly in the success arm after the masking key was
   written and the epoch read, and the store follows exactly when the write was published, whatever
   it reported; an established device makes memory adopt a later stored epoch; and success is
   reported exactly when nothing failed and memory was not ahead.
   */
  lemma RestoreEpochs(p: PState, rs: ResState, res: Result<InitResult>, io: Io)
    requires EpochReadable(p.files) && p.rs == Some(rs)
    ensures
      var (q, r) := CommitRestore(p, rs, res, io);
      var stored := StoredEpoch(p.files);
      && EpochReadable(q.files) && q.rs.Some?
      && StoredEpoch(q.files) == (if Bumps(res, io) && !io.writeEpoch.Lost? then Some(Bumped(stored)) else stored)
      && q.rs.value.epoch == (if Bumps(res, io) then Bumped(stored)
                              else if Syncs(res, io) && Val(stored) > rs.epoch then Val(stored)
                              else rs.epoch)
      && (r.Ok? <==> (Bumps(res, io) && io.writeEpoch.Stored?) || (Syncs(res, io) && (stored == None || rs.epoch <= Val(stored))))
  {
    BumpedEncodes(StoredEpoch(p.files));
  }

  /** Memory is ahead of the store. */
  predicate Ahead(p: PState) {
    p.rs.Some? && p.rs.value.epoch > Val(StoredEpoch(p.files))
  }

  /**
   The documentation says the stored epoch is never behind the one in memory.  The end of a restore
   puts it behind exactly when the epoch write was lost below saturation.
   */
  lemma AheadIffWriteLost(p: PState, rs: ResState, res: Result<InitResult>, io: Io)
    requires EpochReadable(p.files) && p.rs == Some(rs) && !Ahead(p)
    ensures Ahead(CommitRestore(p, rs, res, io).0)
      <==> Bumps(res, io) && io.writeEpoch.Lost? && Val(StoredEpoch(p.files)) < U64_MAX
  {
    RestoreEpochs(p, rs, res, io);
  }

  /**
   A restore whose last write reports an error has moved memory.  A re-initialisation then moves
   memory back, below the epoch a session may already have been reopened to, exactly when the
   write was lost; a write that was published although it failed leaves the two epochs equal.
   */
  lemma FailedWriteThenReinit(p: PState, rs: ResState, first: InitResult, again: InitResult, out: WriteOutcome, obk: ObkConfig, pota: Pota)
    requires EpochReadable(p.files) && p.rs == Some(rs) && StoredEpoch(p.files) == Some(rs.epoch) && rs.epoch < U64_MAX
    requires !out.Stored?
    ensures
      var io := Io(true, true, true, true, Stored, out);
      var (q, r) := CommitRestore(p, rs, Ok(first), io);
      var (q2, r2) := CommitInit(q, Some(rs.config), rs.creds, obk, pota, Ok(again), io);
      && r.Err? && q.rs.value.epoch == rs.epoch + 1 && r2.Ok?
      && q2.rs.value.epoch == (if out.Lost? then rs.epoch else rs.epoch + 1)
  {
    RestoreEpochs(p, rs, Ok(first), Io(true, true, true, true, Stored, out));
  }

  // ---- the handle itself ----

  class Partition {
    var bmk: seq<Byte>
    var mobk: seq<Byte>
    var rs: Option<ResState>
    var files: map<StoreKey, seq<Byte>>

    ghost function State(): PState
      reads this
    {
      PState(bmk, mobk, rs, files)
    }

    constructor (store: map<StoreKey, seq<Byte>>)
      ensures State() == PState([], [], None, store)
    {
      bmk, mobk, rs, files := [], [], None, store;
    }

    /** A write to the store: the value is there unless it was lost, and only `Stored` reports success. */
    method WriteKey(key: StoreKey, value: seq<Byte>, out: WriteOutcome) returns (r: Result<()>)
      modifies `files
      ensures files == Written(old(files), key, value, out) && r == Reported(out)
    {
      if !out.Lost? {
        files := files[key := value];
      }
      return if out.Stored? then Ok(()) else Err(InternalError);
    }

    method PersistBmk(value: seq<Byte>, io: Io) returns (r: Result<()>)
      modifies `files
      ensures r == if rs.None? then Ok(()) else Reported(io.writeBmk)
      ensures files == if rs.None? then old(files) else Written(old(files), BmkKey, value, io.writeBmk)
    {
      if rs.Some? {
        r := WriteKey(BmkKey, value, io.writeBmk);
        return;
      }
      return Ok(());
    }

    method UpdateCachedPota(data: PotaData)
      modifies `rs
      ensures old(rs).None? ==> rs.None?
      ensures old(rs).Some? ==> rs == Some(old(rs).value.(pota := CachedPota(old(rs).value.pota.source, data)))
    {
      if rs.Some? {
        var source := rs.value.pota.source;
        var endorsement := if source == Caller then Some(data) else None;
        rs := Some(rs.value.(pota := Pota(source, endorsement)));
      }
    }

    method BumpEpoch(io: Io) returns (r: Result<()>)
      requires rs.Some?
      modifies `rs, `files
      ensures (State(), r) == BumpStep(old(State()), old(rs).value, io)
    {
      match ReadEpoch(files, io.readEpoch) {
        case Err(e) =>
          return Err(e);
        case Ok(stored) =>
          var e := Bumped(stored);
          rs := Some(rs.value.(epoch := e));
          r := WriteKey(EpochKey, ToLe(e, 8), io.writeEpoch);
      }
    }

    method SyncEpoch(io: Io) returns (r: Result<()>)
      requires rs.Some?
      modifies `rs
      ensures (State(), r) == AdoptStep(old(State()), old(rs).value, io)
    {
      match ReadEpoch(files, io.readEpoch) {
        case Err(e) =>
          return Err(e);
        case Ok(None) =>
          return Ok(());
        case Ok(Some(storage)) =>
          if storage > rs.value.epoch {
            rs := Some(rs.value.(epoch := storage));
          } else if storage < rs.value.epoch {
            return Err(InternalError);
          }
          return Ok(());
      }
    }

    method Reset(erased: Result<()>) returns (r: Result<()>)
      modifies `bmk
      ensures (State(), r) == ResetStep(old(State()), erased)
    {
      if erased.Err? {
        return erased;
      }
      bmk := [];
      return Ok(());
    }

    method Init(config: Option<Config>, creds: nat, obk: ObkConfig, pota: Pota, d: Device, more: seq<Device>, io: Io)
      returns (r: Result<()>)
      modifies this
      ensures (State(), r) == InitStep(old(State()), config, creds, obk, pota, d, more, io)
    {
      if config.Some? {
        if (pota.source == Caller) != config.value.potaCallback {
          return Err(InvalidArgument);
        }
        if (obk.source == Caller) != config.value.mobkCallback {
          return Err(InvalidArgument);
        }
        if !io.lock {
          return Err(InternalError);
        }
      }
      var (at, res) := InitAttempts(Progress(files, None, 0), obk, pota, config, None, d, more);
      files := at.files;
      r := Commit(config, creds, obk, pota, res, io);
    }

    method Commit(config: Option<Config>, creds: nat, obk: ObkConfig, pota: Pota, res: Result<InitResult>, io: Io)
      returns (r: Result<()>)
      modifies this
      ensures (State(), r) == CommitInit(old(State()), config, creds, obk, pota, res, io)
    {
      var initBmk, committed;
      match res {
        case Ok(result) =>
          mobk := result.mobk;
          initBmk, committed := result.bmk, CachedPota(pota.source, result.pota);
        case Err(e) =>
          if !IsAlreadyEstablished(e) {
            return Err(e);
          }
          if config.Some? && !io.readBmk {
            return Err(InternalError);
          }
          initBmk, committed := if config.Some? && BmkKey in files then files[BmkKey] else [], pota;
      }
      bmk := initBmk;
      if config.Some? {
        match ReadEpoch(files, io.readEpoch) {
          case Err(e) =>
            return Err(e);
          case Ok(stored) =>
            rs := Some(ResState(config.value, creds, obk.source, committed, Val(stored)));
        }
      }
      return Ok(());
    }

    method Restore(snap: nat, callback: Result<seq<Byte>>, d: Device, io: Io) returns (r: Result<()>)
      modifies this
      ensures (State(), r) == RestoreStep(old(State()), snap, callback, d, io)
    {
      if rs.None? {
        return Ok(());
      }
      if !io.lock {
        return Err(InternalError);
      }
      if rs.value.epoch != snap {
        return Ok(());
      }
      if !io.readBmk || !io.readMuk {
        return Err(InternalError);
      }
      var key := ObkConfig(rs.value.obkSource, None, None);
      if rs.value.obkSource == Caller {
        if mobk != [] {
          key := ObkConfig(Caller, None, Some(mobk));
        } else {
          if !rs.value.config.mobkCallback {
            return Err(InternalError);
          }
          if callback.Err? {
            return Err(callback.error);
          }
          key := ObkConfig(Caller, None, Some(callback.value));
        }
      }
      var (at, res) := RestoreRaw(files, rs.value, key, d);
      files := at.files;
      r := Apply(res, io);
    }

    method Apply(res: Result<InitResult>, io: Io) returns (r: Result<()>)
      requires rs.Some?
      modifies this
      ensures (State(), r) == CommitRestore(old(State()), old(rs).value, res, io)
    {
      match res {
        case Ok(result) =>
          r := PersistBmk(result.bmk, io);
          if r.Err? {
            return;
          }
          bmk, mobk := result.bmk, result.mobk;
          UpdateCachedPota(result.pota);
          r := BumpEpoch(io);
        case Err(e) =>
          if !IsAlreadyEstablished(e) {
            return Err(e);
          }
          r := SyncEpoch(io);
      }
    }
  }
}
