/**
 Caller-provided output buffers at the C boundary (api/native/src/utils.rs, api/native/src/lib.rs)
 and the entry points that validate, run one command and copy its results out
 (api/native/src/sd.rs, api/native/src/session_ex.rs).
 */
module OutputBuffers {
  import opened Common

  // ---- the verdict on a set of buffers ----

  /** What the checks see of a buffer: whether it has storage, and the length it claims. */
  datatype Shape = Shape(present: bool, len: nat)

  /** `required as u32`. */
  function AsU32(n: nat): nat {
    if n <= U32_MAX then n else AsU32(n - U32_MAX - 1)
  }

  predicate Malformed(s: Shape) {
    !s.present && s.len != 0
  }

  predicate Small(s: Shape, required: nat) {
    s.len < AsU32(required)
  }

  /** The verdict on one buffer. */
  function Single(s: Shape, required: nat): Result<()> {
    if Malformed(s) then Err(InvalidArgument) else if Small(s, required) then Err(BufferTooSmall) else Ok(())
  }

  predicate AnyMalformed(shapes: seq<Shape>) {
    exists i :: 0 <= i < |shapes| && Malformed(shapes[i])
  }

  predicate AnySmall(shapes: seq<Shape>, required: seq<nat>)
    requires |required| == |shapes|
  {
    exists i :: 0 <= i < |shapes| && Small(shapes[i], required[i])
  }

  /** A malformed buffer outranks a small one wherever the two stand. */
  function Verdict(shapes: seq<Shape>, required: seq<nat>): Result<()>
    requires |required| == |shapes|
  {
    if AnyMalformed(shapes) then Err(InvalidArgument)
    else if AnySmall(shapes, required) then Err(BufferTooSmall)
    else Ok(())
  }

  /** The shapes a probe leaves behind when the verdict is that some buffer is too small. */
  function Advertised(shapes: seq<Shape>, required: seq<nat>): (r: seq<Shape>)
    requires |required| == |shapes|
    ensures |r| == |shapes| && forall i | 0 <= i < |r| :: r[i] == Shape(shapes[i].present, AsU32(required[i]))
  {
    seq(|shapes|, i requires 0 <= i < |shapes| => Shape(shapes[i].present, AsU32(required[i])))
  }

  /** One probe advertises every capacity: a retry with storage of those lengths passes. */
  lemma RetryPasses(shapes: seq<Shape>, required: seq<nat>, retry: seq<Shape>)
    requires |required| == |shapes| == |retry| && Verdict(shapes, required) == Err(BufferTooSmall)
    requires forall i | 0 <= i < |retry| :: retry[i].present && retry[i].len >= Advertised(shapes, required)[i].len
    ensures Verdict(retry, required) == Ok(())
  {
    forall i | 0 <= i < |retry|
      ensures !Malformed(retry[i]) && !Small(retry[i], required[i])
    {
      assert Advertised(shapes, required)[i].len == AsU32(required[i]);
    }
  }

  /**
   Calling again with the very same structs passes exactly when none of them lacks storage it
   needs; a size probe with NULL storage turns into an invalid argument.
   */
  lemma SameStructsPassIff(shapes: seq<Shape>, required: seq<nat>)
    requires |required| == |shapes| && Verdict(shapes, required) == Err(BufferTooSmall)
    ensures Verdict(Advertised(shapes, required), required)
      == if forall i | 0 <= i < |shapes| :: shapes[i].present || AsU32(required[i]) == 0 then Ok(()) else Err(InvalidArgument)
  {
    var now := Advertised(shapes, required);
    assert !AnySmall(now, required) by {
      forall i | 0 <= i < |now|
        ensures !Small(now[i], required[i])
      {
      }
    }
    if i :| 0 <= i < |shapes| && !(shapes[i].present || AsU32(required[i]) == 0) {
      assert Malformed(now[i]);
    }
  }

  // ---- buffers ----

  /** A C output buffer; `ptr` is null or storage of the caller's. */
  class Buffer {
    var ptr: array?<Byte>
    var len: nat

    constructor (ptr: array?<Byte>, len: nat)
      ensures this.ptr == ptr && this.len == len
    {
      this.ptr, this.len := ptr, len;
    }

    function View(): Shape
      reads this
    {
      Shape(ptr != null, len)
    }

    /** The caller's promise: storage holds at least the bytes it claims. */
    predicate Backed()
      reads this
    {
      ptr != null ==> len <= ptr.Length
    }
  }

  function Views(bufs: seq<Buffer>): (r: seq<Shape>)
    reads bufs
    ensures |r| == |bufs| && forall i | 0 <= i < |bufs| :: r[i] == bufs[i].View()
  {
    seq(|bufs|, i requires 0 <= i < |bufs| reads bufs => bufs[i].View())
  }

  predicate Distinct(bufs: seq<Buffer>) {
    forall i, j | 0 <= i < j < |bufs| :: bufs[i] != bufs[j]
  }

  method ValidateOutputBuffer(buf: Buffer, required: nat) returns (r: Result<()>)
    modifies buf`len
    ensures r == Single(old(buf.View()), required)
    ensures buf.len == if r == Err(BufferTooSmall) then AsU32(required) else old(buf.len)
  {
    if buf.ptr == null && buf.len != 0 {
      return Err(InvalidArgument);
    }
    if buf.len < AsU32(required) {
      buf.len := AsU32(required);
      return Err(BufferTooSmall);
    }
    return Ok(());
  }

  /** Pointers to buffer structs; `null` also stands for a misaligned pointer. */
  method ValidateDistinctOutputBuffers(ptrs: seq<Buffer?>) returns (r: Result<()>)
    ensures r.Ok? <==> null !in ptrs && forall i, j | 0 <= i < j < |ptrs| :: ptrs[i] != ptrs[j]
    ensures r.Err? ==> r == Err(InvalidArgument)
  {
    for i := 0 to |ptrs|
      invariant null !in ptrs[..i]
      invariant forall j, k | 0 <= j < k < i :: ptrs[j] != ptrs[k]
    {
      if ptrs[i] == null || ptrs[i] in ptrs[..i] {
        return Err(InvalidArgument);
      }
      assert ptrs[..i + 1] == ptrs[..i] + [ptrs[i]];
    }
    assert ptrs[..|ptrs|] == ptrs;
    return Ok(());
  }

  /** The lengths an early return leaves behind: only buffers found too small have been rewritten. */
  predicate OnlySmallRewritten(was: seq<Shape>, now: seq<Shape>, required: seq<nat>)
    requires |was| == |now| == |required|
  {
    forall i | 0 <= i < |was| ::
      now[i] == was[i] || (Small(was[i], required[i]) && now[i] == Shape(was[i].present, AsU32(required[i])))
  }

  /** The first loop: stop at the first malformed buffer, and note whether one is too small. */
  method CheckEach(bufs: seq<Buffer>, required: seq<nat>) returns (malformed: bool, tooSmall: bool)
    requires |required| == |bufs| && Distinct(bufs)
    modifies bufs`len
    ensures malformed <==> AnyMalformed(old(Views(bufs)))
    ensures !malformed ==> (tooSmall <==> AnySmall(old(Views(bufs)), required))
    ensures OnlySmallRewritten(old(Views(bufs)), Views(bufs), required)
    ensures !malformed && !tooSmall ==> Views(bufs) == old(Views(bufs))
  {
    ghost var was := Views(bufs);
    malformed, tooSmall := false, false;
    for i := 0 to |bufs|
      invariant !malformed && forall j | 0 <= j < i :: !Malformed(was[j])
      invariant tooSmall <==> exists j :: 0 <= j < i && Small(was[j], required[j])
      invariant forall j | i <= j < |bufs| :: bufs[j].View() == was[j]
      invariant forall j | 0 <= j < i :: bufs[j].View() == Settled(was[j], required[j])
    {
      assert bufs[i].View() == was[i];
      var one := ValidateOutputBuffer(bufs[i], required[i]);
      if one == Err(InvalidArgument) {
        malformed := true;
        return;
      }
      if one == Err(BufferTooSmall) {
        tooSmall := true;
      }
    }
  }

  /** What a single well-formed buffer looks like after its own check. */
  function Settled(s: Shape, required: nat): Shape {
    if Small(s, required) then Shape(s.present, AsU32(required)) else s
  }

  /** The second loop. */
  method AdvertiseAll(bufs: seq<Buffer>, required: seq<nat>)
    requires |required| == |bufs|  && Distinct(bufs)
    modifies bufs`len
    ensures Views(bufs) == Advertised(old(Views(bufs)), required)
  {
    for i := 0 to |bufs|
      invariant forall j | 0 <= j < i :: bufs[j].len == AsU32(required[j])
    {
      bufs[i].len := AsU32(required[i]);
    }
  }

  method ValidateOutputSizes(bufs: seq<Buffer>, required: seq<nat>) returns (r: Result<()>)
    requires |required| == |bufs| && Distinct(bufs)
    modifies bufs`len
    ensures r == Verdict(old(Views(bufs)), required)
    ensures r.Ok? ==> Views(bufs) == old(Views(bufs))
    ensures r == Err(BufferTooSmall) ==> Views(bufs) == Advertised(old(Views(bufs)), required)
    ensures r == Err(InvalidArgument) ==> OnlySmallRewritten(old(Views(bufs)), Views(bufs), required)
  {
    ghost var was := Views(bufs);
    var malformed, tooSmall := CheckEach(bufs, required);
    if malformed {
      return Err(InvalidArgument);
    }
    if tooSmall {
      AdvertiseAll(bufs, required);
      assert Views(bufs) == Advertised(was, required);
      return Err(BufferTooSmall);
    }
    return Ok(());
  }

  /** The two-buffer probe written out by hand for the provisioning call. */
  method ProbeTwo(a: Buffer, b: Buffer, needA: nat, needB: nat) returns (r: Result<()>)
    requires a != b
    modifies a`len, b`len
    ensures r == if a.ptr != null && a.ptr == b.ptr then Err(InvalidArgument) else Verdict(old(Views([a, b])), [needA, needB])
    ensures r.Ok? ==> Views([a, b]) == old(Views([a, b]))
    ensures r == Err(BufferTooSmall) ==> Views([a, b]) == Advertised(old(Views([a, b])), [needA, needB])
  {
    ghost var was := Views([a, b]);
    assert was == [a.View(), b.View()];
    PairVerdict(a.View(), b.View(), needA, needB);
    if a.ptr != null && a.ptr == b.ptr {
      return Err(InvalidArgument);
    }
    var first := ValidateOutputBuffer(a, needA);
    var second := ValidateOutputBuffer(b, needB);
    if first == Err(InvalidArgument) || second == Err(InvalidArgument) {
      return Err(InvalidArgument);
    }
    if first == Err(BufferTooSmall) || second == Err(BufferTooSmall) {
      a.len := AsU32(needA);
      b.len := AsU32(needB);
      assert Views([a, b]) == [a.View(), b.View()];
      return Err(BufferTooSmall);
    }
    assert Views([a, b]) == [a.View(), b.View()];
    return Ok(());
  }

  lemma PairVerdict(a: Shape, b: Shape, needA: nat, needB: nat)
    ensures Verdict([a, b], [needA, needB]) ==
      if Malformed(a) || Malformed(b) then Err(InvalidArgument)
      else if Small(a, needA) || Small(b, needB) then Err(BufferTooSmall)
      else Ok(())
  {
    var shapes, needs := [a, b], [needA, needB];
    assert shapes[0] == a && shapes[1] == b && needs[0] == needA && needs[1] == needB;
  }

  method CopyToBuffer(buf: Buffer, bytes: seq<Byte>) returns (r: Result<()>)
    requires buf.Backed() && |bytes| <= U32_MAX
    modifies buf`len, if buf.ptr != null then {buf.ptr} else {}
    ensures r == Single(old(buf.View()), |bytes|)
    ensures r.Ok? ==> buf.len == |bytes| && (buf.ptr == null ==> bytes == [])
    ensures r.Ok? && buf.ptr != null ==>
      && |bytes| <= buf.ptr.Length && buf.ptr[..|bytes|] == bytes
      && buf.ptr[|bytes|..] == old(buf.ptr[|bytes|..])
    ensures r.Err? && buf.ptr != null ==> buf.ptr[..] == old(buf.ptr[..])
  {
    r := ValidateOutputBuffer(buf, |bytes|);
    if r.Err? {
      return;
    }
    if buf.ptr != null {
      var storage := buf.ptr;
      forall k | 0 <= k < |bytes| {
        storage[k] := bytes[k];
      }
    }
    buf.len := |bytes|;
  }

  // ---- certificate chains ----

  const EVIDENCE_CHAIN_MAX_CERTS: nat := 8

  /** A C input buffer as bytes; `None` when its pointer is NULL. */
  datatype InBuffer = InBuffer(bytes: Option<seq<Byte>>, len: nat)

  predicate Readable(b: InBuffer) {
    b.bytes.None? ==> b.len == 0
  }

  function Contents(b: InBuffer): seq<Byte> {
    if b.bytes.Some? then b.bytes.value else []
  }

  /** `certs` is `None` for a NULL array; otherwise it holds the `len` buffers the caller promises. */
  method UnpackCertChain(certs: Option<seq<InBuffer>>, len: nat) returns (r: Result<seq<seq<Byte>>>)
    requires certs.Some? ==> |certs.value| == len
    ensures r.Ok? <==> 1 <= len <= EVIDENCE_CHAIN_MAX_CERTS && certs.Some? && forall b <- certs.value :: Readable(b)
    ensures r.Ok? ==> |r.value| == len && forall i | 0 <= i < len :: r.value[i] == Contents(certs.value[i])
    ensures r.Err? ==> r.error == InvalidArgument
  {
    if len == 0 || len > EVIDENCE_CHAIN_MAX_CERTS || certs.None? {
      return Err(InvalidArgument);
    }
    var out := [];
    for i := 0 to len
      invariant |out| == i
      invariant forall j | 0 <= j < i :: Readable(certs.value[j]) && out[j] == Contents(certs.value[j])
    {
      if certs.value[i].bytes.None? && certs.value[i].len != 0 {
        assert certs.value[i] in certs.value;
        return Err(InvalidArgument);
      }
      out := out + [Contents(certs.value[i])];
    }
    return Ok(out);
  }
}
