/**
 The restore-epoch arithmetic: how the persisted epoch is encoded, bumped and adopted
 (api/lib/src/resiliency.rs, api/lib/src/partition.rs).
 */
module Epoch {
  import opened Common

  /**
   How the store answered a write.  A write may report an error although the value was published:
   the store's last sync comes after its rename.
   */
  datatype WriteOutcome = Stored | StoredButFailed | Lost

  /** The stored epoch, with a missing `azihsm_epoch` key read as 0. */
  function Val(stored: Option<nat>): nat {
    if stored.Some? then stored.value else 0
  }

  /** The epoch a successful restore moves to: one above the stored value, saturating at `u64::MAX`. */
  function Bumped(stored: Option<nat>): nat {
    if Val(stored) >= U64_MAX then U64_MAX else Val(stored) + 1
  }

  /** What a process does with its in-memory epoch when the device says it is already established. */
  datatype SyncStep = Adopt(epoch: nat) | Keep | Backwards

  function Synced(mem: nat, stored: Option<nat>): SyncStep {
    match stored
    case None => Keep
    case Some(e) => if e > mem then Adopt(e) else if e < mem then Backwards else Keep
  }

  // ---- little-endian codec of the stored value ----

  function ToLe(v: nat, n: nat): seq<Byte> {
    if n == 0 then [] else [v % 256] + ToLe(v / 256, n - 1)
  }

  function FromLe(bytes: seq<Byte>): nat {
    if bytes == [] then 0 else bytes[0] + 256 * FromLe(bytes[1..])
  }

  function Pow256(n: nat): nat {
    if n == 0 then 1 else 256 * Pow256(n - 1)
  }

  /** `read_epoch`: a missing key is `None`; a value that is not exactly eight bytes is an error. */
  function DecodeStored(raw: Result<seq<Byte>>): Result<Option<nat>> {
    match raw
    case Ok(b) => if |b| == 8 then Ok(Some(FromLe(b))) else Err(InternalError)
    case Err(NotFound) => Ok(None)
    case Err(e) => Err(e)
  }

  lemma {:induction false} ToLeRoundTrip(v: nat, n: nat)
    requires v < Pow256(n)
    ensures |ToLe(v, n)| == n && FromLe(ToLe(v, n)) == v
  {
    if n > 0 {
      ToLeRoundTrip(v / 256, n - 1);
      assert ToLe(v, n)[1..] == ToLe(v / 256, n - 1);
    }
  }

  lemma {:induction false} FromLeRoundTrip(b: seq<Byte>)
    ensures FromLe(b) < Pow256(|b|) && ToLe(FromLe(b), |b|) == b
  {
    if b != [] {
      FromLeRoundTrip(b[1..]);
      assert b == [b[0]] + b[1..];
    }
  }

  /**
   Writing an epoch and reading it back gives that epoch, and a stored value decodes to an
   epoch exactly when it is the eight-byte encoding of one.
   */
  lemma StoredEpochRoundTrip(v: nat, b: seq<Byte>)
    requires v <= U64_MAX
    ensures DecodeStored(Ok(ToLe(v, 8))) == Ok(Some(v))
    ensures DecodeStored(Ok(b)).Ok? <==> exists e: nat :: e <= U64_MAX && b == ToLe(e, 8)
  {
    assert Pow256(8) == U64_MAX + 1 by {
      assert Pow256(2) == 0x1_0000;
      assert Pow256(4) == 0x1_0000_0000;
      assert Pow256(6) == 0x1_0000_0000_0000;
    }
    ToLeRoundTrip(v, 8);
    if |b| == 8 {
      FromLeRoundTrip(b);
    }
    forall e: nat | e <= U64_MAX && b == ToLe(e, 8) ensures |b| == 8 {
      ToLeRoundTrip(e, 8);
    }
  }
}
