/**
 In-place surgery on a TBSCertificate (crates/tbor_test_harness/src/x509_fixture.rs): removing one
 extension with its three enclosing lengths, and the two KeyUsage mutations.  A certificate body is
 printed from its parts; the code works on the bytes and is proved to give the bytes of the edited
 parts (section 4.1 of RFC 5280).
 */
module Tbs {
  import opened Common
  import opened Der

  // ---- what the code does to the bytes ----

  /** Walk the TLVs from `idx` to the first with tag `[3]`. */
  function Walk(data: seq<Byte>, idx: nat, end: nat): Option<nat>
    decreases end - idx
  {
    if idx >= end || idx >= |data| then None
    else
      match LenAt(data, idx + 1)
      case None => None
      case Some((len, width)) =>
        if data[idx] == 0xA3 then Some(idx)
        else if idx + 1 + width + len >= WORD then None
        else Walk(data, idx + 1 + width + len, end)
  }

  /** The SEQUENCE inside the `[3]` field at `a3`. */
  function InnerOf(data: seq<Byte>, a3: nat): Option<nat> {
    match LenAt(data, a3 + 1)
    case None => None
    case Some((_, width)) =>
      var inner := a3 + 1 + width;
      if inner >= |data| || data[inner] != 0x30 then None else Some(inner)
  }

  /** The `[3]` field of the TBS SEQUENCE. */
  function Find(data: seq<Byte>): Option<nat> {
    if data == [] || data[0] != 0x30 then None
    else
      match LenAt(data, 1)
      case None => None
      case Some((len, width)) => if 1 + width + len >= WORD then None else Walk(data, 1 + width, 1 + width + len)
  }

  /** Where the two nested headers of the extension list start: the `[3]` tag and the SEQUENCE inside. */
  function Locate(data: seq<Byte>): Option<(nat, nat)> {
    match Find(data)
    case None => None
    case Some(a3) => (match InnerOf(data, a3) case None => None case Some(inner) => Some((a3, inner)))
  }

  /** Shrink the length field at `idx` by `cut`. */
  function Shrink(data: seq<Byte>, idx: nat, cut: nat): Option<seq<Byte>> {
    match LenAt(data, idx)
    case None => None
    case Some((v, _)) => if v < cut then None else Rewritten(data, idx, v - cut)
  }

  function ShrinkAll(data: seq<Byte>, fields: seq<nat>, cut: nat): Option<seq<Byte>> {
    if fields == [] then Some(data)
    else
      match ShrinkAll(data, fields[..|fields| - 1], cut)
      case None => None
      case Some(d) => Shrink(d, fields[|fields| - 1], cut)
  }

  /** `remove_tbs_extension`. */
  function Removed(data: seq<Byte>, start: nat, total: nat): Option<seq<Byte>> {
    match Locate(data)
    case None => None
    case Some((a3, inner)) =>
      match ShrinkAll(data, [1, a3 + 1, inner + 1], total)
      case None => None
      case Some(d) => if start + total > |d| then None else Some(d[..start] + d[start + total..])
  }

  const KEY_USAGE_OID: seq<Byte> := [0x06, 0x03, 0x55, 0x1D, 0x0F]

  /** The first position of `needle`, as `windows(..).position(..)` finds it. */
  function FirstAt(data: seq<Byte>, needle: seq<Byte>, from: nat): (r: Option<nat>)
    ensures r.Some? ==> from <= r.value && r.value + |needle| <= |data| && data[r.value..r.value + |needle|] == needle
    decreases |data| - from
  {
    if from + |needle| > |data| then None
    else if data[from..from + |needle|] == needle then Some(from)
    else FirstAt(data, needle, from + 1)
  }

  datatype Mutation = DropKeyCertSign | Remove

  /** The mutation of the extension of `total` bytes at `start`. */
  function MutatedAt(data: seq<Byte>, start: nat, total: nat, m: Mutation): Option<seq<Byte>> {
    match m
    case Remove => Removed(data, start, total)
    case DropKeyCertSign =>
      if total == 0 || start + total > |data| || data[start + total - 1] != 0x06 then None
      else Some(data[start + total - 1 := 0x02])
  }

  /** `apply_key_usage_mutation`. */
  function Mutated(data: seq<Byte>, m: Mutation): Option<seq<Byte>> {
    match FirstAt(data, KEY_USAGE_OID, 0)
    case None => None
    case Some(oid) =>
      if oid < 2 || data[oid - 2] != 0x30 then None else MutatedAt(data, oid - 2, 2 + data[oid - 1] as nat, m)
  }

  class TbsBuffer {
    var bytes: seq<Byte>

    constructor (bytes: seq<Byte>)
      ensures this.bytes == bytes
    {
      this.bytes := bytes;
    }

    method WriteDerLen(idx: nat, v: nat) returns (ok: bool)
      modifies this
      ensures ok <==> Rewritten(old(bytes), idx, v).Some?
      ensures ok ==> bytes == Rewritten(old(bytes), idx, v).value
    {
      if idx >= |bytes| {
        return false;
      }
      var first := bytes[idx];
      if first < 128 {
        bytes := bytes[idx := v % 256];
        return true;
      }
      var n := first - 128;
      ghost var was := bytes;
      if idx + n >= |bytes| {
        return false;
      }
      for i := 0 to n
        invariant i <= 8 && idx + n < |was|
        invariant bytes == was[..idx + 1 + n - i] + ToBe(v, i) + was[idx + 1 + n..]
      {
        if i >= 8 {
          return false;
        }
        ToBeFront(v, i);
        bytes := bytes[idx + n - i := Shr(v, i) % 256];
      }
      return true;
    }

    method ShrinkLen(idx: nat, cut: nat) returns (ok: bool)
      modifies this
      ensures ok <==> Shrink(old(bytes), idx, cut).Some?
      ensures ok ==> bytes == Shrink(old(bytes), idx, cut).value
    {
      var at := ReadDerLen(bytes, idx);
      if at.None? || at.value.0 < cut {
        return false;
      }
      ok := WriteDerLen(idx, at.value.0 - cut);
    }

    method ShrinkFields(fields: seq<nat>, cut: nat) returns (ok: bool)
      modifies this
      ensures ok <==> ShrinkAll(old(bytes), fields, cut).Some?
      ensures ok ==> bytes == ShrinkAll(old(bytes), fields, cut).value
    {
      ghost var was := bytes;
      for i := 0 to |fields|
        invariant ShrinkAll(was, fields[..i], cut) == Some(bytes)
      {
        assert fields[..i + 1][..i] == fields[..i];
        ok := ShrinkLen(fields[i], cut);
        if !ok {
          ShrinkFails(was, fields, i + 1, cut);
          return false;
        }
      }
      assert fields[..|fields|] == fields;
      return true;
    }

    method FindExtensions(start: nat, end: nat) returns (r: Option<nat>)
      ensures r == Walk(bytes, start, end)
    {
      var idx := start;
      while true
        invariant Walk(bytes, start, end) == Walk(bytes, idx, end)
        decreases end - idx
      {
        if idx >= end || idx >= |bytes| {
          return None;
        }
        var at := ReadDerLen(bytes, idx + 1);
        if at.None? {
          return None;
        }
        if bytes[idx] == 0xA3 {
          return Some(idx);
        }
        if idx + 1 + at.value.1 + at.value.0 >= WORD {
          return None;
        }
        idx := idx + 1 + at.value.1 + at.value.0;
      }
      return None;
    }

    method LocateExtensions() returns (r: Option<(nat, nat)>)
      ensures r == Locate(bytes)
    {
      if bytes == [] || bytes[0] != 0x30 {
        return None;
      }
      var outer := ReadDerLen(bytes, 1);
      if outer.None? || 1 + outer.value.1 + outer.value.0 >= WORD {
        return None;
      }
      var a3 := FindExtensions(1 + outer.value.1, 1 + outer.value.1 + outer.value.0);
      if a3.None? {
        return None;
      }
      var at := ReadDerLen(bytes, a3.value + 1);
      if at.None? {
        return None;
      }
      var inner := a3.value + 1 + at.value.1;
      if inner >= |bytes| || bytes[inner] != 0x30 {
        return None;
      }
      return Some((a3.value, inner));
    }

    method RemoveExtension(start: nat, total: nat) returns (ok: bool)
      modifies this
      ensures ok <==> Removed(old(bytes), start, total).Some?
      ensures ok ==> bytes == Removed(old(bytes), start, total).value
    {
      var at := LocateExtensions();
      if at.None? {
        return false;
      }
      ok := ShrinkFields([1, at.value.0 + 1, at.value.1 + 1], total);
      if !ok {
        return false;
      }
      if start + total > |bytes| {
        return false;
      }
      bytes := bytes[..start] + bytes[start + total..];
      return true;
    }

    method ApplyKeyUsageMutation(m: Mutation) returns (ok: bool)
      modifies this
      ensures ok <==> Mutated(old(bytes), m).Some?
      ensures ok ==> bytes == Mutated(old(bytes), m).value
    {
      var oid := FirstAt(bytes, KEY_USAGE_OID, 0);
      if oid.None? || oid.value < 2 {
        return false;
      }
      var start := oid.value - 2;
      if bytes[start] != 0x30 {
        return false;
      }
      var total := 2 + bytes[start + 1] as nat;
      match m {
        case DropKeyCertSign =>
          var value := start + total - 1;
          if value >= |bytes| || bytes[value] != 0x06 {
            return false;
          }
          bytes := bytes[value := 0x02];
          return true;
        case Remove =>
          ok := RemoveExtension(start, total);
      }
    }
  }

  lemma {:induction false} ShrinkFails(data: seq<Byte>, fields: seq<nat>, i: nat, cut: nat)
    requires i <= |fields| && ShrinkAll(data, fields[..i], cut).None?
    ensures ShrinkAll(data, fields, cut).None?
    decreases |fields| - i
  {
    if i < |fields| {
      assert fields[..i + 1][..i] == fields[..i];
      ShrinkFails(data, fields, i + 1, cut);
    } else {
      assert fields[..i] == fields;
    }
  }
}
