/**
 Entry points with several outputs (api/native/src/sd.rs, api/native/src/session_ex.rs): check every
 output, run the command once, copy every result.  The command is a parameter: it either fails or
 yields one byte string for each output.
 */
module OneShot {
  import opened Common
  import opened OutputBuffers

  function Storage(bufs: seq<Buffer>): set<array<Byte>>
    reads bufs
  {
    set b | b in bufs && b.ptr != null :: b.ptr
  }

  /** Where each output's bytes go. */
  function Targets(bufs: seq<Buffer>): (r: seq<array?<Byte>>)
    reads bufs
    ensures |r| == |bufs| && forall i | 0 <= i < |bufs| :: r[i] == bufs[i].ptr
  {
    seq(|bufs|, i requires 0 <= i < |bufs| reads bufs => bufs[i].ptr)
  }

  /** Of the first `n` results, any two that go to the same storage agree as far as both reach. */
  predicate Agree(targets: seq<array?<Byte>>, outs: seq<seq<Byte>>, n: nat)
    requires n <= |outs| == |targets|
  {
    forall i, j | 0 <= i < j < n && targets[i] != null && targets[i] == targets[j] ::
      outs[i] <= outs[j] || outs[j] <= outs[i]
  }

  predicate AllBacked(bufs: seq<Buffer>)
    reads bufs
  {
    forall b <- bufs :: b.Backed()
  }

  predicate Holds(buf: Buffer, out: seq<Byte>)
    reads buf, if buf.ptr != null then {buf.ptr} else {}
  {
    && buf.len == |out|
    && if buf.ptr == null then out == [] else |out| <= buf.ptr.Length && buf.ptr[..|out|] == out
  }

  /** The first `n` results are held. */
  predicate HeldUpTo(bufs: seq<Buffer>, outs: seq<seq<Byte>>, n: nat)
    requires n <= |outs| == |bufs|
    reads bufs, Storage(bufs)
  {
    forall j | 0 <= j < n :: Holds(bufs[j], outs[j])
  }

  /** The buffers from `n` on claim the lengths they had. */
  predicate ClaimsFrom(bufs: seq<Buffer>, was: seq<Shape>, n: nat)
    requires |was| == |bufs|
    reads bufs
  {
    forall j | n <= j < |bufs| :: bufs[j].View() == was[j]
  }

  predicate FitsUpTo(was: seq<Shape>, outs: seq<seq<Byte>>, n: nat)
    requires n <= |outs| == |was|
  {
    forall j | 0 <= j < n :: |outs[j]| <= was[j].len
  }

  /** One copy: the results already held stay, and buffers not yet reached keep their claim. */
  method CopyNext(bufs: seq<Buffer>, outs: seq<seq<Byte>>, i: nat, buf: Buffer, ghost was: seq<Shape>) returns (r: Result<()>)
    requires i < |outs| == |bufs| == |was| && Distinct(bufs) && buf == bufs[i] && |outs[i]| <= U32_MAX
    requires buf.Backed() && !Malformed(was[i]) && ClaimsFrom(bufs, was, i)
    modifies buf`len, if buf.ptr != null then {buf.ptr} else {}
    ensures r == if |outs[i]| <= was[i].len then Ok(()) else Err(BufferTooSmall)
    ensures Targets(bufs) == old(Targets(bufs))
    ensures r.Ok? && Agree(Targets(bufs), outs, i + 1) && old(HeldUpTo(bufs, outs, i)) ==> HeldUpTo(bufs, outs, i + 1)
    ensures ClaimsFrom(bufs, was, i + 1)
    ensures r.Ok? && FitsUpTo(was, outs, i) ==> FitsUpTo(was, outs, i + 1)
  {
    assert forall j | 0 <= j < |bufs| && j != i :: bufs[j] != buf;
    label before:
    r := CopyToBuffer(buf, outs[i]);
    if r.Ok? && Agree(Targets(bufs), outs, i + 1) && old(HeldUpTo(bufs, outs, i)) {
      forall j | 0 <= j < i + 1 ensures Holds(bufs[j], outs[j]) {
        if j < i && bufs[j].ptr != null && bufs[j].ptr == bufs[i].ptr {
          OverwriteAgrees(old@before(buf.ptr[..]), buf.ptr[..], outs[j], outs[i]);
        }
      }
    }
  }

  /** Storage that held a result still does after a result that agrees with it was written over it. */
  lemma OverwriteAgrees(was: seq<Byte>, now: seq<Byte>, held: seq<Byte>, put: seq<Byte>)
    requires |was| == |now| && held <= was && put <= now && now[|put|..] == was[|put|..]
    requires held <= put || put <= held
    ensures held <= now
  {
    if put <= held {
      forall k | 0 <= k < |held| ensures now[k] == held[k] {
        if k >= |put| {
          assert now[k] == now[|put|..][k - |put|] && was[k] == was[|put|..][k - |put|];
        }
      }
    }
  }

  /** Held results agree wherever they share storage. */
  lemma HeldAgree(bufs: seq<Buffer>, outs: seq<seq<Byte>>)
    requires |outs| == |bufs| && HeldUpTo(bufs, outs, |bufs|)
    ensures Agree(Targets(bufs), outs, |bufs|)
  {
    forall i, j | 0 <= i < j < |bufs| && bufs[i].ptr != null && bufs[i].ptr == bufs[j].ptr
      ensures outs[i] <= outs[j] || outs[j] <= outs[i]
    {
      assert Holds(bufs[i], outs[i]) && Holds(bufs[j], outs[j]);
      assert outs[i] <= bufs[i].ptr[..] && outs[j] <= bufs[i].ptr[..];
    }
  }

  /** The copies one after the other, stopping at the first that fails. */
  method CopyAll(bufs: seq<Buffer>, outs: seq<seq<Byte>>) returns (r: Result<()>)
    requires |outs| == |bufs| && Distinct(bufs) && AllBacked(bufs) && !AnyMalformed(Views(bufs))
    requires forall i | 0 <= i < |outs| :: |outs[i]| <= U32_MAX
    modifies bufs`len, Storage(bufs)
    ensures r == if FitsUpTo(old(Views(bufs)), outs, |bufs|) then Ok(()) else Err(BufferTooSmall)
    ensures r.Ok? ==> (HeldUpTo(bufs, outs, |bufs|) <==> Agree(Targets(bufs), outs, |bufs|))
  {
    ghost var was, targets := Views(bufs), Targets(bufs);
    for i := 0 to |bufs|
      invariant FitsUpTo(was, outs, i) && ClaimsFrom(bufs, was, i)
      invariant Targets(bufs) == targets && (Agree(targets, outs, i) ==> HeldUpTo(bufs, outs, i))
    {
      assert bufs[i].View() == was[i] && !Malformed(was[i]);
      r := CopyNext(bufs, outs, i, bufs[i], was);
      if r.Err? {
        return;
      }
    }
    if HeldUpTo(bufs, outs, |bufs|) {
      HeldAgree(bufs, outs);
    }
    return Ok(());
  }

  /** Every result is within the bound its output was checked against. */
  predicate WithinBounds(outs: seq<seq<Byte>>, required: seq<nat>)
    requires |outs| == |required|
  {
    forall i | 0 <= i < |outs| :: |outs[i]| <= AsU32(required[i])
  }

  lemma BoundsFit(was: seq<Shape>, required: seq<nat>, outs: seq<seq<Byte>>)
    requires |was| == |required| == |outs| && Verdict(was, required).Ok? && WithinBounds(outs, required)
    ensures FitsUpTo(was, outs, |outs|)
  {
    forall j | 0 <= j < |outs|
      ensures |outs[j]| <= was[j].len
    {
      assert !Small(was[j], required[j]);
    }
  }

  /**
   Sizes, command, copies: everything after the aliasing check.  A successful call leaves every
   output holding its result exactly when results that share storage agree.
   */
  method RunChecked(bufs: seq<Buffer>, required: seq<nat>, command: Result<seq<seq<Byte>>>) returns (r: Result<()>, ran: bool)
    requires |required| == |bufs| && Distinct(bufs) && AllBacked(bufs)
    requires command.Ok? ==> |command.value| == |bufs| && forall i | 0 <= i < |bufs| :: |command.value[i]| <= U32_MAX
    modifies bufs`len, Storage(bufs)
    ensures ran <==> Verdict(old(Views(bufs)), required).Ok?
    ensures !ran ==> r == Verdict(old(Views(bufs)), required) && unchanged(Storage(bufs))
    ensures !ran && r == Err(BufferTooSmall) ==> Views(bufs) == Advertised(old(Views(bufs)), required)
    ensures !ran && r == Err(InvalidArgument) ==> OnlySmallRewritten(old(Views(bufs)), Views(bufs), required)
    ensures ran && command.Err? ==> r == Err(command.error) && unchanged(bufs) && unchanged(Storage(bufs))
    ensures ran && command.Ok? ==>
      r == if FitsUpTo(old(Views(bufs)), command.value, |bufs|) then Ok(()) else Err(BufferTooSmall)
    ensures ran && command.Ok? && WithinBounds(command.value, required) ==> r.Ok?
    ensures r.Ok? ==> ran && command.Ok? && (HeldUpTo(bufs, command.value, |bufs|) <==> Agree(Targets(bufs), command.value, |bufs|))
  {
    ghost var was := Views(bufs);
    ran := false;
    r := ValidateOutputSizes(bufs, required);
    if r.Err? {
      return;
    }
    ran := true;
    assert forall i | 0 <= i < |bufs| :: bufs[i].View() == was[i];
    if command.Err? {
      return Err(command.error), true;
    }
    if WithinBounds(command.value, required) {
      BoundsFit(was, required, command.value);
    }
    r := CopyAll(bufs, command.value);
  }

  /** The pointers name distinct buffer structs. */
  predicate Usable(ptrs: seq<Buffer?>) {
    null !in ptrs && forall i, j | 0 <= i < j < |ptrs| :: ptrs[i] != ptrs[j]
  }

  function Named(ptrs: seq<Buffer?>): seq<Buffer>
    requires Usable(ptrs)
  {
    seq(|ptrs|, i requires 0 <= i < |ptrs| => ptrs[i])
  }

  /** The whole entry point: nothing is touched and nothing runs unless the pointers are usable. */
  method Entry(ptrs: seq<Buffer?>, required: seq<nat>, command: Result<seq<seq<Byte>>>) returns (r: Result<()>, ran: bool)
    requires |required| == |ptrs| && forall b: Buffer | b in ptrs :: b.Backed()
    requires command.Ok? ==> |command.value| == |ptrs| && forall i | 0 <= i < |ptrs| :: |command.value[i]| <= U32_MAX
    modifies (set b: Buffer | b in ptrs)`len, set b: Buffer | b in ptrs && b.ptr != null :: b.ptr
    ensures ran <==> Usable(ptrs) && Verdict(old(Views(Named(ptrs))), required).Ok?
    ensures !Usable(ptrs) ==> r == Err(InvalidArgument) && unchanged(set b: Buffer | b in ptrs)
    ensures !ran || command.Err? ==> unchanged(set b: Buffer | b in ptrs && b.ptr != null :: b.ptr)
    ensures Usable(ptrs) && !ran ==> r == Verdict(old(Views(Named(ptrs))), required)
    ensures Usable(ptrs) && !ran && r == Err(BufferTooSmall) ==>
      Views(Named(ptrs)) == Advertised(old(Views(Named(ptrs))), required)
    ensures Usable(ptrs) && !ran && r == Err(InvalidArgument) ==>
      OnlySmallRewritten(old(Views(Named(ptrs))), Views(Named(ptrs)), required)
    ensures ran && command.Err? ==> r == Err(command.error) && unchanged(set b: Buffer | b in ptrs)
    ensures ran && command.Ok? ==>
      r == if FitsUpTo(old(Views(Named(ptrs))), command.value, |ptrs|) then Ok(()) else Err(BufferTooSmall)
    ensures ran && command.Ok? && WithinBounds(command.value, required) ==> r.Ok?
    ensures r.Ok? ==>
      && ran && command.Ok?
      && (HeldUpTo(Named(ptrs), command.value, |ptrs|) <==> Agree(Targets(Named(ptrs)), command.value, |ptrs|))
  {
    ran := false;
    r := ValidateDistinctOutputBuffers(ptrs);
    if r.Err? {
      return;
    }
    var bufs := Named(ptrs);
    assert forall i | 0 <= i < |bufs| :: bufs[i] == ptrs[i] && bufs[i] in ptrs;
    r, ran := RunChecked(bufs, required, command);
  }
}
