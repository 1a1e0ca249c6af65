/**
 The two KeyUsage mutations on printed certificate bodies, and what removing an extension does to
 the minimality of the enclosing lengths.
 */
module KeyUsage {
  import opened Common
  import opened Der
  import opened Tbs
  import opened TbsRemoval

  /** An extension as the template prints it: a short-form SEQUENCE that starts with the KeyUsage OID. */
  predicate IsKeyUsage(f: Field) {
    f.tag == 0x30 && |f.len| == 1 && FieldOk(f) && KEY_USAGE_OID <= f.body
  }

  /** The body's `k`-th extension is KeyUsage, and its OID is the first match in the bytes. */
  predicate Carries(t: Cert, k: nat) {
    && WellFormed(t) && k < |t.exts| && IsKeyUsage(t.exts[k])
    && FirstAt(PrintCert(t), KEY_USAGE_OID, 0) == Some(Start(t, k) + 2)
  }

  lemma ExtsStand(data: seq<Byte>, p: Parts, e1: seq<Byte>, e: seq<Byte>, e2: seq<Byte>)
    requires data == Bytes(p) && p.exts == e1 + (e + e2)
    ensures At(data, ExtsAt(p) + |e1|, e)
  {
    HeadersAt(data, p);
    AtConcat(data, ExtsAt(p), e1, e + e2);
    AtConcat(data, ExtsAt(p) + |e1|, e, e2);
  }

  lemma ExtStands(t: Cert, k: nat)
    requires k < |t.exts|
    ensures At(PrintCert(t), Start(t, k), Print(t.exts[k]))
  {
    PrintAllAround(t.exts, k);
    ExtsStand(PrintCert(t), PartsOf(t), PrintAll(t.exts[..k]), Print(t.exts[k]), PrintAll(t.exts[k + 1..]));
  }

  /** The two header bytes before the OID give the extension's start and size. */
  lemma HeaderRead(t: Cert, k: nat)
    requires Carries(t, k)
    ensures PrintCert(t)[Start(t, k)] == 0x30
    ensures 2 + PrintCert(t)[Start(t, k) + 1] as nat == |Print(t.exts[k])|
    ensures |Print(t.exts[k])| >= 7 && Start(t, k) + |Print(t.exts[k])| <= |PrintCert(t)|
  {
    ExtStands(t, k);
    var bytes := Print(t.exts[k]);
    assert bytes[0] == 0x30 && bytes[1] == t.exts[k].len[0];
  }

  lemma MutatedIs(data: seq<Byte>, start: nat, total: nat, m: Mutation)
    requires FirstAt(data, KEY_USAGE_OID, 0) == Some(start + 2) && data[start] == 0x30 && 2 + data[start + 1] as nat == total
    ensures Mutated(data, m) == MutatedAt(data, start, total, m)
  {
    var oid := start + 2;
    assert oid - 2 == start && 2 + data[oid - 1] as nat == total;
  }

  /** Removing KeyUsage by its OID gives the bytes of the body without that extension. */
  lemma KeyUsageRemoved(t: Cert, k: nat) returns (u: Cert, out: seq<Byte>)
    requires Carries(t, k)
    ensures Mutated(PrintCert(t), Remove) == if Rewritable(PartsOf(t)) then Some(out) else None
    ensures WellFormed(u) && Without(t, k, u) && out == PrintCert(u)
  {
    HeaderRead(t, k);
    MutatedIs(PrintCert(t), Start(t, k), |Print(t.exts[k])|, Remove);
    u, out := ExtensionRemoved(t, k);
  }

  // ---- dropping one bit ----

  function LastSet(b: seq<Byte>, v: Byte): seq<Byte>
    requires b != []
  {
    b[|b| - 1 := v]
  }

  function LastOf(b: seq<Byte>): Byte
    requires b != []
  {
    b[|b| - 1]
  }

  lemma SetInside(a: seq<Byte>, e1: seq<Byte>, e: seq<Byte>, e2: seq<Byte>, b: seq<Byte>, v: Byte, data: seq<Byte>, last: nat)
    requires e != [] && data == a + (e1 + (e + e2)) + b && last == |a| + |e1| + |e| - 1
    ensures data[last] == e[|e| - 1] && data[last := v] == a + (e1 + (LastSet(e, v) + e2)) + b
  {
  }

  lemma BytesPatched(data: seq<Byte>, p: Parts, e1: seq<Byte>, e: seq<Byte>, e2: seq<Byte>, v: Byte, last: nat)
    requires data == Bytes(p) && p.exts == e1 + (e + e2) && e != [] && last == ExtsAt(p) + |e1| + |e| - 1
    ensures last < |data| && data[last] == LastOf(e) && data[last := v] == Bytes(p.(exts := e1 + (LastSet(e, v) + e2)))
  {
    var s, now := Segments(p), e1 + (LastSet(e, v) + e2);
    Offsets(p);
    ConcatAround(s, 7);
    ConcatReplaced(s, 7, now);
    assert s[7 := now] == Segments(p.(exts := now));
    SetInside(Concat(s[..7]), e1, e, e2, Concat(s[8..]), v, data, last);
  }

  /** The body with the last byte of extension `k` replaced. */
  function WithLast(t: Cert, k: nat, v: Byte): Cert
    requires k < |t.exts| && t.exts[k].body != []
  {
    t.(exts := t.exts[k := t.exts[k].(body := LastSet(t.exts[k].body, v))])
  }

  lemma WithLastParts(t: Cert, k: nat, v: Byte)
    requires k < |t.exts| && t.exts[k].body != []
    ensures PartsOf(WithLast(t, k, v)) ==
      PartsOf(t).(exts := PrintAll(t.exts[..k]) + (LastSet(Print(t.exts[k]), v) + PrintAll(t.exts[k + 1..])))
  {
    var u, f := WithLast(t, k, v), t.exts[k];
    PrintAllAround(u.exts, k);
    assert u.exts[..k] == t.exts[..k] && u.exts[k + 1..] == t.exts[k + 1..];
    assert Print(u.exts[k]) == LastSet(Print(f), v);
  }

  /** Such a change keeps the body well-formed. */
  lemma WithLastOk(t: Cert, k: nat, v: Byte)
    requires WellFormed(t) && k < |t.exts| && t.exts[k].body != []
    ensures WellFormed(WithLast(t, k, v))
  {
    WithLastParts(t, k, v);
    PrintAllAround(t.exts, k);
    var u := WithLast(t, k, v);
    assert |PrintAll(u.exts)| == |PrintAll(t.exts)|;
    assert AllOk(u.exts) by {
      assert FieldOk(t.exts[k]);
    }
  }

  lemma DropIs(data: seq<Byte>, start: nat, total: nat, last: nat, was: Byte, out: seq<Byte>)
    requires total > 0 && last == start + total - 1 < |data| && was == data[last] && out == data[last := 0x02]
    ensures MutatedAt(data, start, total, DropKeyCertSign) == if was == 0x06 then Some(out) else None
  {
  }

  lemma LastOfPrinted(f: Field)
    requires f.body != []
    ensures LastOf(Print(f)) == LastOf(f.body)
  {
  }

  lemma CertPatched(t: Cert, k: nat, last: nat)
    requires k < |t.exts| && t.exts[k].body != [] && last == Start(t, k) + |Print(t.exts[k])| - 1
    ensures last < |PrintCert(t)| && PrintCert(t)[last] == LastOf(t.exts[k].body)
    ensures PrintCert(t)[last := 0x02] == PrintCert(WithLast(t, k, 0x02))
  {
    var e1, e, e2 := PrintAll(t.exts[..k]), Print(t.exts[k]), PrintAll(t.exts[k + 1..]);
    PrintAllAround(t.exts, k);
    BytesPatched(PrintCert(t), PartsOf(t), e1, e, e2, 0x02, last);
    WithLastParts(t, k, 0x02);
    LastOfPrinted(t.exts[k]);
  }

  /** The first match of the OID has a SEQUENCE header before it, and that SEQUENCE ends at `end`. */
  predicate Picks(data: seq<Byte>, end: nat) {
    var oid := FirstAt(data, KEY_USAGE_OID, 0);
    oid.Some? && oid.value >= 2 && data[oid.value - 2] == 0x30 && oid.value + data[oid.value - 1] as nat == end
  }

  /** A mutation that turns one 0x06 into 0x02 patches the byte at `last` exactly when it was picked. */
  lemma PatchedIff(data: seq<Byte>, last: nat)
    requires last < |data|
    ensures Mutated(data, DropKeyCertSign) == Some(data[last := 0x02]) <==> data[last] == 0x06 && Picks(data, last + 1)
  {
    var m := Mutated(data, DropKeyCertSign);
    if m.Some? {
      var oid := FirstAt(data, KEY_USAGE_OID, 0).value;
      var at := oid + data[oid - 1] as nat - 1;
      assert m.value == data[at := 0x02] && data[at] == 0x06;
      assert m.value[at] != data[at] && (at != last ==> data[last := 0x02][at] == data[at]);
    }
  }

  /**
   For every extension of every body: dropping keyCertSign changes the final byte of that extension
   to 0x02 and nothing else, every length included, exactly when that byte is 0x06 and the first
   match of the OID picks the extension's end.  The KeyUsage extension of the template is picked,
   and with any other final byte the fixture panics.
   */
  lemma KeyCertSignDropped(t: Cert, k: nat)
    requires k < |t.exts| && t.exts[k].body != []
    ensures Mutated(PrintCert(t), DropKeyCertSign) == Some(PrintCert(WithLast(t, k, 0x02)))
      <==> LastOf(t.exts[k].body) == 0x06 && Picks(PrintCert(t), Start(t, k) + |Print(t.exts[k])|)
    ensures Carries(t, k) ==>
      && Picks(PrintCert(t), Start(t, k) + |Print(t.exts[k])|)
      && (Mutated(PrintCert(t), DropKeyCertSign) == None <==> LastOf(t.exts[k].body) != 0x06)
  {
    var data, start, total := PrintCert(t), Start(t, k), |Print(t.exts[k])|;
    var last := start + total - 1;
    CertPatched(t, k, last);
    PatchedIff(data, last);
    if Carries(t, k) {
      HeaderRead(t, k);
      DropIs(data, start, total, last, LastOf(t.exts[k].body), data[last := 0x02]);
      MutatedIs(data, start, total, DropKeyCertSign);
    }
  }

  // ---- minimal lengths ----

  predicate LengthsMinimal(t: Cert) {
    var p := PartsOf(t);
    Minimal(p.outerLen, ContentSize(p)) && Minimal(p.a3Len, InnerSize(p)) && Minimal(p.innerLen, |p.exts|)
  }

  /** A value shrunk by `cut` still needs the length field it had. */
  predicate SameNeed(v: nat, cut: nat) {
    v < 128 || (v - cut >= 128 && Needed(v - cut) == Needed(v))
  }

  lemma SizesWithout(t: Cert, k: nat, u: Cert)
    requires Without(t, k, u)
    ensures
      var p, q, x := PartsOf(t), PartsOf(u), |Print(t.exts[k])|;
      && x <= |p.exts| && |q.exts| == |p.exts| - x && InnerSize(q) == InnerSize(p) - x && ContentSize(q) == ContentSize(p) - x
  {
    PrintAllAround(t.exts, k);
    PrintAllAppend(t.exts[..k], t.exts[k + 1..]);
  }

  /**
   If the lengths were minimal, as DER demands, they are minimal after the removal exactly when
   each of the three shrunk sizes still needs the width its field has.
   */
  lemma RemovalKeepsDerIff(t: Cert, k: nat, u: Cert)
    requires WellFormed(t) && LengthsMinimal(t) && Without(t, k, u) && WellFormed(u)
    ensures
      var p, x := PartsOf(t), |Print(t.exts[k])|;
      LengthsMinimal(u) <==> SameNeed(ContentSize(p), x) && SameNeed(InnerSize(p), x) && SameNeed(|p.exts|, x)
  {
    SizesWithout(t, k, u);
  }

  function Zeros(n: nat): seq<Byte> {
    seq(n, _ => 0)
  }

  /** A DER body of 128 content bytes whose second extension takes 22 of them. */
  function AtTheEdge(): Cert {
    Cert([0x81, 0x80], [], [126], [124], [Field(0x30, [100], Zeros(100)), Field(0x30, [20], Zeros(20))], [])
  }

  lemma EdgeSizes()
    ensures
      var p := PartsOf(AtTheEdge());
      |p.exts| == 124 && InnerSize(p) == 126 && ContentSize(p) == 128 && |Print(AtTheEdge().exts[1])| == 22
  {
    var t := AtTheEdge();
    assert t.exts[1..] == [t.exts[1]] && t.exts[1..][1..] == [];
    assert PrintAll([t.exts[1]]) == Print(t.exts[1]) + PrintAll([]);
  }

  lemma EdgeIsDer()
    ensures WellFormed(AtTheEdge()) && LengthsMinimal(AtTheEdge())
  {
    var t := AtTheEdge();
    EdgeSizes();
    assert LenOk(t.outerLen, 128) by {
      assert t.outerLen[1..] == [0x80] && FromBe([0x80]) == FromBe([]) * 256 + 0x80;
    }
    assert Needed(128) == 1;
  }

  lemma WideLengthLeft(t: Cert, k: nat) returns (u: Cert, out: seq<Byte>)
    requires WellFormed(t) && LengthsMinimal(t) && k < |t.exts| && Rewritable(PartsOf(t))
    requires !SameNeed(ContentSize(PartsOf(t)), |Print(t.exts[k])|)
    ensures Removed(PrintCert(t), Start(t, k), |Print(t.exts[k])|) == Some(out)
    ensures out == PrintCert(u) && WellFormed(u) && !LengthsMinimal(u)
  {
    u, out := ExtensionRemoved(t, k);
    RemovalKeepsDerIff(t, k, u);
  }

  /** The code's comment says a removal never changes the width of a length; here DER needs it to. */
  lemma RemovalLeavesWideLength() returns (u: Cert, out: seq<Byte>)
    ensures LengthsMinimal(AtTheEdge())
    ensures Removed(PrintCert(AtTheEdge()), Start(AtTheEdge(), 1), |Print(AtTheEdge().exts[1])|) == Some(out)
    ensures out == PrintCert(u) && WellFormed(u) && !LengthsMinimal(u)
  {
    EdgeIsDer();
    EdgeSizes();
    assert !SameNeed(128, 22);
    u, out := WideLengthLeft(AtTheEdge(), 1);
  }
}
