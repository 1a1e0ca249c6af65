/**
 Definite length fields and single TLVs of DER (crates/tbor_test_harness/src/x509_fixture.rs;
 section 8.1.3 of ITU-T X.690).  A Rust panic is `None`; `usize` is 64 bits wide.
 */
module Der {
  import opened Common
  import opened Epoch

  const WORD: nat := 0x1_0000_0000_0000_0000

  // ---- big-endian octets ----

  function FromBe(b: seq<Byte>): nat {
    if b == [] then 0 else FromBe(b[..|b| - 1]) * 256 + b[|b| - 1]
  }

  /** The `n` low octets of `v`. */
  function ToBe(v: nat, n: nat): (b: seq<Byte>)
    ensures |b| == n
  {
    if n == 0 then [] else ToBe(v / 256, n - 1) + [v % 256]
  }

  /** `v >> 8 * i`. */
  function Shr(v: nat, i: nat): nat {
    if i == 0 then v else Shr(v / 256, i - 1)
  }

  lemma {:induction false} ToBeFront(v: nat, i: nat)
    ensures ToBe(v, i + 1) == [Shr(v, i) % 256] + ToBe(v, i)
  {
    if i > 0 {
      ToBeFront(v / 256, i - 1);
    }
  }

  lemma {:induction false} FromToBe(v: nat, n: nat)
    requires v < Pow256(n)
    ensures FromBe(ToBe(v, n)) == v
  {
    if n > 0 {
      FromToBe(v / 256, n - 1);
      assert ToBe(v, n)[..n - 1] == ToBe(v / 256, n - 1);
    }
  }

  lemma {:induction false} FromBeBound(b: seq<Byte>)
    ensures FromBe(b) < Pow256(|b|)
  {
    if b != [] {
      FromBeBound(b[..|b| - 1]);
    }
  }

  /** A number cut down to the word size. */
  function Wrapped(x: nat): nat {
    if x < WORD then x else Wrapped(x - WORD)
  }

  // ---- reading a length ----

  /** `read_der_len`: the value, modulo the word size, and the number of octets the field takes. */
  function LenAt(data: seq<Byte>, idx: nat): Option<(nat, nat)> {
    if idx >= |data| then None
    else if data[idx] < 128 then Some((data[idx], 1))
    else
      var n := data[idx] - 128;
      if idx + 1 + n > |data| then None else Some((Wrapped(FromBe(data[idx + 1..idx + 1 + n])), 1 + n))
  }

  /** One turn of the accumulating loop: `(value << 8) | octet` in a 64-bit word. */
  function Accumulate(value: nat, octet: Byte): nat {
    Wrapped(value * 256 + octet)
  }

  /** Bits shifted out early and bits shifted out at the end are the same. */
  lemma {:induction false} WrapShift(x: nat, octet: Byte)
    ensures Accumulate(Wrapped(x), octet) == Wrapped(x * 256 + octet)
  {
    if x >= WORD {
      WrapShift(x - WORD, octet);
      WrapMany((x - WORD) * 256 + octet, 256);
    }
  }

  lemma {:induction false} WrapMany(x: nat, k: nat)
    ensures Wrapped(x + k * WORD) == Wrapped(x)
    decreases k
  {
    if k > 0 {
      WrapMany(x, k - 1);
      assert Wrapped(x + k * WORD) == Wrapped(x + (k - 1) * WORD);
    }
  }

  lemma AccumulateOctet(b: seq<Byte>, octet: Byte)
    ensures Accumulate(Wrapped(FromBe(b)), octet) == Wrapped(FromBe(b + [octet]))
  {
    assert (b + [octet])[..|b|] == b;
    WrapShift(FromBe(b), octet);
  }

  method ReadDerLen(data: seq<Byte>, idx: nat) returns (r: Option<(nat, nat)>)
    ensures r == LenAt(data, idx)
  {
    if idx >= |data| {
      return None;
    }
    var first := data[idx];
    if first < 128 {
      return Some((first, 1));
    }
    var n, value := first - 128, 0;
    for i := 0 to n
      invariant idx + 1 + i <= |data|
      invariant value == Wrapped(FromBe(data[idx + 1..idx + 1 + i]))
    {
      if idx + 1 + i >= |data| {
        return None;
      }
      AccumulateOctet(data[idx + 1..idx + 1 + i], data[idx + 1 + i]);
      assert data[idx + 1..idx + 1 + i + 1] == data[idx + 1..idx + 1 + i] + [data[idx + 1 + i]];
      value := Accumulate(value, data[idx + 1 + i]);
    }
    return Some((value, 1 + n));
  }

  // ---- one TLV ----

  /** `der_tlv`: tag, contents and what follows. */
  function Tlv(der: seq<Byte>): Option<(Byte, seq<Byte>, seq<Byte>)> {
    if |der| < 2 then None
    else
      match LenAt(der, 1)
      case None => None
      case Some((len, width)) =>
        var header := 1 + width;
        if header + len > |der| then None else Some((der[0], der[header..header + len], der[header + len..]))
  }

  method DerTlv(der: seq<Byte>) returns (r: Option<(Byte, seq<Byte>, seq<Byte>)>)
    ensures r == Tlv(der)
  {
    if |der| < 2 {
      return None;
    }
    var tag, lenOctet := der[0], der[1];
    var len, header := lenOctet, 2;
    if lenOctet >= 128 {
      var n := lenOctet - 128;
      if 2 + n > |der| {
        return None;
      }
      var octets := der[2..2 + n];
      len := 0;
      for i := 0 to |octets|
        invariant len == Wrapped(FromBe(octets[..i]))
      {
        AccumulateOctet(octets[..i], octets[i]);
        assert octets[..i + 1] == octets[..i] + [octets[i]];
        len := Accumulate(len, octets[i]);
      }
      assert octets[..|octets|] == octets;
      header := 2 + n;
    }
    if header + len > |der| {
      return None;
    }
    return Some((tag, der[header..header + len], der[header + len..]));
  }

  /**
   The two readers agree on every header: `der_tlv` accepts exactly when `read_der_len` gives a
   length that fits, and then it splits the input into tag, length field, contents and rest.
   */
  lemma ReadersAgree(der: seq<Byte>)
    requires |der| >= 2
    ensures Tlv(der).Some? <==> LenAt(der, 1).Some? && 1 + LenAt(der, 1).value.1 + LenAt(der, 1).value.0 <= |der|
    ensures Tlv(der).Some? ==>
      var (tag, body, rest) := Tlv(der).value;
      LenAt(der, 1).value.0 == |body| && der == [tag] + der[1..1 + LenAt(der, 1).value.1] + body + rest
  {
  }

  // ---- printing ----

  /** The octets are a definite length field for `v`, in the short form or a long form of any width. */
  predicate LenOk(len: seq<Byte>, v: nat) {
    && |len| >= 1 && v < WORD
    && if len[0] < 128 then |len| == 1 && v == len[0]
       else |len| == 1 + (len[0] - 128) && |len| >= 2 && v == FromBe(len[1..])
  }

  datatype Field = Field(tag: Byte, len: seq<Byte>, body: seq<Byte>)

  predicate FieldOk(f: Field) {
    LenOk(f.len, |f.body|)
  }

  function Print(f: Field): seq<Byte> {
    [f.tag] + f.len + f.body
  }

  /** Reading a length field that was printed, wherever it stands, gives the value back. */
  lemma LenAtPrinted(before: seq<Byte>, len: seq<Byte>, v: nat, after: seq<Byte>)
    requires LenOk(len, v)
    ensures LenAt(before + len + after, |before|) == Some((v, |len|))
  {
    var data := before + len + after;
    assert data[|before|] == len[0];
    if len[0] >= 128 {
      assert data[|before| + 1..|before| + |len|] == len[1..];
    }
  }

  /** Parsing inverts printing of one field. */
  lemma TlvPrinted(f: Field, rest: seq<Byte>)
    requires FieldOk(f)
    ensures Tlv(Print(f) + rest) == Some((f.tag, f.body, rest))
  {
    var der := Print(f) + rest;
    LenAtPrinted([f.tag], f.len, |f.body|, f.body + rest);
    assert der == [f.tag] + f.len + (f.body + rest);
    assert der[1 + |f.len|..1 + |f.len| + |f.body|] == f.body;
    assert der[1 + |f.len| + |f.body|..] == rest;
  }

  // ---- rewriting a length in place ----

  /**
   `write_der_len`: the short form takes the low octet; a long form keeps its width.  A shift by
   64 bits or more panics, so a field of more than eight octets cannot be rewritten.
   */
  function Rewritten(data: seq<Byte>, idx: nat, v: nat): Option<seq<Byte>> {
    if idx >= |data| then None
    else if data[idx] < 128 then Some(data[idx := v % 256])
    else
      var n := data[idx] - 128;
      if n > 8 || idx + n >= |data| then None
      else Some(data[..idx + 1] + ToBe(v, n) + data[idx + 1 + n..])
  }

  /** The field of the same width that holds `v`. */
  function SameWidth(len: seq<Byte>, v: nat): seq<Byte>
    requires |len| >= 1
  {
    if len[0] < 128 then [v % 256] else [len[0]] + ToBe(v, |len| - 1)
  }

  /** A shrunk length fits its old width, and the rewritten field encodes it. */
  lemma SameWidthOk(len: seq<Byte>, v: nat, smaller: nat)
    requires LenOk(len, v) && smaller <= v
    ensures LenOk(SameWidth(len, smaller), smaller) && |SameWidth(len, smaller)| == |len|
  {
    if len[0] >= 128 {
      FromBeBound(len[1..]);
      FromToBe(smaller, |len| - 1);
      assert SameWidth(len, smaller)[1..] == ToBe(smaller, |len| - 1);
    }
  }

  lemma Regroup(a: seq<Byte>, b: seq<Byte>, c: seq<Byte>, d: seq<Byte>)
    ensures a + b + c + d == a + (b + c) + d
  {
  }

  /** Rewriting a printed length field, wherever it stands, changes that field and nothing else. */
  lemma RewrittenPrinted(before: seq<Byte>, len: seq<Byte>, v: nat, after: seq<Byte>, smaller: nat)
    requires LenOk(len, v) && smaller <= v
    ensures Rewritten(before + len + after, |before|, smaller)
      == if |len| <= 9 then Some(before + SameWidth(len, smaller) + after) else None
  {
    var data := before + len + after;
    assert data[|before|] == len[0];
    if 128 <= len[0] && |len| <= 9 {
      assert data[..|before| + 1] == before + [len[0]];
      assert data[|before| + |len|..] == after;
      Regroup(before, [len[0]], ToBe(smaller, |len| - 1), after);
    } else if len[0] < 128 {
      assert data[|before| := smaller % 256] == before + [smaller % 256] + after;
    }
  }

  // ---- minimal lengths ----

  /** The octets DER needs for `v`. */
  function Needed(v: nat): nat {
    if v == 0 then 0 else 1 + Needed(v / 256)
  }

  /** The one length field DER allows for `v`. */
  predicate Minimal(len: seq<Byte>, v: nat) {
    LenOk(len, v) && |len| == if v < 128 then 1 else 1 + Needed(v)
  }
}
