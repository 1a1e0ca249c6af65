/**
 The byte surgery of `Tbs` on printed certificate bodies: for every body, in any mixture of length
 forms, removing an extension gives the print of the body without it.
 */
module TbsRemoval {
  import opened Common
  import opened Der
  import opened Tbs

  function PrintAll(fs: seq<Field>): seq<Byte> {
    if fs == [] then [] else Print(fs[0]) + PrintAll(fs[1..])
  }

  predicate AllOk(fs: seq<Field>) {
    forall i | 0 <= i < |fs| :: FieldOk(fs[i])
  }

  predicate Unmarked(fs: seq<Field>) {
    forall i | 0 <= i < |fs| :: fs[i].tag != 0xA3
  }

  /** A body as bytes: three length fields and what stands before, in and after the extension list. */
  datatype Parts = Parts(outerLen: seq<Byte>, before: seq<Byte>, a3Len: seq<Byte>, innerLen: seq<Byte>,
                         exts: seq<Byte>, after: seq<Byte>)

  /** The pieces of a body in order: SEQUENCE { before, [3] { SEQUENCE { exts } }, after }. */
  function Segments(p: Parts): seq<seq<Byte>> {
    [[0x30], p.outerLen, p.before, [0xA3], p.a3Len, [0x30], p.innerLen, p.exts, p.after]
  }

  function Concat(segs: seq<seq<Byte>>): seq<Byte> {
    if segs == [] then [] else segs[0] + Concat(segs[1..])
  }

  function Bytes(p: Parts): seq<Byte> {
    Concat(Segments(p))
  }

  function InnerSize(p: Parts): nat {
    1 + |p.innerLen| + |p.exts|
  }

  function ContentSize(p: Parts): nat {
    |p.before| + 1 + |p.a3Len| + InnerSize(p) + |p.after|
  }

  /** Each length field encodes the size of what it encloses. */
  predicate PartsOk(p: Parts) {
    && LenOk(p.outerLen, ContentSize(p)) && LenOk(p.a3Len, InnerSize(p)) && LenOk(p.innerLen, |p.exts|)
    && 1 + |p.outerLen| + ContentSize(p) < WORD
  }

  /** The fields of a TBSCertificate around its extension list; the length fields keep their form. */
  datatype Cert = Cert(outerLen: seq<Byte>, before: seq<Field>, a3Len: seq<Byte>, innerLen: seq<Byte>,
                       exts: seq<Field>, after: seq<Field>)

  function PartsOf(t: Cert): Parts {
    Parts(t.outerLen, PrintAll(t.before), t.a3Len, t.innerLen, PrintAll(t.exts), PrintAll(t.after))
  }

  function PrintCert(t: Cert): seq<Byte> {
    Bytes(PartsOf(t))
  }

  predicate WellFormed(t: Cert) {
    AllOk(t.before) && AllOk(t.exts) && AllOk(t.after) && Unmarked(t.before) && PartsOk(PartsOf(t))
  }

  // ---- printing lists ----

  lemma Assoc(a: seq<Byte>, b: seq<Byte>, c: seq<Byte>)
    ensures a + (b + c) == a + b + c
  {
  }

  lemma {:induction false} PrintAllAppend(a: seq<Field>, b: seq<Field>)
    ensures PrintAll(a + b) == PrintAll(a) + PrintAll(b)
  {
    if a == [] {
      assert a + b == b;
    } else {
      PrintAllAppend(a[1..], b);
      Assoc(Print(a[0]), PrintAll(a[1..]), PrintAll(b));
      var ab := a + b;
      assert ab[0] == a[0] && ab[1..] == a[1..] + b;
      assert PrintAll(ab) == Print(ab[0]) + PrintAll(ab[1..]);
    }
  }

  lemma PrintAllFrom(fs: seq<Field>, k: nat)
    requires k < |fs|
    ensures PrintAll(fs[k..]) == Print(fs[k]) + PrintAll(fs[k + 1..])
  {
    assert fs[k..][1..] == fs[k + 1..];
  }

  lemma PrintAllAround(fs: seq<Field>, k: nat)
    requires k < |fs|
    ensures PrintAll(fs) == PrintAll(fs[..k]) + (Print(fs[k]) + PrintAll(fs[k + 1..]))
  {
    assert fs == fs[..k] + fs[k..];
    PrintAllAppend(fs[..k], fs[k..]);
    PrintAllFrom(fs, k);
  }

  // ---- segments ----

  /** Where segment `i` starts. */
  function Offset(segs: seq<seq<Byte>>, i: nat): nat
    requires i <= |segs|
  {
    |Concat(segs[..i])|
  }

  lemma {:induction false} ConcatAppend(a: seq<seq<Byte>>, b: seq<seq<Byte>>)
    ensures Concat(a + b) == Concat(a) + Concat(b)
  {
    if a == [] {
      assert a + b == b;
    } else {
      ConcatAppend(a[1..], b);
      Assoc(a[0], Concat(a[1..]), Concat(b));
      var ab := a + b;
      assert ab[0] == a[0] && ab[1..] == a[1..] + b;
    }
  }

  lemma ConcatAround(segs: seq<seq<Byte>>, i: nat)
    requires i < |segs|
    ensures Concat(segs) == Concat(segs[..i]) + segs[i] + Concat(segs[i + 1..])
  {
    assert segs == segs[..i] + segs[i..] && segs[i..][1..] == segs[i + 1..];
    ConcatAppend(segs[..i], segs[i..]);
    Assoc(Concat(segs[..i]), segs[i], Concat(segs[i + 1..]));
  }

  lemma ConcatReplaced(segs: seq<seq<Byte>>, i: nat, now: seq<Byte>)
    requires i < |segs|
    ensures Concat(segs[i := now]) == Concat(segs[..i]) + now + Concat(segs[i + 1..])
  {
    var later := segs[i := now];
    ConcatAround(later, i);
    assert later[..i] == segs[..i] && later[i + 1..] == segs[i + 1..];
  }

  lemma NextOffset(segs: seq<seq<Byte>>, i: nat)
    requires i < |segs|
    ensures Offset(segs, i + 1) == Offset(segs, i) + |segs[i]|
  {
    assert segs[..i + 1] == segs[..i] + [segs[i]];
    ConcatAppend(segs[..i], [segs[i]]);
    var last: seq<seq<Byte>> := [segs[i]];
    assert last[1..] == [] && Concat(last) == segs[i];
  }

  function A3At(p: Parts): nat {
    1 + |p.outerLen| + |p.before|
  }

  function InnerAt(p: Parts): nat {
    A3At(p) + 1 + |p.a3Len|
  }

  function ExtsAt(p: Parts): nat {
    InnerAt(p) + 1 + |p.innerLen|
  }

  lemma Offsets(p: Parts)
    ensures
      var s := Segments(p);
      && Offset(s, 0) == 0 && Offset(s, 1) == 1 && Offset(s, 2) == 1 + |p.outerLen| && Offset(s, 3) == A3At(p)
      && Offset(s, 4) == A3At(p) + 1 && Offset(s, 5) == InnerAt(p) && Offset(s, 6) == InnerAt(p) + 1 && Offset(s, 7) == ExtsAt(p)
      && |Bytes(p)| == ExtsAt(p) + |p.exts| + |p.after|
  {
    var s := Segments(p);
    NextOffset(s, 0);
    NextOffset(s, 1);
    NextOffset(s, 2);
    NextOffset(s, 3);
    NextOffset(s, 4);
    NextOffset(s, 5);
    NextOffset(s, 6);
    NextOffset(s, 7);
    NextOffset(s, 8);
    assert s[..9] == s;
  }

  // ---- the walk ----

  /** The bytes stand at position `i` of the data. */
  predicate At(data: seq<Byte>, i: nat, bytes: seq<Byte>) {
    i + |bytes| <= |data| && forall j {:trigger bytes[j]} | 0 <= j < |bytes| :: bytes[j] == data[i + j]
  }

  lemma SegmentAt(segs: seq<seq<Byte>>, i: nat)
    requires i < |segs|
    ensures At(Concat(segs), Offset(segs, i), segs[i])
  {
    ConcatAround(segs, i);
  }

  lemma AtConcat(data: seq<Byte>, i: nat, a: seq<Byte>, b: seq<Byte>)
    requires At(data, i, a + b)
    ensures At(data, i, a) && At(data, i + |a|, b)
  {
    forall j | 0 <= j < |a|
      ensures a[j] == data[i + j]
    {
      assert a[j] == (a + b)[j];
    }
    forall j | 0 <= j < |b|
      ensures b[j] == data[i + |a| + j]
    {
      assert b[j] == (a + b)[|a| + j];
    }
  }

  lemma AtSlice(data: seq<Byte>, i: nat, bytes: seq<Byte>)
    requires At(data, i, bytes)
    ensures data[i..i + |bytes|] == bytes && data == data[..i] + bytes + data[i + |bytes|..]
  {
    assert data[i..i + |bytes|] == bytes;
  }

  lemma LenStandsAt(data: seq<Byte>, i: nat, len: seq<Byte>, v: nat)
    requires LenOk(len, v) && At(data, i, len)
    ensures LenAt(data, i) == Some((v, |len|))
  {
    LenAtPrinted(data[..i], len, v, data[i + |len|..]);
    AtSlice(data, i, len);
  }

  lemma HeaderStandsAt(data: seq<Byte>, i: nat, tag: Byte, len: seq<Byte>, v: nat, rest: seq<Byte>)
    requires LenOk(len, v) && At(data, i, [tag] + len + rest)
    ensures data[i] == tag && LenAt(data, i + 1) == Some((v, |len|)) && At(data, i + 1 + |len|, rest)
  {
    AtConcat(data, i, [tag] + len, rest);
    AtConcat(data, i, [tag], len);
    LenStandsAt(data, i + 1, len, v);
    assert data[i] == [tag][0];
  }

  lemma WalkStops(data: seq<Byte>, i: nat, end: nat)
    requires i < end && i < |data| && data[i] == 0xA3 && LenAt(data, i + 1).Some?
    ensures Walk(data, i, end) == Some(i)
  {
  }

  lemma WalkSkips(data: seq<Byte>, i: nat, end: nat, v: nat, width: nat)
    requires i < end && i < |data| && data[i] != 0xA3 && LenAt(data, i + 1) == Some((v, width)) && i + 1 + width + v < WORD
    ensures Walk(data, i, end) == Walk(data, i + 1 + width + v, end)
  {
  }

  lemma FieldWalked(data: seq<Byte>, i: nat, end: nat, f: Field, next: nat)
    requires FieldOk(f) && f.tag != 0xA3 && At(data, i, Print(f)) && i < end && |data| < WORD && next == i + |Print(f)|
    ensures Walk(data, i, end) == Walk(data, next, end)
  {
    HeaderStandsAt(data, i, f.tag, f.len, |f.body|, f.body);
    WalkSkips(data, i, end, |f.body|, |f.len|);
  }

  /** The walk over any fields that precede the extensions stops at the `[3]` tag. */
  lemma {:induction false} WalkFinds(data: seq<Byte>, i: nat, fs: seq<Field>, end: nat, stop: nat)
    requires AllOk(fs) && Unmarked(fs)
    requires At(data, i, PrintAll(fs)) && |data| < WORD && stop == i + |PrintAll(fs)| < end
    ensures Walk(data, i, end) == Walk(data, stop, end)
    decreases |fs|
  {
    if fs == [] {
      assert stop == i;
    } else {
      var f, rest := fs[0], fs[1..];
      var next := i + |Print(f)|;
      AtConcat(data, i, Print(f), PrintAll(rest));
      assert FieldOk(f) && f.tag != 0xA3;
      FieldWalked(data, i, end, f, next);
      WalkFinds(data, next, rest, end, stop);
    }
  }

  lemma FindIs(data: seq<Byte>, len: nat, width: nat)
    requires |data| > 0 && data[0] == 0x30 && LenAt(data, 1) == Some((len, width)) && 1 + width + len < WORD
    ensures Find(data) == Walk(data, 1 + width, 1 + width + len)
  {
  }

  lemma InnerIs(data: seq<Byte>, a3: nat, v: nat, width: nat)
    requires LenAt(data, a3 + 1) == Some((v, width)) && a3 + 1 + width < |data| && data[a3 + 1 + width] == 0x30
    ensures InnerOf(data, a3) == Some(a3 + 1 + width)
  {
  }

  lemma WalkReaches(data: seq<Byte>, i: nat, fs: seq<Field>, a3: nat, len: seq<Byte>, v: nat, end: nat)
    requires AllOk(fs) && Unmarked(fs) && At(data, i, PrintAll(fs)) && |data| < WORD && a3 == i + |PrintAll(fs)| < end
    requires LenOk(len, v) && At(data, a3, [0xA3]) && At(data, a3 + 1, len)
    ensures Walk(data, i, end) == Some(a3)
  {
    LenStandsAt(data, a3 + 1, len, v);
    assert [0xA3][0] == data[a3];
    WalkStops(data, a3, end);
    WalkFinds(data, i, fs, end, a3);
  }

  lemma HeadersAt(data: seq<Byte>, p: Parts)
    requires data == Bytes(p)
    ensures At(data, 0, [0x30]) && At(data, 1, p.outerLen) && At(data, 1 + |p.outerLen|, p.before) && At(data, A3At(p), [0xA3])
    ensures At(data, A3At(p) + 1, p.a3Len) && At(data, InnerAt(p), [0x30]) && At(data, ExtsAt(p), p.exts)
  {
    Offsets(p);
    var s := Segments(p);
    SegmentAt(s, 0);
    SegmentAt(s, 1);
    SegmentAt(s, 2);
    SegmentAt(s, 3);
    SegmentAt(s, 4);
    SegmentAt(s, 5);
    SegmentAt(s, 7);
  }

  lemma FindAt(data: seq<Byte>, outer: seq<Byte>, size: nat, fs: seq<Field>, a3: nat, len: seq<Byte>, v: nat)
    requires At(data, 0, [0x30]) && LenOk(outer, size) && At(data, 1, outer) && 1 + |outer| + size < WORD && |data| < WORD
    requires AllOk(fs) && Unmarked(fs) && At(data, 1 + |outer|, PrintAll(fs))
    requires a3 == 1 + |outer| + |PrintAll(fs)| < 1 + |outer| + size
    requires LenOk(len, v) && At(data, a3, [0xA3]) && At(data, a3 + 1, len)
    ensures Find(data) == Some(a3)
  {
    assert [0x30][0] == data[0];
    LenStandsAt(data, 1, outer, size);
    FindIs(data, size, |outer|);
    WalkReaches(data, 1 + |outer|, fs, a3, len, v, 1 + |outer| + size);
  }

  lemma FindReaches(data: seq<Byte>, p: Parts, fs: seq<Field>)
    requires data == Bytes(p) && PartsOk(p) && p.before == PrintAll(fs) && AllOk(fs) && Unmarked(fs)
    ensures Find(data) == Some(A3At(p))
  {
    HeadersAt(data, p);
    assert |data| < WORD by {
      Offsets(p);
    }
    FindAt(data, p.outerLen, ContentSize(p), fs, A3At(p), p.a3Len, InnerSize(p));
  }

  lemma InnerReached(data: seq<Byte>, p: Parts)
    requires data == Bytes(p) && PartsOk(p)
    ensures InnerOf(data, A3At(p)) == Some(InnerAt(p))
  {
    HeadersAt(data, p);
    LenStandsAt(data, A3At(p) + 1, p.a3Len, InnerSize(p));
    assert [0x30][0] == data[InnerAt(p)];
    InnerIs(data, A3At(p), InnerSize(p), |p.a3Len|);
  }

  lemma BytesLocated(data: seq<Byte>, p: Parts, fs: seq<Field>)
    requires data == Bytes(p) && PartsOk(p) && p.before == PrintAll(fs) && AllOk(fs) && Unmarked(fs)
    ensures Locate(data) == Some((A3At(p), InnerAt(p)))
  {
    FindReaches(data, p, fs);
    InnerReached(data, p);
  }

  // ---- the three lengths ----

  /** A length field of the same width and form. */
  predicate SameForm(len: seq<Byte>, now: seq<Byte>) {
    |now| == |len| >= 1 && if len[0] < 128 then now[0] < 128 else now[0] == len[0]
  }

  lemma SameWidthForm(len: seq<Byte>, v: nat, smaller: nat)
    requires LenOk(len, v) && smaller <= v
    ensures SameForm(len, SameWidth(len, smaller)) && LenOk(SameWidth(len, smaller), smaller)
  {
    SameWidthOk(len, v, smaller);
  }

  lemma ShrinkPrinted(before: seq<Byte>, len: seq<Byte>, v: nat, after: seq<Byte>, cut: nat, data: seq<Byte>)
    requires LenOk(len, v) && cut <= v && data == before + len + after
    ensures Shrink(data, |before|, cut) == if |len| <= 9 then Some(before + SameWidth(len, v - cut) + after) else None
  {
    LenAtPrinted(before, len, v, after);
    RewrittenPrinted(before, len, v, after, v - cut);
  }

  /** Shrinking the length field that is segment `i` replaces that segment, unless it is too wide. */
  lemma ShrinkSegment(segs: seq<seq<Byte>>, i: nat, at: nat, v: nat, cut: nat) returns (now: seq<Byte>, d: seq<Byte>)
    requires i < |segs| && LenOk(segs[i], v) && cut <= v && at == Offset(segs, i)
    ensures SameForm(segs[i], now) && LenOk(now, v - cut) && d == Concat(segs[i := now])
    ensures Shrink(Concat(segs), at, cut) == if |segs[i]| <= 9 then Some(d) else None
  {
    now := SameWidth(segs[i], v - cut);
    d := Concat(segs[i := now]);
    SameWidthForm(segs[i], v, v - cut);
    ConcatAround(segs, i);
    ConcatReplaced(segs, i, now);
    ShrinkPrinted(Concat(segs[..i]), segs[i], v, Concat(segs[i + 1..]), cut, Concat(segs));
  }

  lemma ShrinkOuter(p: Parts, v: nat, cut: nat) returns (now: seq<Byte>, d: seq<Byte>)
    requires LenOk(p.outerLen, v) && cut <= v
    ensures SameForm(p.outerLen, now) && LenOk(now, v - cut) && d == Bytes(p.(outerLen := now))
    ensures Shrink(Bytes(p), 1, cut) == if |p.outerLen| <= 9 then Some(d) else None
  {
    Offsets(p);
    now, d := ShrinkSegment(Segments(p), 1, 1, v, cut);
    assert Segments(p)[1 := now] == Segments(p.(outerLen := now));
  }

  lemma ShrinkA3(p: Parts, at: nat, v: nat, cut: nat) returns (now: seq<Byte>, d: seq<Byte>)
    requires LenOk(p.a3Len, v) && cut <= v && at == A3At(p) + 1
    ensures SameForm(p.a3Len, now) && LenOk(now, v - cut) && d == Bytes(p.(a3Len := now))
    ensures Shrink(Bytes(p), at, cut) == if |p.a3Len| <= 9 then Some(d) else None
  {
    Offsets(p);
    now, d := ShrinkSegment(Segments(p), 4, at, v, cut);
    assert Segments(p)[4 := now] == Segments(p.(a3Len := now));
  }

  lemma ShrinkInner(p: Parts, at: nat, v: nat, cut: nat) returns (now: seq<Byte>, d: seq<Byte>)
    requires LenOk(p.innerLen, v) && cut <= v && at == InnerAt(p) + 1
    ensures SameForm(p.innerLen, now) && LenOk(now, v - cut) && d == Bytes(p.(innerLen := now))
    ensures Shrink(Bytes(p), at, cut) == if |p.innerLen| <= 9 then Some(d) else None
  {
    Offsets(p);
    now, d := ShrinkSegment(Segments(p), 6, at, v, cut);
    assert Segments(p)[6 := now] == Segments(p.(innerLen := now));
  }

  /** The second and third of three rewrites. */
  function ShrinkTwo(data: seq<Byte>, j: nat, k: nat, cut: nat): Option<seq<Byte>> {
    match Shrink(data, j, cut)
    case None => None
    case Some(d) => Shrink(d, k, cut)
  }

  lemma ThreeSteps(data: seq<Byte>, i: nat, j: nat, k: nat, cut: nat)
    ensures ShrinkAll(data, [i, j, k], cut) ==
      if Shrink(data, i, cut).None? then None else ShrinkTwo(Shrink(data, i, cut).value, j, k, cut)
  {
    assert [i][..0] == [] && [i, j][..1] == [i] && [i, j, k][..2] == [i, j];
    assert ShrinkAll(data, [], cut) == Some(data);
    var one := ShrinkAll(data, [i], cut);
    assert one == Shrink(data, i, cut);
    var two := ShrinkAll(data, [i, j], cut);
    assert two == if one.None? then None else Shrink(one.value, j, cut);
  }

  lemma ShrinkLastTwo(p: Parts, data: seq<Byte>, j: nat, k: nat, v: nat, w: nat, cut: nat) returns (q: Parts, d: seq<Byte>)
    requires LenOk(p.a3Len, v) && LenOk(p.innerLen, w) && cut <= v && cut <= w
    requires data == Bytes(p) && j == A3At(p) + 1 && k == InnerAt(p) + 1
    ensures q == p.(a3Len := q.a3Len, innerLen := q.innerLen) && SameForm(p.a3Len, q.a3Len) && SameForm(p.innerLen, q.innerLen)
    ensures LenOk(q.a3Len, v - cut) && LenOk(q.innerLen, w - cut) && d == Bytes(q)
    ensures ShrinkTwo(data, j, k, cut) == if |p.a3Len| <= 9 && |p.innerLen| <= 9 then Some(d) else None
  {
    var n, d1 := ShrinkA3(p, j, v, cut);
    var p1 := p.(a3Len := n);
    var m;
    m, d := ShrinkInner(p1, k, w, cut);
    q := p1.(innerLen := m);
  }

  /** The three length fields that enclose an extension. */
  function Enclosing(p: Parts): seq<nat> {
    [1, A3At(p) + 1, InnerAt(p) + 1]
  }

  /** None of the three enclosing length fields has more than eight octets after its first. */
  predicate Rewritable(p: Parts) {
    |p.outerLen| <= 9 && |p.a3Len| <= 9 && |p.innerLen| <= 9
  }

  /** The same parts with length fields of the same form that make room for `cut` bytes less. */
  predicate Resized(p: Parts, q: Parts, cut: nat) {
    && q == p.(outerLen := q.outerLen, a3Len := q.a3Len, innerLen := q.innerLen)
    && SameForm(p.outerLen, q.outerLen) && SameForm(p.a3Len, q.a3Len) && SameForm(p.innerLen, q.innerLen)
    && cut <= |p.exts|
    && LenOk(q.outerLen, ContentSize(p) - cut) && LenOk(q.a3Len, InnerSize(p) - cut) && LenOk(q.innerLen, |p.exts| - cut)
  }

  lemma LengthsShrunk(data: seq<Byte>, p: Parts, cut: nat) returns (q: Parts, d: seq<Byte>)
    requires data == Bytes(p) && PartsOk(p) && cut <= |p.exts|
    ensures Resized(p, q, cut) && d == Bytes(q)
    ensures ShrinkAll(data, Enclosing(p), cut) == if Rewritable(p) then Some(d) else None
  {
    var j, k := A3At(p) + 1, InnerAt(p) + 1;
    ThreeSteps(data, 1, j, k, cut);
    var n, d1 := ShrinkOuter(p, ContentSize(p), cut);
    var p1 := p.(outerLen := n);
    q, d := ShrinkLastTwo(p1, d1, j, k, InnerSize(p), |p.exts|, cut);
  }

  // ---- splicing the extension out ----

  lemma DrainInside(a: seq<Byte>, e1: seq<Byte>, e: seq<Byte>, e2: seq<Byte>, b: seq<Byte>, data: seq<Byte>, start: nat)
    requires data == a + (e1 + (e + e2)) + b && start == |a| + |e1|
    ensures start + |e| <= |data| && data[..start] + data[start + |e|..] == a + (e1 + e2) + b
  {
    assert data[..start] == a + e1;
    assert data[start + |e|..] == e2 + b;
  }

  lemma BytesDrained(p: Parts, e1: seq<Byte>, e: seq<Byte>, e2: seq<Byte>, d: seq<Byte>, start: nat)
    requires d == Bytes(p) && p.exts == e1 + (e + e2) && start == ExtsAt(p) + |e1|
    ensures start + |e| <= |d| && d[..start] + d[start + |e|..] == Bytes(p.(exts := e1 + e2))
  {
    var s := Segments(p);
    Offsets(p);
    ConcatAround(s, 7);
    ConcatReplaced(s, 7, e1 + e2);
    assert s[7 := e1 + e2] == Segments(p.(exts := e1 + e2));
    DrainInside(Concat(s[..7]), e1, e, e2, Concat(s[8..]), d, start);
  }

  lemma DrainedOk(p: Parts, q: Parts, e1: seq<Byte>, e: seq<Byte>, e2: seq<Byte>)
    requires PartsOk(p) && p.exts == e1 + (e + e2) && Resized(p, q, |e|)
    ensures PartsOk(q.(exts := e1 + e2)) && ExtsAt(q) == ExtsAt(p)
  {
    var u := q.(exts := e1 + e2);
    assert InnerSize(u) == InnerSize(p) - |e| && ContentSize(u) == ContentSize(p) - |e|;
  }

  lemma RemovedIs(data: seq<Byte>, p: Parts, fits: bool, d: seq<Byte>, start: nat, total: nat, out: seq<Byte>)
    requires Locate(data) == Some((A3At(p), InnerAt(p))) && ShrinkAll(data, Enclosing(p), total) == if fits then Some(d) else None
    requires start + total <= |d| && out == d[..start] + d[start + total..]
    ensures Removed(data, start, total) == if fits then Some(out) else None
  {
  }

  lemma PartsSpliced(data: seq<Byte>, p: Parts, start: nat, e1: seq<Byte>, e: seq<Byte>, e2: seq<Byte>)
    returns (u: Parts, d: seq<Byte>)
    requires data == Bytes(p) && PartsOk(p) && p.exts == e1 + (e + e2) && start == ExtsAt(p) + |e1|
    ensures u == p.(outerLen := u.outerLen, a3Len := u.a3Len, innerLen := u.innerLen, exts := e1 + e2) && PartsOk(u)
    ensures SameForm(p.outerLen, u.outerLen) && SameForm(p.a3Len, u.a3Len) && SameForm(p.innerLen, u.innerLen)
    ensures ShrinkAll(data, Enclosing(p), |e|) == if Rewritable(p) then Some(d) else None
    ensures start + |e| <= |d| && d[..start] + d[start + |e|..] == Bytes(u)
  {
    var q;
    q, d := LengthsShrunk(data, p, |e|);
    DrainedOk(p, q, e1, e, e2);
    BytesDrained(q, e1, e, e2, d, start);
    u := q.(exts := e1 + e2);
  }

  lemma PartsRemoved(data: seq<Byte>, p: Parts, start: nat, e1: seq<Byte>, e: seq<Byte>, e2: seq<Byte>)
    returns (u: Parts, out: seq<Byte>)
    requires Locate(data) == Some((A3At(p), InnerAt(p))) && start == ExtsAt(p) + |e1|
    requires data == Bytes(p) && PartsOk(p) && p.exts == e1 + (e + e2)
    ensures u == p.(outerLen := u.outerLen, a3Len := u.a3Len, innerLen := u.innerLen, exts := e1 + e2) && PartsOk(u)
    ensures SameForm(p.outerLen, u.outerLen) && SameForm(p.a3Len, u.a3Len) && SameForm(p.innerLen, u.innerLen)
    ensures out == Bytes(u) && Removed(data, start, |e|) == if Rewritable(p) then Some(out) else None
  {
    var d;
    u, d := PartsSpliced(data, p, start, e1, e, e2);
    out := d[..start] + d[start + |e|..];
    RemovedIs(data, p, Rewritable(p), d, start, |e|, out);
  }

  // ---- theorems ----

  /** Where extension `k` starts. */
  function Start(t: Cert, k: nat): nat
    requires k <= |t.exts|
  {
    ExtsAt(PartsOf(t)) + |PrintAll(t.exts[..k])|
  }

  /** The same fields and extensions except extension `k`, the three lengths in their old form. */
  predicate Without(t: Cert, k: nat, u: Cert) {
    && k < |t.exts|
    && u == t.(outerLen := u.outerLen, a3Len := u.a3Len, innerLen := u.innerLen, exts := t.exts[..k] + t.exts[k + 1..])
    && SameForm(t.outerLen, u.outerLen) && SameForm(t.a3Len, u.a3Len) && SameForm(t.innerLen, u.innerLen)
  }

  lemma WithoutFrom(t: Cert, k: nat, p: Parts) returns (u: Cert)
    requires k < |t.exts| && AllOk(t.exts)
    requires p == PartsOf(t).(outerLen := p.outerLen, a3Len := p.a3Len, innerLen := p.innerLen,
                              exts := PrintAll(t.exts[..k]) + PrintAll(t.exts[k + 1..]))
    requires SameForm(t.outerLen, p.outerLen) && SameForm(t.a3Len, p.a3Len) && SameForm(t.innerLen, p.innerLen)
    ensures Without(t, k, u) && AllOk(u.exts) && PartsOf(u) == p
  {
    u := Cert(p.outerLen, t.before, p.a3Len, p.innerLen, t.exts[..k] + t.exts[k + 1..], t.after);
    PrintAllAppend(t.exts[..k], t.exts[k + 1..]);
  }

  lemma CertLocated(t: Cert)
    requires WellFormed(t)
    ensures Locate(PrintCert(t)) == Some((A3At(PartsOf(t)), InnerAt(PartsOf(t))))
  {
    BytesLocated(PrintCert(t), PartsOf(t), t.before);
  }

  /**
   Removing any extension from the bytes of any well-formed body, printed with short or long
   lengths in any mixture, gives the bytes of the well-formed body without that extension; it
   panics exactly when an enclosing length field has more than eight octets after its first.
   */
  lemma ExtensionRemoved(t: Cert, k: nat) returns (u: Cert, out: seq<Byte>)
    requires WellFormed(t) && k < |t.exts|
    ensures Removed(PrintCert(t), Start(t, k), |Print(t.exts[k])|) == if Rewritable(PartsOf(t)) then Some(out) else None
    ensures WellFormed(u) && Without(t, k, u) && out == PrintCert(u)
  {
    CertLocated(t);
    PrintAllAround(t.exts, k);
    var p;
    p, out := PartsRemoved(PrintCert(t), PartsOf(t), Start(t, k), PrintAll(t.exts[..k]), Print(t.exts[k]), PrintAll(t.exts[k + 1..]));
    u := WithoutFrom(t, k, p);
  }
}
