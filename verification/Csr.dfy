/**
 The structural PKCS#10 parser (crates/tbor_test_harness/src/x509_fixture.rs; sections 4.1 and 4.2
 of RFC 2986): it inverts printing, whatever definite length forms the request is printed with.
 */
module Csr {
  import opened Common
  import opened Der

  const SEC1_PUB_LEN: nat := 97

  /** The first field of `der`: its contents and what follows it. */
  datatype Split = Split(tag: Byte, body: seq<Byte>, rest: seq<Byte>)

  function Next(der: seq<Byte>): Option<Split> {
    match Tlv(der)
    case None => None
    case Some((tag, body, rest)) => Some(Split(tag, body, rest))
  }

  /** Past the two enclosing SEQUENCEs and the version: where the subject starts. */
  function AfterVersion(csr: seq<Byte>): Option<seq<Byte>> {
    var request := Next(csr);
    if request.None? then None
    else
      var info := Next(request.value.body);
      if info.None? then None
      else
        var version := Next(info.value.body);
        if version.None? then None else Some(version.value.rest)
  }

  /** The subject public key from the fields after the version: the last step checks its shape. */
  function PubAfterVersion(fields: seq<Byte>): Option<seq<Byte>> {
    var subject := Next(fields);
    if subject.None? then None
    else
      var spki := Next(subject.value.rest);
      if spki.None? then None
      else
        var algorithm := Next(spki.value.body);
        if algorithm.None? then None
        else
          var key := Next(algorithm.value.rest);
          if key.None? then None else PointOf(key.value.tag, key.value.body)
  }

  function PointOf(tag: Byte, bits: seq<Byte>): Option<seq<Byte>> {
    if tag != 0x03 || bits == [] || |bits[1..]| != SEC1_PUB_LEN || bits[1] != 0x04 then None else Some(bits[1..])
  }

  /** `pta_pub_from_csr`. */
  function PubFromCsr(csr: seq<Byte>): Option<seq<Byte>> {
    match AfterVersion(csr)
    case None => None
    case Some(fields) => PubAfterVersion(fields)
  }

  /** `pta_subject_from_csr`. */
  function SubjectFromCsr(csr: seq<Byte>): Option<seq<Byte>> {
    match AfterVersion(csr)
    case None => None
    case Some(fields) =>
      var subject := Next(fields);
      if subject.None? || |subject.value.rest| > |fields| then None
      else Some(fields[..|fields| - |subject.value.rest|])
  }

  // ---- printing a request ----

  /** Tag and length field of a SEQUENCE. */
  datatype Header = Header(tag: Byte, len: seq<Byte>)

  /** `attributes`, `signature` and `trailing` stand for the bytes the parser never looks at. */
  datatype Request = Request(outer: Header, info: Header, version: Field, subject: Field, spki: Header,
                             algorithm: Field, key: Field, attributes: seq<Byte>, signature: seq<Byte>, trailing: seq<Byte>)

  function Spki(c: Request): Field {
    Field(c.spki.tag, c.spki.len, Print(c.algorithm) + Print(c.key))
  }

  /** The fields of the request information after the version. */
  function Fields(c: Request): seq<Byte> {
    Print(c.subject) + (Print(Spki(c)) + c.attributes)
  }

  function Info(c: Request): Field {
    Field(c.info.tag, c.info.len, Print(c.version) + Fields(c))
  }

  function Outer(c: Request): Field {
    Field(c.outer.tag, c.outer.len, Print(Info(c)) + c.signature)
  }

  function PrintRequest(c: Request): seq<Byte> {
    Print(Outer(c)) + c.trailing
  }

  predicate WellFormed(c: Request) {
    && FieldOk(Outer(c)) && FieldOk(Info(c)) && FieldOk(c.version) && FieldOk(c.subject)
    && FieldOk(Spki(c)) && FieldOk(c.algorithm) && FieldOk(c.key)
  }

  // ---- parsing inverts printing ----

  lemma NextPrinted(f: Field, rest: seq<Byte>)
    requires FieldOk(f)
    ensures Next(Print(f) + rest) == Some(Split(f.tag, f.body, rest))
  {
    TlvPrinted(f, rest);
  }

  lemma AfterVersionPrinted(c: Request)
    requires WellFormed(c)
    ensures AfterVersion(PrintRequest(c)) == Some(Fields(c))
  {
    NextPrinted(Outer(c), c.trailing);
    NextPrinted(Info(c), c.signature);
    NextPrinted(c.version, Fields(c));
  }

  lemma PubPrinted(c: Request)
    requires WellFormed(c)
    ensures PubAfterVersion(Fields(c)) == PointOf(c.key.tag, c.key.body)
  {
    NextPrinted(c.subject, Print(Spki(c)) + c.attributes);
    NextPrinted(Spki(c), c.attributes);
    NextPrinted(c.algorithm, Print(c.key));
    NextPrinted(c.key, []);
    assert Print(c.key) + [] == Print(c.key);
  }

  /**
   From every printed request the parser takes exactly the encoded point, and it refuses exactly
   the requests whose key is not a BIT STRING of one octet and a 97-byte uncompressed point.
   */
  lemma PubOfPrinted(c: Request, unused: Byte, point: seq<Byte>)
    requires WellFormed(c) && c.key.body == [unused] + point
    ensures PubFromCsr(PrintRequest(c))
      == if c.key.tag == 0x03 && |point| == SEC1_PUB_LEN && point[0] == 0x04 then Some(point) else None
  {
    AfterVersionPrinted(c);
    PubPrinted(c);
    assert c.key.body[1..] == point;
  }

  /** From every printed request the parser takes the whole subject field, header included. */
  lemma SubjectOfPrinted(c: Request)
    requires WellFormed(c)
    ensures SubjectFromCsr(PrintRequest(c)) == Some(Print(c.subject))
  {
    AfterVersionPrinted(c);
    var rest := Print(Spki(c)) + c.attributes;
    NextPrinted(c.subject, rest);
    assert Fields(c)[..|Fields(c)| - |rest|] == Print(c.subject);
  }
}
