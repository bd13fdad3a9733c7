/** The control file shared by the host and the guest of a staged scenario: a
    header sector, a command sector, a status sector and zeros. Every sector
    in use is a 64-byte prefix, its SHA-256 digest and zeros; the digest is a
    parameter, any function to 32 bytes. */
module StagedSector {
  import opened Bytes
  import Wire

  const SECTOR: nat := 512
  const CONTROL: nat := 4096
  const PREFIX: nat := 64
  const PADDING: nat := 416
  const TAIL: nat := 2560
  const ROLE_COMMAND: byte := 1
  const ROLE_STATUS: byte := 2
  const PROCEED: byte := 1

  const RECORD_MAGIC: seq<byte> := [0x42, 0x42, 0x53, 0x54, 0x52, 0x45, 0x43, 0x31]
  const HEADER_MAGIC: seq<byte> := [0x42, 0x42, 0x53, 0x54, 0x47, 0x56, 0x4D, 0x31]

  datatype Option<T> = None | Some(value: T)

  datatype Scenario = Startup | Runtime | Restore

  function Code(s: Scenario): byte {
    match s case Startup => 1 case Runtime => 2 case Restore => 3
  }

  function ScenarioOf(n: byte): (s: Option<Scenario>)
    ensures s.Some? <==> 1 <= n <= 3
    ensures s.Some? ==> Code(s.value) == n
  {
    if n == 1 then Some(Startup) else if n == 2 then Some(Runtime) else if n == 3 then Some(Restore) else None
  }

  function Cycles(s: Scenario): byte { if s.Runtime? then 1 else 2 }

  predicate Nonce(n: seq<byte>) { |n| == 32 && !Wire.AllZero(n) }

  datatype Record = Record(role: int, scenario: Scenario, kind: int, sequence: int, nonce: seq<byte>) {
    /** What `encode_record` accepts. */
    predicate Valid() {
      && (role == ROLE_COMMAND || role == ROLE_STATUS)
      && 1 <= kind <= 255
      && 1 <= sequence < Wire.TWO64
      && Nonce(nonce)
    }
  }

  // ----- sealed sectors -----

  function Seal(prefix: seq<byte>, sha: Wire.Sha): seq<byte> {
    prefix + sha(prefix) + Zeros(PADDING)
  }

  predicate Sealed(v: seq<byte>, sha: Wire.Sha)
    requires |v| == SECTOR
  {
    v[PREFIX..PREFIX + 32] == sha(v[..PREFIX]) && Wire.AllZero(v[PREFIX + 32..])
  }

  lemma SealedIsSeal(v: seq<byte>, sha: Wire.Sha)
    requires Wire.Digests(sha) && |v| == SECTOR
    ensures Sealed(v, sha) <==> v == Seal(v[..PREFIX], sha)
  {
    assert |sha(v[..PREFIX])| == 32;
    assert v == v[..PREFIX] + v[PREFIX..PREFIX + 32] + v[PREFIX + 32..];
    if Wire.AllZero(v[PREFIX + 32..]) {
      assert v[PREFIX + 32..] == Zeros(PADDING);
    }
    var s := Seal(v[..PREFIX], sha);
    assert s[PREFIX..PREFIX + 32] == sha(v[..PREFIX]) && s[PREFIX + 32..] == Zeros(PADDING);
  }

  lemma SealSlices(prefix: seq<byte>, sha: Wire.Sha)
    requires Wire.Digests(sha) && |prefix| == PREFIX
    ensures |Seal(prefix, sha)| == SECTOR && Seal(prefix, sha)[..PREFIX] == prefix && Sealed(Seal(prefix, sha), sha)
  {
    assert |sha(prefix)| == 32;
    SealedIsSeal(Seal(prefix, sha), sha);
  }

  // ----- records -----

  function RecordPrefix(r: Record): (p: seq<byte>)
    requires r.Valid()
    ensures |p| == PREFIX
  {
    RECORD_MAGIC + [0, 1, r.role, Code(r.scenario), r.kind, 0, 0, 0]
    + BigEndian(r.sequence, 8) + r.nonce + Zeros(8)
  }

  function Encode(r: Record, sha: Wire.Sha): Option<seq<byte>> {
    if r.Valid() then Some(Seal(RecordPrefix(r), sha)) else None
  }

  /** What `decode_record` with `allow_empty` makes of a sector. */
  datatype Reading = Bad | Empty | Holds(record: Record)

  function DecodePrefix(p: seq<byte>): Reading
    requires |p| == PREFIX
  {
    var role: int, kind: int := p[10], p[12];
    if ScenarioOf(p[11]).None? then Bad
    else if p[..8] != RECORD_MAGIC || FromBigEndian(p[8..10]) != 1 || (role != ROLE_COMMAND && role != ROLE_STATUS)
            || kind == 0 || FromBigEndian(p[16..24]) == 0 || !Nonce(p[24..56])
            || !Wire.AllZero(p[13..16]) || !Wire.AllZero(p[56..]) then Bad
    else Holds(Record(role, ScenarioOf(p[11]).value, kind, FromBigEndian(p[16..24]), p[24..56]))
  }

  function Decode(v: seq<byte>, sha: Wire.Sha): Reading {
    if |v| != SECTOR then Bad
    else if Wire.AllZero(v) then Empty
    else if !Sealed(v, sha) then Bad
    else DecodePrefix(v[..PREFIX])
  }

  /** The fields of a prefix, cut out again. */
  lemma PrefixSlices(r: Record)
    requires r.Valid()
    ensures var p := RecordPrefix(r);
            && p[..8] == RECORD_MAGIC && p[8..10] == [0, 1] && p[10] == r.role && p[11] == Code(r.scenario)
            && p[12] == r.kind && p[13..16] == [0, 0, 0] && p[16..24] == BigEndian(r.sequence, 8)
            && p[24..56] == r.nonce && p[56..] == Zeros(8)
  {
    hide BigEndian;
  }

  lemma VersionBytes(s: seq<byte>)
    requires |s| == 2
    ensures FromBigEndian(s) == 1 <==> s == [0, 1]
  {
    var a: int, b: int := s[0], s[1];
    assert s[..1] == [a] && FromBigEndian([]) == 0;
    assert FromBigEndian([a]) == a by {
      assert [a][..0] == [];
    }
    assert FromBigEndian(s) == 256 * a + b;
  }

  lemma DecodePrefixBack(r: Record)
    requires r.Valid()
    ensures DecodePrefix(RecordPrefix(r)) == Holds(r)
  {
    hide BigEndian, FromBigEndian, RecordPrefix, Pow256;
    PrefixSlices(r);
    VersionBytes([0, 1]);
    Wire.PowersOf256();
    BigEndianRoundTrip(r.sequence, 8);
  }

  lemma PrefixBack(p: seq<byte>)
    requires |p| == PREFIX && DecodePrefix(p).Holds?
    ensures DecodePrefix(p).record.Valid() && RecordPrefix(DecodePrefix(p).record) == p
  {
    hide BigEndian, FromBigEndian, Pow256;
    var r := DecodePrefix(p).record;
    VersionBytes(p[8..10]);
    Wire.BigEndianBound(p[16..24]);
    FromBigEndianRoundTrip(p[16..24]);
    assert r.Valid();
    assert p[8..16] == [0, 1, r.role, Code(r.scenario), r.kind, 0, 0, 0];
    assert p[56..] == Zeros(8);
    assert p == p[..8] + p[8..16] + p[16..24] + p[24..56] + p[56..];
  }

  lemma RecordNotZero(r: Record, sha: Wire.Sha)
    requires r.Valid()
    ensures !Wire.AllZero(Seal(RecordPrefix(r), sha))
  {
    hide BigEndian;
    assert Seal(RecordPrefix(r), sha)[0] == 0x42;
  }

  /** Encoding accepts exactly the valid records, and decoding inverts it. */
  lemma DecodeEncode(r: Record, sha: Wire.Sha)
    requires Wire.Digests(sha)
    ensures Encode(r, sha).Some? <==> r.Valid()
    ensures r.Valid() ==> |Encode(r, sha).value| == SECTOR && Decode(Encode(r, sha).value, sha) == Holds(r)
  {
    if r.Valid() {
      hide RecordPrefix, DecodePrefix, Seal, Sealed;
      SealSlices(RecordPrefix(r), sha);
      RecordNotZero(r, sha);
      DecodePrefixBack(r);
    }
  }

  /** A sector that decodes to a record is that record's only encoding. */
  lemma EncodeDecode(v: seq<byte>, sha: Wire.Sha)
    requires Wire.Digests(sha)
    ensures Decode(v, sha).Holds? ==> Decode(v, sha).record.Valid() && Encode(Decode(v, sha).record, sha) == Some(v)
    ensures Decode(v, sha).Empty? <==> v == Zeros(SECTOR)
  {
    if Decode(v, sha).Holds? {
      hide RecordPrefix, DecodePrefix, Seal, Sealed;
      PrefixBack(v[..PREFIX]);
      SealedIsSeal(v, sha);
    }
  }

  // ----- headers -----

  datatype Header = Header(scenario: Scenario, cycles: byte, nonce: seq<byte>)

  function HeaderPrefix(s: Scenario, nonce: seq<byte>): (p: seq<byte>)
    requires Nonce(nonce)
    ensures |p| == PREFIX
  {
    HEADER_MAGIC + [0, 1, Code(s), Cycles(s), 0, 0, 0, 0] + nonce + Zeros(16)
  }

  function EncodeHeader(s: Scenario, nonce: seq<byte>, sha: Wire.Sha): Option<seq<byte>> {
    if Nonce(nonce) then Some(Seal(HeaderPrefix(s, nonce), sha)) else None
  }

  function DecodeHeaderPrefix(p: seq<byte>): Option<Header>
    requires |p| == PREFIX
  {
    if ScenarioOf(p[10]).None? then None
    else
      var s := ScenarioOf(p[10]).value;
      if p[..8] != HEADER_MAGIC || FromBigEndian(p[8..10]) != 1 || p[11] != Cycles(s)
         || !Wire.AllZero(p[12..16]) || !Nonce(p[16..48]) || !Wire.AllZero(p[48..]) then None
      else Some(Header(s, Cycles(s), p[16..48]))
  }

  function DecodeHeader(v: seq<byte>, sha: Wire.Sha): Option<Header> {
    if |v| != SECTOR || !Sealed(v, sha) then None else DecodeHeaderPrefix(v[..PREFIX])
  }

  lemma HeaderSlices(s: Scenario, nonce: seq<byte>)
    requires Nonce(nonce)
    ensures DecodeHeaderPrefix(HeaderPrefix(s, nonce)) == Some(Header(s, Cycles(s), nonce))
  {
    hide FromBigEndian;
    var p := HeaderPrefix(s, nonce);
    assert p[..8] == HEADER_MAGIC && p[8..10] == [0, 1] && p[16..48] == nonce && p[48..] == Zeros(16);
    assert p[10] == Code(s) && p[11] == Cycles(s) && p[12..16] == [0, 0, 0, 0];
    VersionBytes(p[8..10]);
  }

  lemma HeaderBack(p: seq<byte>)
    requires |p| == PREFIX && DecodeHeaderPrefix(p).Some?
    ensures var h := DecodeHeaderPrefix(p).value; Nonce(h.nonce) && HeaderPrefix(h.scenario, h.nonce) == p
  {
    hide FromBigEndian;
    var h := DecodeHeaderPrefix(p).value;
    VersionBytes(p[8..10]);
    assert p[8..16] == [0, 1, Code(h.scenario), Cycles(h.scenario), 0, 0, 0, 0];
    assert p[48..] == Zeros(16);
    assert p == p[..8] + p[8..16] + p[16..48] + p[48..];
  }

  /** A sector decodes to the header of this scenario and nonce exactly when
      it is the sector `encode_header` writes for them. */
  lemma HeaderExactly(v: seq<byte>, s: Scenario, nonce: seq<byte>, sha: Wire.Sha)
    requires Wire.Digests(sha) && Nonce(nonce)
    ensures EncodeHeader(s, nonce, sha).Some? && |EncodeHeader(s, nonce, sha).value| == SECTOR
    ensures DecodeHeader(v, sha) == Some(Header(s, Cycles(s), nonce)) <==> Some(v) == EncodeHeader(s, nonce, sha)
  {
    hide HeaderPrefix, DecodeHeaderPrefix, Seal, Sealed;
    SealSlices(HeaderPrefix(s, nonce), sha);
    HeaderSlices(s, nonce);
    if DecodeHeader(v, sha).Some? {
      HeaderBack(v[..PREFIX]);
      SealedIsSeal(v, sha);
    }
  }

  // ----- where an encoded sector keeps what -----

  /** A record's sector, byte by byte: role 1 for commands and 2 for statuses. */
  lemma RecordLayout(r: Record, sha: Wire.Sha)
    requires Wire.Digests(sha)
    ensures Encode(r, sha).Some? <==>
              && (r.role == 1 || r.role == 2) && 1 <= r.kind <= 255 && 1 <= r.sequence < 0x1_0000_0000_0000_0000
              && |r.nonce| == 32 && exists i | 0 <= i < 32 :: r.nonce[i] != 0
    ensures Encode(r, sha).Some? ==> |Encode(r, sha).value| == 512
    ensures Encode(r, sha).Some? ==>
              var b := Encode(r, sha).value;
              && b[..8] == [0x42, 0x42, 0x53, 0x54, 0x52, 0x45, 0x43, 0x31] && b[8..10] == [0, 1]
              && b[10] == r.role && b[11] == (match r.scenario case Startup => 1 case Runtime => 2 case Restore => 3)
              && b[12] == r.kind && b[13..16] == Zeros(3) && Octets(b[16..24], r.sequence) && b[24..56] == r.nonce
              && b[56..64] == Zeros(8) && b[64..96] == sha(b[..64]) && b[96..] == Zeros(416)
  {
    if r.Valid() {
      hide Octets, RecordPrefix, BigEndian;
      var b, p := Encode(r, sha).value, RecordPrefix(r);
      PrefixSlices(r);
      SealParts(p, sha);
      BigEndianOctets(r.sequence, 8);
      assert b[..8] == p[..8] && b[8..10] == p[8..10] && b[10] == p[10] && b[11] == p[11] && b[12] == p[12];
      assert b[13..16] == p[13..16] && b[16..24] == p[16..24] && b[24..56] == p[24..56] && b[56..64] == p[56..64];
    }
  }

  lemma SealParts(p: seq<byte>, sha: Wire.Sha)
    requires Wire.Digests(sha) && |p| == 64
    ensures var b := Seal(p, sha);
            && |b| == 512 && b[..64] == p && b[64..96] == sha(p) && b[96..] == Zeros(416)
            && forall i | 0 <= i < 64 :: b[i] == p[i]
  {
    assert |sha(p)| == 32;
  }

  /** The header sector, byte by byte: two cycles, but one for `Runtime`. */
  lemma HeaderLayout(s: Scenario, nonce: seq<byte>, sha: Wire.Sha)
    requires Wire.Digests(sha) && Nonce(nonce)
    ensures EncodeHeader(s, nonce, sha).Some? && |EncodeHeader(s, nonce, sha).value| == 512
    ensures var b := EncodeHeader(s, nonce, sha).value;
            && b[..8] == [0x42, 0x42, 0x53, 0x54, 0x47, 0x56, 0x4D, 0x31] && b[8..10] == [0, 1]
            && b[10..12] == (match s case Startup => [1, 2] case Runtime => [2, 1] case Restore => [3, 2])
            && b[12..16] == Zeros(4) && b[16..48] == nonce && b[48..64] == Zeros(16)
            && b[64..96] == sha(b[..64]) && b[96..] == Zeros(416)
  {
    SealParts(HeaderPrefix(s, nonce), sha);
    var b, p := EncodeHeader(s, nonce, sha).value, HeaderPrefix(s, nonce);
    assert p[..8] == HEADER_MAGIC && p[8..10] == [0, 1] && p[16..48] == nonce && p[48..] == Zeros(16);
    assert b[8..10] == p[8..10] && b[16..48] == p[16..48] && b[48..64] == p[48..];
    assert b[..8] == p[..8];
  }
}
