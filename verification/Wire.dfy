/** The fixed-size record and the argument vector of the elevated handoff
    protocol. SHA-256 is a parameter: any function to 32 bytes. */
module Wire {
  import opened Bytes

  const RECORD_BYTES: nat := 4096
  const PREFIX: nat := 96
  const DIGEST: nat := 32
  const PAYLOAD_OFFSET: nat := 128
  const MAX_PAYLOAD: nat := 3968
  const MAX_DESCRIPTORS: nat := 4
  const TWO64: int := 0x1_0000_0000_0000_0000
  const TWO63: int := 0x8000_0000_0000_0000

  const MAGIC: seq<byte> := [0x42, 0x42, 0x45, 0x48, 0x30, 0x30, 0x30, 0x31]

  // ----- packed structures -----

  function Sum(widths: seq<nat>): nat {
    if widths == [] then 0 else widths[0] + Sum(widths[1..])
  }

  function Join(parts: seq<seq<byte>>): seq<byte> {
    if parts == [] then [] else parts[0] + Join(parts[1..])
  }

  /** `struct.unpack`, as raw fields. */
  function Split(b: seq<byte>, widths: seq<nat>): (parts: seq<seq<byte>>)
    requires |b| == Sum(widths)
    ensures |parts| == |widths|
  {
    if widths == [] then [] else [b[..widths[0]]] + Split(b[widths[0]..], widths[1..])
  }

  predicate Shaped(parts: seq<seq<byte>>, widths: seq<nat>) {
    |parts| == |widths| && forall i | 0 <= i < |parts| :: |parts[i]| == widths[i]
  }

  lemma {:induction false} SplitShaped(b: seq<byte>, widths: seq<nat>)
    requires |b| == Sum(widths)
    ensures Shaped(Split(b, widths), widths) && Join(Split(b, widths)) == b
  {
    if widths != [] {
      var rest := Split(b[widths[0]..], widths[1..]);
      SplitShaped(b[widths[0]..], widths[1..]);
      assert Split(b, widths)[1..] == rest;
      assert b == b[..widths[0]] + b[widths[0]..];
    }
  }

  lemma {:induction false} SplitJoin(parts: seq<seq<byte>>, widths: seq<nat>)
    requires Shaped(parts, widths)
    ensures |Join(parts)| == Sum(widths) && Split(Join(parts), widths) == parts
  {
    if parts != [] {
      assert Shaped(parts[1..], widths[1..]);
      SplitJoin(parts[1..], widths[1..]);
      assert Join(parts)[..widths[0]] == parts[0] && Join(parts)[widths[0]..] == Join(parts[1..]);
    }
  }

  // ----- records -----

  datatype Role = Supervisor | Controller

  datatype Kind =
    | Welcome | Ready | Spawn | Spawned | Poll | Wait | Running | Exited | Term | Kill | Close | Closed
    | Finish | Finished | Failure

  datatype Option<T> = None | Some(value: T)

  function RoleCode(r: Role): nat { if r.Supervisor? then 1 else 2 }

  function RoleOf(n: nat): Option<Role> {
    if n == 1 then Some(Supervisor) else if n == 2 then Some(Controller) else None
  }

  function KindCode(k: Kind): (n: nat)
    ensures n < 32
  {
    match k
    case Welcome => 1 case Ready => 2 case Spawn => 10 case Spawned => 11 case Poll => 12 case Wait => 13
    case Running => 14 case Exited => 15 case Term => 16 case Kill => 17 case Close => 18 case Closed => 19
    case Finish => 20 case Finished => 21 case Failure => 22
  }

  function KindOf(n: nat): Option<Kind> {
    match n
    case 1 => Some(Welcome) case 2 => Some(Ready) case 10 => Some(Spawn) case 11 => Some(Spawned)
    case 12 => Some(Poll) case 13 => Some(Wait) case 14 => Some(Running) case 15 => Some(Exited)
    case 16 => Some(Term) case 17 => Some(Kill) case 18 => Some(Close) case 19 => Some(Closed)
    case 20 => Some(Finish) case 21 => Some(Finished) case 22 => Some(Failure)
    case _ => None
  }

  lemma Codes(r: Role, k: Kind)
    ensures RoleOf(RoleCode(r)) == Some(r) && KindOf(KindCode(k)) == Some(k)
  {
  }

  lemma CodesBack(n: nat)
    ensures RoleOf(n).Some? ==> RoleCode(RoleOf(n).value) == n
    ensures KindOf(n).Some? ==> KindCode(KindOf(n).value) == n
  {
  }

  datatype Record = Record(
    role: Role, kind: Kind, sequence: int, correlation: int, session: seq<byte>,
    handle: int, value: int, payload: seq<byte>, descriptors: int)
  {
    /** What `encode` accepts. */
    predicate Valid() {
      && 1 <= sequence < TWO64
      && 0 <= correlation < TWO64
      && |session| == 32
      && 0 <= handle < TWO64
      && -TWO63 <= value < TWO63
      && |payload| <= MAX_PAYLOAD
      && 0 <= descriptors <= MAX_DESCRIPTORS
    }
  }

  type Sha = seq<byte> -> seq<byte>

  ghost predicate Digests(sha: Sha) { forall s :: |sha(s)| == DIGEST }

  function ToUnsigned(v: int): nat
    requires -TWO63 <= v < TWO63
  {
    if v < 0 then v + TWO64 else v
  }

  function ToSigned(n: nat): int
    requires n < TWO64
  {
    if n < TWO63 then n else n - TWO64
  }

  /** Field widths of `!8sHHHHQQ32sQqI12s`. */
  const WIDTHS: seq<nat> := [8, 2, 2, 2, 2, 8, 8, 32, 8, 8, 4, 12]

  function Parts(r: Record): (p: seq<seq<byte>>)
    requires r.Valid()
    ensures |p| == 12
  {
    [MAGIC, BigEndian(1, 2), BigEndian(RoleCode(r.role), 2), BigEndian(KindCode(r.kind), 2),
     BigEndian(r.descriptors, 2), BigEndian(r.sequence, 8), BigEndian(r.correlation, 8), r.session,
     BigEndian(r.handle, 8), BigEndian(ToUnsigned(r.value), 8), BigEndian(|r.payload|, 4), Zeros(12)]
  }

  function Encode(r: Record, sha: Sha): Option<seq<byte>> {
    if !r.Valid() then None
    else
      var prefix := Join(Parts(r));
      Some(prefix + sha(prefix + r.payload) + r.payload + Zeros(MAX_PAYLOAD - |r.payload|))
  }

  /** The record a well-formed prefix and payload describe. */
  function FromParts(p: seq<seq<byte>>, role: Role, kind: Kind, payload: seq<byte>): Record
    requires Shaped(p, WIDTHS)
  {
    BigEndianBound(p[9]);
    Record(role, kind, FromBigEndian(p[5]), FromBigEndian(p[6]), p[7], FromBigEndian(p[8]),
           ToSigned(FromBigEndian(p[9])), payload, FromBigEndian(p[4]))
  }

  lemma BigEndianBound(s: seq<byte>)
    ensures FromBigEndian(s) < Pow256(|s|)
    ensures |s| == 8 ==> FromBigEndian(s) < TWO64
    ensures |s| == 4 ==> FromBigEndian(s) < 0x1_0000_0000
    ensures |s| == 2 ==> FromBigEndian(s) < 0x1_0000
  {
    FromBigEndianRoundTrip(s);
    PowersOf256();
  }

  lemma PowersOf256()
    ensures Pow256(2) == 0x1_0000 && Pow256(4) == 0x1_0000_0000 && Pow256(8) == TWO64
  {
    assert Pow256(4) == 0x1_0000_0000;
    assert Pow256(6) == 0x1_0000_0000_0000;
  }

  predicate AllZero(s: seq<byte>) { forall i | 0 <= i < |s| :: s[i] == 0 }

  function Decode(raw: seq<byte>, sha: Sha): Option<Record> {
    if |raw| != RECORD_BYTES then None
    else
      var p := Unpack96(raw[..PREFIX]);
      var role, kind := RoleOf(FromBigEndian(p[2])), KindOf(FromBigEndian(p[3]));
      var length := FromBigEndian(p[10]);
      if role.None? || kind.None? then None
      else if p[0] != MAGIC || FromBigEndian(p[1]) != 1 || p[11] != Zeros(12) || FromBigEndian(p[5]) == 0
              || length > MAX_PAYLOAD || FromBigEndian(p[4]) > MAX_DESCRIPTORS then None
      else
        var payload := raw[PAYLOAD_OFFSET..PAYLOAD_OFFSET + length];
        if raw[PAYLOAD_OFFSET + length..] != Zeros(MAX_PAYLOAD - length) then None
        else if raw[PREFIX..PAYLOAD_OFFSET] != sha(raw[..PREFIX] + payload) then None
        else Some(FromParts(p, role.value, kind.value, payload))
  }

  function Unpack96(b: seq<byte>): (p: seq<seq<byte>>)
    requires |b| == PREFIX
    ensures Shaped(p, WIDTHS) && Join(p) == b
  {
    WidthsSum();
    SplitShaped(b, WIDTHS);
    Split(b, WIDTHS)
  }

  lemma WidthsSum()
    ensures Sum(WIDTHS) == PREFIX
  {
    assert Sum([4, 12]) == 16;
    assert WIDTHS[10..] == [4, 12];
    assert Sum(WIDTHS[8..]) == 32;
    assert Sum(WIDTHS[6..]) == 72;
    assert Sum(WIDTHS[4..]) == 82;
    assert Sum(WIDTHS[2..]) == 86;
  }

  lemma PartsShaped(r: Record)
    requires r.Valid()
    ensures Shaped(Parts(r), WIDTHS) && |Join(Parts(r))| == PREFIX && Split(Join(Parts(r)), WIDTHS) == Parts(r)
  {
    hide BigEndian, Join, Split, Parts, Sum;
    WidthsSum();
    PartsWidths(r);
    SplitJoin(Parts(r), WIDTHS);
  }

  lemma PartsWidths(r: Record)
    requires r.Valid()
    ensures Shaped(Parts(r), WIDTHS)
  {
    hide BigEndian;
    var p := Parts(r);
    assert |p[0]| == 8 && |p[1]| == 2 && |p[2]| == 2 && |p[3]| == 2 && |p[4]| == 2 && |p[5]| == 8;
    assert |p[6]| == 8 && |p[7]| == 32 && |p[8]| == 8 && |p[9]| == 8 && |p[10]| == 4 && |p[11]| == 12;
  }

  /** The integer fields survive packing. */
  lemma PartsRead(r: Record)
    requires r.Valid()
    ensures var p := Parts(r);
            && FromBigEndian(p[1]) == 1
            && FromBigEndian(p[2]) == RoleCode(r.role) && FromBigEndian(p[3]) == KindCode(r.kind)
            && FromBigEndian(p[4]) == r.descriptors && FromBigEndian(p[5]) == r.sequence
            && FromBigEndian(p[6]) == r.correlation && FromBigEndian(p[8]) == r.handle
            && FromBigEndian(p[9]) == ToUnsigned(r.value) && FromBigEndian(p[10]) == |r.payload|
  {
    hide BigEndian, FromBigEndian, Pow256;
    PowersOf256();
    BigEndianRoundTrip(1, 2);
    BigEndianRoundTrip(RoleCode(r.role), 2);
    BigEndianRoundTrip(KindCode(r.kind), 2);
    BigEndianRoundTrip(r.descriptors, 2);
    BigEndianRoundTrip(r.sequence, 8);
    BigEndianRoundTrip(r.correlation, 8);
    BigEndianRoundTrip(r.handle, 8);
    BigEndianRoundTrip(ToUnsigned(r.value), 8);
    BigEndianRoundTrip(|r.payload|, 4);
  }

  /** How a record's four regions lie in its bytes. */
  lemma Regions(prefix: seq<byte>, digest: seq<byte>, payload: seq<byte>)
    requires |prefix| == PREFIX && |digest| == DIGEST && |payload| <= MAX_PAYLOAD
    ensures var raw := prefix + digest + payload + Zeros(MAX_PAYLOAD - |payload|);
            && |raw| == RECORD_BYTES
            && raw[..PREFIX] == prefix && raw[PREFIX..PAYLOAD_OFFSET] == digest
            && raw[PAYLOAD_OFFSET..PAYLOAD_OFFSET + |payload|] == payload
            && raw[PAYLOAD_OFFSET + |payload|..] == Zeros(MAX_PAYLOAD - |payload|)
  {
  }

  /** Decoding an encoded record gives the record back; encoding refuses
      exactly the records outside the field limits. */
  lemma DecodeEncode(r: Record, sha: Sha)
    requires Digests(sha)
    ensures Encode(r, sha).Some? <==> r.Valid()
    ensures r.Valid() ==> |Encode(r, sha).value| == RECORD_BYTES && Decode(Encode(r, sha).value, sha) == Some(r)
  {
    if r.Valid() {
      hide Join, Split, Parts, FromBigEndian, RoleOf, KindOf, RoleCode, KindCode;
      var prefix := Join(Parts(r));
      PartsShaped(r);
      PartsRead(r);
      Codes(r.role, r.kind);
      Regions(prefix, sha(prefix + r.payload), r.payload);
      PartsConstant(r);
    }
  }

  // ----- where an encoded record keeps what -----

  lemma Numbers()
    ensures RoleCode(Supervisor) == 1 && RoleCode(Controller) == 2
    ensures KindCode(Welcome) == 1 && KindCode(Ready) == 2 && KindCode(Spawn) == 10 && KindCode(Spawned) == 11
    ensures KindCode(Poll) == 12 && KindCode(Wait) == 13 && KindCode(Running) == 14 && KindCode(Exited) == 15
    ensures KindCode(Term) == 16 && KindCode(Kill) == 17 && KindCode(Close) == 18 && KindCode(Closed) == 19
    ensures KindCode(Finish) == 20 && KindCode(Finished) == 21 && KindCode(Failure) == 22
  {
  }

  /** Where the `i`-th field of a packed structure lies. */
  lemma {:induction false} SplitPart(b: seq<byte>, widths: seq<nat>, i: nat)
    requires |b| == Sum(widths) && i < |widths|
    ensures Sum(widths[..i]) + widths[i] <= |b|
    ensures Split(b, widths)[i] == b[Sum(widths[..i])..Sum(widths[..i]) + widths[i]]
    decreases i
  {
    if i > 0 {
      SplitPart(b[widths[0]..], widths[1..], i - 1);
      assert widths[..i][1..] == widths[1..][..i - 1];
    }
  }

  lemma Offsets()
    ensures Sum(WIDTHS[..1]) == 8 && Sum(WIDTHS[..2]) == 10 && Sum(WIDTHS[..3]) == 12 && Sum(WIDTHS[..4]) == 14
    ensures Sum(WIDTHS[..5]) == 16 && Sum(WIDTHS[..6]) == 24 && Sum(WIDTHS[..7]) == 32 && Sum(WIDTHS[..8]) == 64
    ensures Sum(WIDTHS[..9]) == 72 && Sum(WIDTHS[..10]) == 80 && Sum(WIDTHS[..11]) == 84 && Sum(WIDTHS[..0]) == 0
  {
    hide Sum;
    SumOf(WIDTHS, 0);
    SumOf(WIDTHS, 1);
    SumOf(WIDTHS, 2);
    SumOf(WIDTHS, 3);
    SumOf(WIDTHS, 4);
    SumOf(WIDTHS, 5);
    SumOf(WIDTHS, 6);
    SumOf(WIDTHS, 7);
    SumOf(WIDTHS, 8);
    SumOf(WIDTHS, 9);
    SumOf(WIDTHS, 10);
  }

  lemma {:induction false} SumOf(widths: seq<nat>, i: nat)
    requires i < |widths|
    ensures Sum(widths[..i + 1]) == Sum(widths[..i]) + widths[i] && Sum(widths[..0]) == 0
    decreases i
  {
    if i > 0 {
      SumOf(widths[1..], i - 1);
      assert widths[..i + 1][1..] == widths[1..][..i] && widths[..i][1..] == widths[1..][..i - 1];
    }
  }

  /** The fields at their places in the prefix. */
  lemma PrefixLayout(r: Record)
    requires r.Valid()
    ensures |Join(Parts(r))| == 96
    ensures var p := Join(Parts(r));
            && p[..8] == Parts(r)[0] && p[8..10] == Parts(r)[1] && p[10..12] == Parts(r)[2] && p[12..14] == Parts(r)[3]
            && p[14..16] == Parts(r)[4] && p[16..24] == Parts(r)[5] && p[24..32] == Parts(r)[6]
            && p[32..64] == Parts(r)[7] && p[64..72] == Parts(r)[8] && p[72..80] == Parts(r)[9]
            && p[80..84] == Parts(r)[10] && p[84..96] == Parts(r)[11]
  {
    hide Parts, Join, Split, Sum;
    PartsShaped(r);
    WidthsSum();
    Offsets();
    var p := Join(Parts(r));
    SplitPart(p, WIDTHS, 0);
    SplitPart(p, WIDTHS, 1);
    SplitPart(p, WIDTHS, 2);
    SplitPart(p, WIDTHS, 3);
    SplitPart(p, WIDTHS, 4);
    SplitPart(p, WIDTHS, 5);
    SplitPart(p, WIDTHS, 6);
    SplitPart(p, WIDTHS, 7);
    SplitPart(p, WIDTHS, 8);
    SplitPart(p, WIDTHS, 9);
    SplitPart(p, WIDTHS, 10);
    SplitPart(p, WIDTHS, 11);
    assert p[0..8] == p[..8];
  }

  /** An encoded record, byte by byte. */
  lemma RecordLayout(r: Record, sha: Sha)
    requires Digests(sha)
    ensures Encode(r, sha).Some? <==>
              && 1 <= r.sequence < 0x1_0000_0000_0000_0000 && 0 <= r.correlation < 0x1_0000_0000_0000_0000
              && |r.session| == 32 && 0 <= r.handle < 0x1_0000_0000_0000_0000
              && -0x8000_0000_0000_0000 <= r.value < 0x8000_0000_0000_0000
              && |r.payload| <= 3968 && 0 <= r.descriptors <= 4
    ensures Encode(r, sha).Some? ==> |Encode(r, sha).value| == 4096
    ensures Encode(r, sha).Some? ==>
              var b, n := Encode(r, sha).value, |r.payload|;
              && b[..8] == [0x42, 0x42, 0x45, 0x48, 0x30, 0x30, 0x30, 0x31]
              && Octets(b[8..10], 1) && Octets(b[10..12], RoleCode(r.role)) && Octets(b[12..14], KindCode(r.kind))
              && Octets(b[14..16], r.descriptors) && Octets(b[16..24], r.sequence) && Octets(b[24..32], r.correlation)
              && b[32..64] == r.session && Octets(b[64..72], r.handle)
              && Octets(b[72..80], if r.value < 0 then r.value + 0x1_0000_0000_0000_0000 else r.value)
              && Octets(b[80..84], n) && b[84..96] == Zeros(12)
              && b[96..128] == sha(b[..96] + r.payload) && b[128..128 + n] == r.payload
              && b[128 + n..] == Zeros(3968 - n)
  {
    if r.Valid() {
      hide Octets, Join, Parts;
      var prefix, b := Join(Parts(r)), Encode(r, sha).value;
      PrefixLayout(r);
      Regions(prefix, sha(prefix + r.payload), r.payload);
      PartsAreOctets(r);
      forall i, j | 0 <= i <= j <= 96 ensures b[i..j] == prefix[i..j] {
        assert b[i..j] == b[..96][i..j];
      }
    }
  }

  lemma PartsAreOctets(r: Record)
    requires r.Valid()
    ensures var p := Parts(r);
            && p[0] == [0x42, 0x42, 0x45, 0x48, 0x30, 0x30, 0x30, 0x31] && p[7] == r.session && p[11] == Zeros(12)
            && Octets(p[1], 1) && Octets(p[2], RoleCode(r.role)) && Octets(p[3], KindCode(r.kind))
            && Octets(p[4], r.descriptors) && Octets(p[5], r.sequence) && Octets(p[6], r.correlation)
            && Octets(p[8], r.handle)
            && Octets(p[9], if r.value < 0 then r.value + 0x1_0000_0000_0000_0000 else r.value)
            && Octets(p[10], |r.payload|)
  {
    hide Octets, BigEndian, RoleCode, KindCode;
    BigEndianOctets(1, 2);
    BigEndianOctets(RoleCode(r.role), 2);
    BigEndianOctets(KindCode(r.kind), 2);
    BigEndianOctets(r.descriptors, 2);
    BigEndianOctets(r.sequence, 8);
    BigEndianOctets(r.correlation, 8);
    BigEndianOctets(r.handle, 8);
    BigEndianOctets(ToUnsigned(r.value), 8);
    BigEndianOctets(|r.payload|, 4);
  }

  lemma PartsConstant(r: Record)
    requires r.Valid()
    ensures Parts(r)[0] == MAGIC && Parts(r)[7] == r.session && Parts(r)[11] == Zeros(12)
  {
  }

  /** Unpacked fields pack to the same bytes. */
  lemma PartsBack(p: seq<seq<byte>>, role: Role, kind: Kind, payload: seq<byte>)
    requires Shaped(p, WIDTHS)
    requires p[0] == MAGIC && FromBigEndian(p[1]) == 1 && p[11] == Zeros(12)
    requires FromBigEndian(p[2]) == RoleCode(role) && FromBigEndian(p[3]) == KindCode(kind)
    requires FromBigEndian(p[4]) <= MAX_DESCRIPTORS && FromBigEndian(p[5]) != 0
    requires FromBigEndian(p[10]) == |payload| <= MAX_PAYLOAD
    ensures var r := FromParts(p, role, kind, payload); r.Valid() && Parts(r) == p
  {
    hide BigEndian, FromBigEndian, Pow256;
    forall i | 0 <= i < 12 ensures BigEndian(FromBigEndian(p[i]), WIDTHS[i]) == p[i] {
      FromBigEndianRoundTrip(p[i]);
    }
    BigEndianBound(p[5]);
    BigEndianBound(p[6]);
    BigEndianBound(p[8]);
    BigEndianBound(p[9]);
    var r := FromParts(p, role, kind, payload);
    assert r.Valid();
    var q := Parts(r);
    assert q[1] == p[1] && q[2] == p[2] && q[3] == p[3] && q[4] == p[4];
    assert q[5] == p[5] && q[6] == p[6] && q[7] == p[7] && q[8] == p[8];
    assert q[9] == p[9] && q[10] == p[10];
  }

  /** Every accepted byte string is the encoding of the record it decodes to:
      there is one encoding per record. */
  lemma EncodeDecode(raw: seq<byte>, sha: Sha)
    requires Digests(sha) && Decode(raw, sha).Some?
    ensures Decode(raw, sha).value.Valid() && Encode(Decode(raw, sha).value, sha) == Some(raw)
  {
    hide Join, Split, Parts, FromBigEndian, RoleOf, KindOf, RoleCode, KindCode, FromParts, Unpack96;
    var p := Unpack96(raw[..PREFIX]);
    CodesBack(FromBigEndian(p[2]));
    CodesBack(FromBigEndian(p[3]));
    var length := FromBigEndian(p[10]);
    var payload := raw[PAYLOAD_OFFSET..PAYLOAD_OFFSET + length];
    var r := Decode(raw, sha).value;
    PartsBack(p, RoleOf(FromBigEndian(p[2])).value, KindOf(FromBigEndian(p[3])).value, payload);
    FromPartsPayload(p, RoleOf(FromBigEndian(p[2])).value, KindOf(FromBigEndian(p[3])).value, payload);
    assert raw == raw[..PREFIX] + raw[PREFIX..PAYLOAD_OFFSET] + payload + raw[PAYLOAD_OFFSET + length..];
  }

  lemma FromPartsPayload(p: seq<seq<byte>>, role: Role, kind: Kind, payload: seq<byte>)
    requires Shaped(p, WIDTHS)
    ensures FromParts(p, role, kind, payload).payload == payload
  {
  }

  // ----- argument vectors -----

  const MAX_ARGUMENTS: nat := 64
  const MAX_ARGUMENT: nat := 1024
  const MAX_ARGUMENT_PAYLOAD: nat := 3072

  predicate ValidArgument(a: seq<byte>) { 1 <= |a| <= MAX_ARGUMENT && 0 !in a }

  predicate AllArguments(args: seq<seq<byte>>) { forall i | 0 <= i < |args| :: ValidArgument(args[i]) }

  function Body(args: seq<seq<byte>>): (b: seq<byte>)
  {
    if args == [] then [] else Body(args[..|args| - 1]) + BigEndian(|args[|args| - 1]|, 2) + args[|args| - 1]
  }

  function ArgumentPayload(args: seq<seq<byte>>): seq<byte> { BigEndian(|args|, 2) + Body(args) }

  /** What `encode_arguments` accepts. */
  predicate ValidArguments(args: seq<seq<byte>>) {
    1 <= |args| <= MAX_ARGUMENTS && AllArguments(args) && |ArgumentPayload(args)| <= MAX_ARGUMENT_PAYLOAD
  }

  method EncodeArguments(args: seq<seq<byte>>) returns (r: Option<seq<byte>>)
    ensures r == if ValidArguments(args) then Some(ArgumentPayload(args)) else None
    ensures r.Some? <==>
              && 1 <= |args| <= 64 && (forall i | 0 <= i < |args| :: 1 <= |args[i]| <= 1024 && 0 !in args[i])
              && |ArgumentPayload(args)| <= 3072
  {
    hide BigEndian;
    if |args| == 0 || |args| > MAX_ARGUMENTS {
      return None;
    }
    var payload := BigEndian(|args|, 2);
    for i := 0 to |args|
      invariant AllArguments(args[..i])
      invariant payload == BigEndian(|args|, 2) + Body(args[..i])
    {
      var a := args[i];
      if |a| == 0 || |a| > MAX_ARGUMENT || 0 in a {
        return None;
      }
      assert args[..i + 1][..i] == args[..i];
      payload := payload + BigEndian(|a|, 2);
      payload := payload + a;
    }
    assert args[..|args|] == args;
    if |payload| > MAX_ARGUMENT_PAYLOAD {
      return None;
    }
    return Some(payload);
  }

  /** The rest of a payload read as `count` more arguments. */
  function DecodeFrom(payload: seq<byte>, offset: nat, count: nat): Option<seq<seq<byte>>>
    requires offset <= |payload|
    decreases count
  {
    if count == 0 then if offset == |payload| then Some([]) else None
    else if offset + 2 > |payload| then None
    else
      var length := FromBigEndian(payload[offset..offset + 2]);
      var at := offset + 2;
      if !(1 <= length <= MAX_ARGUMENT) || at + length > |payload| then None
      else
        var value := payload[at..at + length];
        if 0 in value then None
        else
          match DecodeFrom(payload, at + length, count - 1)
          case None => None
          case Some(rest) => Some([value] + rest)
  }

  function DecodePayload(payload: seq<byte>): Option<seq<seq<byte>>> {
    if !(2 <= |payload| <= MAX_ARGUMENT_PAYLOAD) then None
    else
      var count := FromBigEndian(payload[..2]);
      if 1 <= count <= MAX_ARGUMENTS then DecodeFrom(payload, 2, count) else None
  }

  method DecodeArguments(payload: seq<byte>) returns (r: Option<seq<seq<byte>>>)
    ensures r == DecodePayload(payload)
  {
    hide FromBigEndian;
    if !(2 <= |payload| <= MAX_ARGUMENT_PAYLOAD) {
      return None;
    }
    var count := FromBigEndian(payload[..2]);
    if !(1 <= count <= MAX_ARGUMENTS) {
      return None;
    }
    var result: seq<seq<byte>> := [];
    var offset := 2;
    assert forall rest: seq<seq<byte>> :: [] + rest == rest;
    for i := 0 to count
      invariant 2 <= offset <= |payload|
      invariant DecodePayload(payload) ==
                match DecodeFrom(payload, offset, count - i)
                case None => None
                case Some(rest) => Some(result + rest)
    {
      if offset + 2 > |payload| {
        return None;
      }
      var length := FromBigEndian(payload[offset..offset + 2]);
      if !(1 <= length <= MAX_ARGUMENT) || offset + 2 + length > |payload| {
        return None;
      }
      var value := payload[offset + 2..offset + 2 + length];
      if 0 in value {
        return None;
      }
      var tail := DecodeFrom(payload, offset + 2 + length, count - i - 1);
      assert tail.Some? ==> result + ([value] + tail.value) == result + [value] + tail.value;
      result := result + [value];
      offset := offset + 2 + length;
    }
    assert result + [] == result;
    if offset != |payload| {
      return None;
    }
    return Some(result);
  }

  lemma {:induction false} BodyCons(args: seq<seq<byte>>)
    requires args != []
    ensures Body(args) == BigEndian(|args[0]|, 2) + args[0] + Body(args[1..])
  {
    hide BigEndian;
    var init, last := args[..|args| - 1], args[|args| - 1];
    if |args| > 1 {
      BodyCons(init);
      var rest := args[1..];
      assert rest[..|rest| - 1] == init[1..] && rest[|rest| - 1] == last;
      Reassociate(BigEndian(|args[0]|, 2) + args[0], Body(init[1..]), BigEndian(|last|, 2), last);
    }
  }

  lemma Reassociate(a: seq<byte>, b: seq<byte>, c: seq<byte>, d: seq<byte>)
    ensures a + b + c + d == a + (b + c + d)
  {
  }

  lemma BodyNone()
    ensures Body([]) == []
  {
  }

  lemma {:induction false} DecodeBody(payload: seq<byte>, offset: nat, args: seq<seq<byte>>)
    requires offset <= |payload| && AllArguments(args) && payload[offset..] == Body(args)
    ensures DecodeFrom(payload, offset, |args|) == Some(args)
    decreases |args|
  {
    hide BigEndian, FromBigEndian, Body;
    BodyNone();
    if args != [] {
      var a := args[0];
      BodyCons(args);
      PowersOf256();
      BigEndianRoundTrip(|a|, 2);
      assert payload[offset..offset + 2] == payload[offset..][..2] == BigEndian(|a|, 2);
      assert payload[offset + 2..offset + 2 + |a|] == payload[offset..][2..2 + |a|] == a;
      assert payload[offset + 2 + |a|..] == payload[offset..][2 + |a|..] == Body(args[1..]);
      assert ValidArgument(a) && args == [a] + args[1..];
      DecodeBody(payload, offset + 2 + |a|, args[1..]);
    }
  }

  /** Decoding an encoded argument vector gives the vector back. */
  lemma ArgumentsDecodeEncode(args: seq<seq<byte>>)
    requires ValidArguments(args)
    ensures DecodePayload(ArgumentPayload(args)) == Some(args)
  {
    hide BigEndian, FromBigEndian, Body;
    var p := ArgumentPayload(args);
    PowersOf256();
    BigEndianRoundTrip(|args|, 2);
    assert p[..2] == BigEndian(|args|, 2) && p[2..] == Body(args);
    DecodeBody(p, 2, args);
  }

  lemma {:induction false} DecodedBody(payload: seq<byte>, offset: nat, count: nat)
    requires offset <= |payload| && DecodeFrom(payload, offset, count).Some?
    ensures var args := DecodeFrom(payload, offset, count).value;
            |args| == count && AllArguments(args) && payload[offset..] == Body(args)
    decreases count
  {
    hide BigEndian, FromBigEndian, Body;
    BodyNone();
    if count > 0 {
      var args := DecodeFrom(payload, offset, count).value;
      var a := args[0];
      DecodedBody(payload, offset + 2 + |a|, count - 1);
      assert args[1..] == DecodeFrom(payload, offset + 2 + |a|, count - 1).value;
      BodyCons(args);
      FromBigEndianRoundTrip(payload[offset..offset + 2]);
      assert payload[offset..] == payload[offset..offset + 2] + a + payload[offset + 2 + |a|..];
    }
  }

  /** Every accepted payload is the encoding of the vector it decodes to. */
  lemma ArgumentsEncodeDecode(payload: seq<byte>)
    requires DecodePayload(payload).Some?
    ensures ValidArguments(DecodePayload(payload).value)
    ensures ArgumentPayload(DecodePayload(payload).value) == payload
  {
    hide BigEndian, FromBigEndian, Body, DecodeFrom;
    DecodedBody(payload, 2, FromBigEndian(payload[..2]));
    FromBigEndianRoundTrip(payload[..2]);
    assert payload == payload[..2] + payload[2..];
  }

  /** An accepted vector always fits in one record's payload. */
  lemma ArgumentsFitRecord(args: seq<seq<byte>>, r: Record)
    requires ValidArguments(args) && r.Valid()
    ensures r.(payload := ArgumentPayload(args)).Valid()
  {
  }
}
