/** The two-pass code and data layout of a guest program: addresses depend on
    the size of the code, and the code embeds the addresses. */
module Layout {
  import opened Bytes
  import opened A64
  import opened Machine
  import opened Assembler
  import opened Syscalls

  const BASE: nat := 0x40_0000
  const CODE_OFFSET: nat := 0x100
  const HEADER_SIZE: nat := 0x40
  const PROGRAM_HEADER_SIZE: nat := 0x38

  /** One named datum placed after the code. */
  datatype Datum = Datum(name: string, value: seq<byte>)

  // ----- the ELF image -----

  /** ELF header and one program header: 120 bytes. */
  function Headers(fileSize: nat): (h: seq<byte>)
    ensures |h| == 120
  {
    [0x7F, 0x45, 0x4C, 0x46, 2, 1, 1, 0] + Zeros(8)
    + LittleEndian(2, 2) + LittleEndian(183, 2) + LittleEndian(1, 4)
    + LittleEndian(BASE + CODE_OFFSET, 8) + LittleEndian(HEADER_SIZE, 8) + LittleEndian(0, 8)
    + LittleEndian(0, 4) + LittleEndian(HEADER_SIZE, 2) + LittleEndian(PROGRAM_HEADER_SIZE, 2)
    + LittleEndian(1, 2) + LittleEndian(0, 2) + LittleEndian(0, 2) + LittleEndian(0, 2)
    + LittleEndian(1, 4) + LittleEndian(7, 4) + LittleEndian(0, 8)
    + LittleEndian(BASE, 8) + LittleEndian(BASE, 8)
    + LittleEndian(fileSize, 8) + LittleEndian(fileSize, 8) + LittleEndian(0x1000, 8)
  }

  function Elf(code: seq<byte>, data: seq<byte>): (image: seq<byte>)
    ensures |image| == CODE_OFFSET + |code| + |data|
  {
    Headers(CODE_OFFSET + |code| + |data|) + Zeros(CODE_OFFSET - 120) + code + data
  }

  function Join(data: seq<Datum>): seq<byte> {
    if data == [] then [] else data[0].value + Join(data[1..])
  }

  // ----- addresses -----

  /** Bytes of the first `k` data. */
  function Extent(data: seq<Datum>, k: nat): (n: nat)
    requires k <= |data|
  {
    if k == 0 then 0 else Extent(data, k - 1) + |data[k - 1].value|
  }

  function Address(codeSize: nat, data: seq<Datum>, k: nat): nat
    requires k <= |data|
  {
    BASE + CODE_OFFSET + codeSize + Extent(data, k)
  }

  ghost predicate DistinctNames(data: seq<Datum>) {
    forall i, j | 0 <= i < j < |data| :: data[i].name != data[j].name
  }

  /** The address function: a later datum of the same name would win. */
  method Addresses(codeSize: nat, data: seq<Datum>) returns (a: map<string, int>)
    ensures a == AddressMap(codeSize, data, |data|)
  {
    a := map[];
    var offset := CODE_OFFSET + codeSize;
    var k := 0;
    while k < |data|
      invariant k <= |data|
      invariant offset == CODE_OFFSET + codeSize + Extent(data, k)
      invariant a == AddressMap(codeSize, data, k)
    {
      a := a[data[k].name := BASE + offset];
      offset := offset + |data[k].value|;
      k := k + 1;
    }
  }

  function AddressMap(codeSize: nat, data: seq<Datum>, k: nat): (a: map<string, int>)
    requires k <= |data|
    ensures forall i | 0 <= i < k :: data[i].name in a
  {
    if k == 0 then map[]
    else AddressMap(codeSize, data, k - 1)[data[k - 1].name := Address(codeSize, data, k - 1)]
  }

  lemma {:induction false} AddressMapAt(codeSize: nat, data: seq<Datum>, k: nat, i: nat)
    requires i < k <= |data| && DistinctNames(data)
    ensures AddressMap(codeSize, data, k)[data[i].name] == Address(codeSize, data, i)
  {
    if i < k - 1 {
      AddressMapAt(codeSize, data, k - 1, i);
      assert data[i].name != data[k - 1].name;
    }
  }

  lemma {:induction false} ExtentMonotone(data: seq<Datum>, i: nat, j: nat)
    requires i <= j <= |data|
    ensures Extent(data, i) <= Extent(data, j)
  {
    if i < j {
      ExtentMonotone(data, i, j - 1);
    }
  }

  lemma {:induction false} ExtentShift(data: seq<Datum>, k: nat)
    requires 1 <= k <= |data|
    ensures Extent(data, k) == |data[0].value| + Extent(data[1..], k - 1)
  {
    if k > 1 {
      ExtentShift(data, k - 1);
    }
  }

  lemma {:induction false} JoinAt(data: seq<Datum>, i: nat)
    requires i < |data|
    ensures Extent(data, i) + |data[i].value| <= |Join(data)|
    ensures Join(data)[Extent(data, i)..Extent(data, i) + |data[i].value|] == data[i].value
  {
    if i == 0 {
    } else {
      JoinAt(data[1..], i - 1);
      ExtentShift(data, i);
      var n, e := |data[0].value|, Extent(data[1..], i - 1);
      assert Join(data)[n + e..n + e + |data[i].value|] == Join(data[1..])[e..e + |data[i].value|];
    }
  }

  /** The bytes an address range of the loaded image holds. */
  function At(image: seq<byte>, address: int, size: nat): seq<byte>
    requires BASE <= address && address - BASE + size <= |image|
  {
    image[address - BASE..address - BASE + size]
  }

  /** Each datum's address holds exactly its bytes, and the entry point the
      code. */
  lemma ImageHolds(code: seq<byte>, data: seq<Datum>, i: nat)
    requires i < |data|
    ensures var image := Elf(code, Join(data));
            var a := Address(|code|, data, i);
            && a - BASE + |data[i].value| <= |image|
            && At(image, a, |data[i].value|) == data[i].value
            && At(image, BASE + CODE_OFFSET, |code|) == code
  {
    hide Elf, Join, Extent;
    JoinAt(data, i);
    var image := Elf(code, Join(data));
    ElfParts(code, Join(data));
    var o, e, n := CODE_OFFSET + |code|, Extent(data, i), |data[i].value|;
    assert image[o + e..o + e + n] == image[o..][e..e + n];
  }

  lemma ElfParts(code: seq<byte>, data: seq<byte>)
    ensures var image := Elf(code, data);
            && image[CODE_OFFSET..CODE_OFFSET + |code|] == code
            && image[CODE_OFFSET + |code|..] == data
  {
    hide Headers;
    var front := Headers(CODE_OFFSET + |code| + |data|) + Zeros(CODE_OFFSET - 120);
    assert Elf(code, data) == front + (code + data);
  }

  /** Data never overlap each other or the code. */
  lemma DataDisjoint(codeSize: nat, data: seq<Datum>, i: nat, j: nat)
    requires i < j < |data|
    ensures BASE + CODE_OFFSET + codeSize <= Address(codeSize, data, i)
    ensures Address(codeSize, data, i) + |data[i].value| <= Address(codeSize, data, j)
  {
    ExtentMonotone(data, i + 1, j);
  }

  // ----- the code template -----

  /** Builder calls of a program, with addresses by name. */
  datatype Op =
    | Code(instrs: seq<Instr>)
    | LoadAddress(rd: reg, name: string, plus: nat)
    | Print(fd: imm16, name: string, size: nat)
    | Mark(mark: string)
    | JumpIf(mark: string, c: cond)
    | Jump(mark: string)

  predicate Names(ops: seq<Op>, a: map<string, int>) {
    forall k | 0 <= k < |ops| && (ops[k].LoadAddress? || ops[k].Print?) :: ops[k].name in a
  }

  function PrintCalls(fd: imm16, buffer: int, size: nat): seq<Instr> {
    ChunksCover(0, size, Zeros(size));
    ChunkCalls(fd, buffer, Chunks(0, size))
  }

  function Encoded(instrs: seq<Instr>): (items: seq<Item>)
    ensures |items| == |instrs|
  {
    seq(|instrs|, i requires 0 <= i < |instrs| => Raw(Encode(instrs[i])))
  }

  function Items(op: Op, a: map<string, int>): seq<Item>
    requires op.LoadAddress? || op.Print? ==> op.name in a
  {
    match op
    case Code(instrs) => Encoded(instrs)
    case LoadAddress(rd, name, plus) => Encoded(MovImm(rd, a[name] + plus))
    case Print(fd, name, size) => Encoded(PrintCalls(fd, a[name], size))
    case Mark(_) => []
    case JumpIf(l, c) => [ToIf(l, c)]
    case Jump(l) => [To(l)]
  }

  /** The labelled program the first `k` calls describe. */
  function ProgramOf(ops: seq<Op>, k: nat, a: map<string, int>): (p: Program)
    requires k <= |ops| && Names(ops, a)
  {
    if k == 0 then Program([], map[])
    else
      var p := ProgramOf(ops, k - 1, a);
      var op := ops[k - 1];
      Program(p.items + Items(op, a),
              if op.Mark? then p.labels[op.mark := |p.items|] else p.labels)
  }

  lemma {:induction false} ChunkCallsSize(fd: imm16, b1: int, b2: int, chunks: seq<Chunk>)
    requires forall c | c in chunks :: c.size <= SERIAL_CHUNK
    ensures |ChunkCalls(fd, b1, chunks)| == |ChunkCalls(fd, b2, chunks)|
  {
    if chunks != [] {
      ChunkCallsSize(fd, b1, b2, chunks[1..]);
    }
  }

  /** Two programs with the same shape: same branches, labels and length. */
  predicate SameShape(p: Program, q: Program) {
    && |p.items| == |q.items| && p.labels == q.labels
    && forall i | 0 <= i < |p.items| :: p.items[i] == q.items[i] || (p.items[i].Raw? && q.items[i].Raw?)
  }

  lemma ItemsShape(op: Op, a: map<string, int>, b: map<string, int>)
    requires op.LoadAddress? || op.Print? ==> op.name in a && op.name in b
    ensures |Items(op, a)| == |Items(op, b)|
    ensures forall i | 0 <= i < |Items(op, a)| ::
              Items(op, a)[i] == Items(op, b)[i] || (Items(op, a)[i].Raw? && Items(op, b)[i].Raw?)
  {
    if op.Print? {
      ChunksCover(0, op.size, Zeros(op.size));
      ChunkCallsSize(op.fd, a[op.name], b[op.name], Chunks(0, op.size));
    }
  }

  /** Addresses change the constants in the code and nothing else. */
  lemma {:induction false} ShapeIndependent(ops: seq<Op>, k: nat, a: map<string, int>, b: map<string, int>)
    requires k <= |ops| && Names(ops, a) && Names(ops, b)
    ensures SameShape(ProgramOf(ops, k, a), ProgramOf(ops, k, b))
  {
    hide Items;
    if k > 0 {
      ShapeIndependent(ops, k - 1, a, b);
      ItemsShape(ops[k - 1], a, b);
    }
  }

  lemma SameShapeLinked(p: Program, q: Program)
    requires SameShape(p, q) && Linked(p)
    ensures Linked(q)
  {
    forall i | 0 <= i < |q.items| ensures Resolves(q, i) {
      assert Resolves(p, i);
      assert p.items[i] == q.items[i] || (p.items[i].Raw? && q.items[i].Raw?);
    }
  }

  // ----- emitting the template through the builder -----

  predicate DistinctMarks(ops: seq<Op>) {
    forall i, j | 0 <= i < j < |ops| && ops[i].Mark? && ops[j].Mark? :: ops[i].mark != ops[j].mark
  }

  lemma {:induction false} LabelsAreMarks(ops: seq<Op>, k: nat, a: map<string, int>)
    requires k <= |ops| && Names(ops, a)
    ensures forall l :: l in ProgramOf(ops, k, a).labels <==> exists i | 0 <= i < k :: ops[i] == Mark(l)
  {
    hide Items;
    if k > 0 {
      LabelsAreMarks(ops, k - 1, a);
      forall l ensures l in ProgramOf(ops, k, a).labels <==> exists i | 0 <= i < k :: ops[i] == Mark(l) {
        if ops[k - 1] == Mark(l) {
          assert exists i | 0 <= i < k :: ops[i] == Mark(l);
        }
      }
    }
  }

  lemma NoMarks(ops: seq<Op>)
    ensures DistinctMarks(ops[..0])
  {
  }

  /** A mark already among the labels is a duplicate, and only that. */
  lemma NextMark(ops: seq<Op>, k: nat, a: map<string, int>)
    requires k < |ops| && Names(ops, a) && DistinctMarks(ops[..k])
    ensures if ops[k].Mark? && ops[k].mark in ProgramOf(ops, k, a).labels then !DistinctMarks(ops)
            else DistinctMarks(ops[..k + 1])
  {
    hide ProgramOf;
    LabelsAreMarks(ops, k, a);
    if ops[k].Mark? && ops[k].mark in ProgramOf(ops, k, a).labels {
      var i :| 0 <= i < k && ops[i] == Mark(ops[k].mark);
    } else {
      forall i, j | 0 <= i < j < k + 1 && ops[i].Mark? && ops[j].Mark? ensures ops[i].mark != ops[j].mark {
        assert j < k ==> ops[..k][i] == ops[i] && ops[..k][j] == ops[j];
      }
    }
  }

  function EncodedBytes(instrs: seq<Instr>): (b: seq<byte>)
    ensures |b| == 4 * |instrs|
  {
    Words(seq(|instrs|, i requires 0 <= i < |instrs| => Encode(instrs[i])))
  }

  lemma RawsEncoded(instrs: seq<Instr>)
    ensures Raws(EncodedBytes(instrs)) == Encoded(instrs)
  {
    hide Encode;
    var ws := seq(|instrs|, i requires 0 <= i < |instrs| => Encode(instrs[i]));
    forall i | 0 <= i < |instrs| ensures WordAt(EncodedBytes(instrs), i) == ws[i] {
      WordsAt(ws, i);
    }
    assert |EncodedBytes(instrs)| / 4 == |instrs|;
  }

  /** One builder call. */
  method EmitOp(code: CodeBuilder, op: Op, a: map<string, int>) returns (e: Result<()>)
    requires code.Valid()
    requires op.LoadAddress? || op.Print? ==> op.name in a
    modifies code
    ensures code.Valid()
    ensures e.Err? <==> op.Mark? && op.mark in old(code.program).labels
    ensures e.Ok? ==>
              code.program == Program(old(code.program).items + Items(op, a),
                                      if op.Mark? then old(code.program).labels[op.mark := |old(code.program).items|]
                                      else old(code.program).labels)
  {
    hide Encoded, Raws, EncodedBytes, MovImm, PrintCalls, ChunkCalls;
    match op {
      case Code(instrs) =>
        RawsEncoded(instrs);
        e := code.Emit(EncodedBytes(instrs));
      case LoadAddress(rd, name, plus) =>
        RawsEncoded(MovImm(rd, a[name] + plus));
        e := code.Emit(EncodedBytes(MovImm(rd, a[name] + plus)));
      case Print(fd, name, size) =>
        var calls := WriteSyscalls(fd, a[name], size);
        PrintCallsAre(fd, a[name], size);
        RawsEncoded(calls);
        e := code.Emit(EncodedBytes(calls));
      case Mark(l) =>
        e := code.Label(l);
        assert old(code.program).items + Items(op, a) == old(code.program).items;
      case JumpIf(l, c) =>
        e := code.BranchCond(l, c);
      case Jump(l) =>
        code.Branch(l);
        e := Ok(());
    }
  }

  lemma PrintCallsAre(fd: imm16, buffer: int, size: nat)
    ensures forall c | c in Chunks(0, size) :: c.size <= SERIAL_CHUNK
    ensures PrintCalls(fd, buffer, size) == ChunkCalls(fd, buffer, Chunks(0, size))
  {
    ChunksCover(0, size, Zeros(size));
  }

  /** One program function of the generator: run its builder calls, then
      `build`. */
  method BuildCode(ops: seq<Op>, a: map<string, int>) returns (r: Result<seq<byte>>)
    requires Names(ops, a)
    ensures r.Ok? <==> DistinctMarks(ops) && Linked(ProgramOf(ops, |ops|, a))
    ensures r.Ok? ==> r.value == Assembled(ProgramOf(ops, |ops|, a))
  {
    hide Assembled, Linked, Items, DistinctMarks;
    var code := new CodeBuilder();
    NoMarks(ops);
    for k := 0 to |ops|
      invariant fresh(code) && code.Valid()
      invariant code.program == ProgramOf(ops, k, a)
      invariant DistinctMarks(ops[..k])
    {
      NextMark(ops, k, a);
      var e := EmitOp(code, ops[k], a);
      if e.Err? {
        return Err(e.error);
      }
    }
    assert ops[..|ops|] == ops;
    r := code.Build();
  }
}
