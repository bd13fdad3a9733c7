/** The pieces the two-CPU programs are made of: pinning a CPU, storing a shared
    word, waiting for one, printing a marker, and failing. Each lemma says where
    register code leads from one visible instruction to the next. */
module DuoCode {
  import opened Bytes
  import opened A64
  import opened Machine
  import opened Assembler
  import opened Syscalls
  import opened Layout
  import opened Blocks
  import opened Templates
  import opened Duo
  import opened DuoOps
  import opened SmpData

  const SETAFFINITY: imm16 := 122
  const YIELD: imm16 := 124
  const EXIT: imm16 := 93

  function Mov(rd: reg, imm: imm16): Op { Code([Movz(rd, imm, 0)]) }

  function Load(rd: reg, name: string): Op { LoadAddress(rd, name, 0) }

  const SVC: Op := Code([Svc])

  predicate Asking(c: Cpu, call: imm16)
    requires c.Valid()
  {
    c.x[8] == call
  }

  /** About to write this text. */
  predicate Writing(c: Cpu, address: int, size: nat)
    requires c.Valid()
  {
    c.x[8] == SYSCALL_WRITE && c.x[0] == 1 && c.x[1] == address && c.x[2] == size
  }

  /** About to set the affinity to this mask of eight bytes. */
  predicate Pinned(w: Setting, c: Cpu, mask: string)
    requires c.Valid()
  {
    mask in w.a && c.x[8] == SETAFFINITY && c.x[0] == 0 && c.x[1] == 8 && c.x[2] == w.a[mask]
  }

  /** About to ask for the CPU in this word. */
  predicate Placing(w: Setting, c: Cpu, observed: string)
    requires c.Valid()
  {
    observed in w.a && c.x[8] == SYSCALL_GETCPU && c.x[0] == w.a[observed] && c.x[1] == 0 && c.x[2] == 0
  }

  /** About to clone onto the child's stack. */
  predicate Splitting(w: Setting, c: Cpu)
    requires c.Valid()
  {
    && "child_stack" in w.a && c.x[8] == SYSCALL_CLONE && c.x[0] == CLONE_FLAGS
    && c.x[1] == w.a["child_stack"] + STACK_SIZE && c.x[2] == 0 && c.x[3] == 0 && c.x[4] == 0
  }

  /** The address of a datum fits a register. */
  lemma AddressFits(w: Setting, name: string)
    requires w.Ok() && name in w.a
    ensures 0 <= w.a[name] < TWO64 && w.a[name] % TWO64 == w.a[name]
    ensures (w.a[name] + STACK_SIZE) % TWO64 == w.a[name] + STACK_SIZE
  {
  }

  lemma Onward(w: Setting, c: Cpu, d: Cpu, e: Cpu)
    requires w.Ok() && w.Reaches(c, d) && w.Reaches(d, e)
    ensures w.Reaches(c, e)
  {
    hide Comes, Names, Keeps2, DistinctMarks;
    ComesThen(Prog(w.ops, w.a), c, d, e);
  }

  // ----- stretches of two to four register operations -----

  lemma Two(w: Setting, k: nat, c: Cpu) returns (d: Cpu)
    requires w.Ok() && k + 2 <= |w.ops| && w.Here(c, k) && Simple(w.ops[k]) && Simple(w.ops[k + 1])
    ensures Named(w, k) && Named(w, k + 1) && c.Valid() && d.Valid() && w.Reaches(c, d) && w.Here(d, k + 2)
    ensures d.x == SetsOne(w.ops[k + 1], w.a, SetsOne(w.ops[k], w.a, c.x))
  {
    hide Comes, CpuAt, SetsOne, Simple, Keeps2, DistinctMarks;
    var e := SimpleOp(w, k, c);
    AtMeans(w, c, k);
    AtMeans(w, e, k + 1);
    d := SimpleOp(w, k + 1, e);
    AtMeans(w, d, k + 2);
    ComesThen(Prog(w.ops, w.a), c, e, d);
  }

  predicate Named(w: Setting, k: nat)
    requires k < |w.ops|
  {
    w.ops[k].LoadAddress? ==> w.ops[k].name in w.a
  }

  lemma Three(w: Setting, k: nat, c: Cpu) returns (d: Cpu)
    requires w.Ok() && k + 3 <= |w.ops| && w.Here(c, k)
    requires Simple(w.ops[k]) && Simple(w.ops[k + 1]) && Simple(w.ops[k + 2])
    ensures Named(w, k) && Named(w, k + 1) && Named(w, k + 2)
    ensures c.Valid() && d.Valid() && w.Reaches(c, d) && w.Here(d, k + 3)
    ensures d.x == SetsOne(w.ops[k + 2], w.a, SetsOne(w.ops[k + 1], w.a, SetsOne(w.ops[k], w.a, c.x)))
  {
    hide Comes, CpuAt, SetsOne, Simple, Keeps2, DistinctMarks;
    var e := Two(w, k, c);
    d := SimpleOp(w, k + 2, e);
    AtMeans(w, d, k + 3);
    ComesThen(Prog(w.ops, w.a), c, e, d);
  }

  lemma Four(w: Setting, k: nat, c: Cpu) returns (d: Cpu)
    requires w.Ok() && k + 4 <= |w.ops| && w.Here(c, k)
    requires Simple(w.ops[k]) && Simple(w.ops[k + 1]) && Simple(w.ops[k + 2]) && Simple(w.ops[k + 3])
    ensures Named(w, k) && Named(w, k + 1) && Named(w, k + 2) && Named(w, k + 3)
    ensures c.Valid() && d.Valid() && w.Reaches(c, d) && w.Here(d, k + 4)
    ensures d.x == SetsOne(w.ops[k + 3], w.a,
                           SetsOne(w.ops[k + 2], w.a, SetsOne(w.ops[k + 1], w.a, SetsOne(w.ops[k], w.a, c.x))))
  {
    hide Comes, CpuAt, SetsOne, Simple, Keeps2, DistinctMarks;
    var e := Three(w, k, c);
    d := SimpleOp(w, k + 3, e);
    AtMeans(w, d, k + 4);
    ComesThen(Prog(w.ops, w.a), c, e, d);
  }

  /** A 64-bit constant. */
  lemma Constant(w: Setting, k: nat, c: Cpu, rd: reg, value: int) returns (d: Cpu)
    requires w.Ok() && k < |w.ops| && w.Here(c, k) && w.ops[k] == Code(MovImm(rd, value))
    ensures c.Valid() && d.Valid() && w.Reaches(c, d) && w.Here(d, k + 1) && d.x == c.x[rd := value % TWO64]
  {
    hide Comes, Exec, ExecAll, MovImm, ProgramOf, DistinctMarks, CpuAt, Keeps2, RegisterOnly;
    AtMeans(w, c, k);
    MovImmLoads(rd, value, c, map[]);
    d := c.(pc := c.pc + 16).Set(rd, value);
    MovImmRegisterOnly(rd, value);
    RegistersOp(w.ops, k, w.a, MovImm(rd, value), c, d);
  }

  // ----- the result of a call -----

  /** `cmp x0, #imm` and a branch to failure or on. */
  lemma Judged(w: Setting, k: nat, m: nat, c: Cpu, imm: imm12, on: cond) returns (d: Cpu)
    requires w.Ok() && k + 1 < |w.ops| && m < |w.ops| && w.Here(c, k) && c.Valid()
    requires w.ops[k] == Code([CmpImm(0, imm)]) && w.ops[k + 1].JumpIf? && w.ops[k + 1].c == on
    requires w.ops[m] == Mark(w.ops[k + 1].mark)
    ensures d.Valid() && w.Reaches(c, d) && d.x == c.x
    ensures on == EQ ==> w.Here(d, if c.x[0] == imm then m + 1 else k + 2)
    ensures on == NE ==> w.Here(d, if c.x[0] != imm then m + 1 else k + 2)
    ensures on == MI && imm == 0 ==> w.Here(d, if c.x[0] >= SIGN then m + 1 else k + 2)
  {
    hide Comes, CpuAt, Keeps2, DistinctMarks, ConditionHolds, SubtractFlags;
    d := TestBranch(w, k, m, c, 0, imm);
    Tests(c.x[0], imm, TWO64);
  }

  /** `cmp w0, w2` and a branch. */
  lemma ComparedTo(w: Setting, k: nat, m: nat, c: Cpu, on: cond) returns (d: Cpu)
    requires w.Ok() && k + 1 < |w.ops| && m < |w.ops| && w.Here(c, k) && c.Valid()
    requires w.ops[k] == Code([CmpReg32(0, 2)]) && w.ops[k + 1].JumpIf? && w.ops[k + 1].c == on
    requires w.ops[m] == Mark(w.ops[k + 1].mark) && c.x[0] < 0x1_0000_0000 && c.x[2] < 0x1_0000_0000
    ensures d.Valid() && w.Reaches(c, d) && d.x == c.x
    ensures on == EQ ==> w.Here(d, if c.x[0] == c.x[2] then m + 1 else k + 2)
    ensures on == NE ==> w.Here(d, if c.x[0] != c.x[2] then m + 1 else k + 2)
  {
    hide Comes, CpuAt, Keeps2, DistinctMarks, ConditionHolds, SubtractFlags, Prog, ProgramOf;
    d := CompareBranch(w, k, m, c, 0, 2);
    Tests(c.x[0], c.x[2], 0x1_0000_0000);
  }

  // ----- failing -----

  /** Code after the mark `failure`. */
  predicate Failing(ops: seq<Op>, m: nat) {
    && m + 5 <= |ops| && ops[m] == Mark("failure")
    && ops[m + 1] == Mov(0, 1) && ops[m + 2] == Mov(8, EXIT) && ops[m + 3] == SVC && ops[m + 4] == Code([B(0)])
  }

  lemma ToExit(w: Setting, m: nat, c: Cpu) returns (d: Cpu)
    requires w.Ok() && Failing(w.ops, m) && w.Here(c, m + 1)
    ensures c.Valid() && d.Valid() && w.Reaches(c, d) && w.Here(d, m + 3) && d.x[8] == EXIT && d.x[0] == 1
  {
    hide Comes, CpuAt, Keeps2, DistinctMarks;
    d := Two(w, m + 1, c);
  }

  // ----- pinning -----

  /** `emit_smp_progress_affinity_check`. */
  predicate Pinning(ops: seq<Op>, b: nat, mask: string, observed: string, cpu: imm12) {
    && b + 18 <= |ops|
    && ops[b] == Mov(0, 0) && ops[b + 1] == Mov(1, 8) && ops[b + 2] == Load(2, mask)
    && ops[b + 3] == Mov(8, SETAFFINITY)
    && ops[b + 4] == SVC && ops[b + 5] == Code([CmpImm(0, 0)]) && ops[b + 6] == JumpIf("failure", NE)
    && ops[b + 7] == Load(0, observed) && ops[b + 8] == Mov(1, 0) && ops[b + 9] == Mov(2, 0)
    && ops[b + 10] == Mov(8, SYSCALL_GETCPU)
    && ops[b + 11] == SVC && ops[b + 12] == Code([CmpImm(0, 0)]) && ops[b + 13] == JumpIf("failure", NE)
    && ops[b + 14] == Load(1, observed) && ops[b + 15] == Code([Ldr32(0, 1)])
    && ops[b + 16] == Code([CmpImm(0, cpu)]) && ops[b + 17] == JumpIf("failure", NE)
  }

  function PinOp(mask: string, observed: string, cpu: imm12, i: nat): Op
    requires i < 18
  {
    match i
    case 0 => Mov(0, 0)
    case 1 => Mov(1, 8)
    case 2 => Load(2, mask)
    case 3 => Mov(8, SETAFFINITY)
    case 4 => SVC
    case 5 => Code([CmpImm(0, 0)])
    case 6 => JumpIf("failure", NE)
    case 7 => Load(0, observed)
    case 8 => Mov(1, 0)
    case 9 => Mov(2, 0)
    case 10 => Mov(8, SYSCALL_GETCPU)
    case 11 => SVC
    case 12 => Code([CmpImm(0, 0)])
    case 13 => JumpIf("failure", NE)
    case 14 => Load(1, observed)
    case 15 => Code([Ldr32(0, 1)])
    case 16 => Code([CmpImm(0, cpu)])
    case _ => JumpIf("failure", NE)
  }

  lemma PinTable(ops: seq<Op>, b: nat, mask: string, observed: string, cpu: imm12)
    requires b + 18 <= |ops| && forall i | 0 <= i < 18 :: ops[b + i] == PinOp(mask, observed, cpu, i)
    ensures Pinning(ops, b, mask, observed, cpu)
  {
    assert ops[b + 0] == PinOp(mask, observed, cpu, 0) && ops[b + 1] == PinOp(mask, observed, cpu, 1);
    assert ops[b + 2] == PinOp(mask, observed, cpu, 2) && ops[b + 3] == PinOp(mask, observed, cpu, 3);
    assert ops[b + 4] == PinOp(mask, observed, cpu, 4) && ops[b + 5] == PinOp(mask, observed, cpu, 5);
    assert ops[b + 6] == PinOp(mask, observed, cpu, 6) && ops[b + 7] == PinOp(mask, observed, cpu, 7);
    assert ops[b + 8] == PinOp(mask, observed, cpu, 8) && ops[b + 9] == PinOp(mask, observed, cpu, 9);
    assert ops[b + 10] == PinOp(mask, observed, cpu, 10) && ops[b + 11] == PinOp(mask, observed, cpu, 11);
    assert ops[b + 12] == PinOp(mask, observed, cpu, 12) && ops[b + 13] == PinOp(mask, observed, cpu, 13);
    assert ops[b + 14] == PinOp(mask, observed, cpu, 14) && ops[b + 15] == PinOp(mask, observed, cpu, 15);
    assert ops[b + 16] == PinOp(mask, observed, cpu, 16) && ops[b + 17] == PinOp(mask, observed, cpu, 17);
  }

  lemma ToSetAffinity(w: Setting, b: nat, mask: string, observed: string, cpu: imm12, c: Cpu) returns (d: Cpu)
    requires w.Ok() && Pinning(w.ops, b, mask, observed, cpu) && w.Here(c, b)
    ensures c.Valid() && d.Valid() && w.Reaches(c, d) && w.Here(d, b + 4) && Pinned(w, d, mask)
  {
    hide Comes, CpuAt, Keeps2, DistinctMarks;
    d := Four(w, b, c);
    AddressFits(w, mask);
  }

  lemma ToGetCpu(w: Setting, b: nat, mask: string, observed: string, cpu: imm12, c: Cpu) returns (d: Cpu)
    requires w.Ok() && Pinning(w.ops, b, mask, observed, cpu) && w.Here(c, b + 7)
    ensures c.Valid() && d.Valid() && w.Reaches(c, d) && w.Here(d, b + 11) && Placing(w, d, observed)
  {
    hide Comes, CpuAt, Keeps2, DistinctMarks;
    d := Four(w, b + 7, c);
    AddressFits(w, observed);
  }

  lemma ToLoadCpu(w: Setting, b: nat, mask: string, observed: string, cpu: imm12, c: Cpu) returns (d: Cpu)
    requires w.Ok() && Pinning(w.ops, b, mask, observed, cpu) && w.Here(c, b + 14)
    ensures c.Valid() && d.Valid() && w.Reaches(c, d) && w.Here(d, b + 15)
    ensures observed in w.a && d.x[1] == w.a[observed]
  {
    hide Comes, CpuAt, Keeps2, DistinctMarks;
    d := SimpleOp(w, b + 14, c);
    AtMeans(w, c, b + 14);
    AtMeans(w, d, b + 15);
    AddressFits(w, observed);
  }

  // ----- shared words -----

  /** Store a constant in a word. */
  predicate Storing(ops: seq<Op>, b: nat, value: imm16, name: string) {
    b + 3 <= |ops| && ops[b] == Mov(0, value) && ops[b + 1] == Load(1, name) && ops[b + 2] == Code([Stlr32(0, 1)])
  }

  lemma ToStore(w: Setting, b: nat, value: imm16, name: string, c: Cpu) returns (d: Cpu)
    requires w.Ok() && Storing(w.ops, b, value, name) && w.Here(c, b)
    ensures c.Valid() && d.Valid() && w.Reaches(c, d) && w.Here(d, b + 2)
    ensures name in w.a && d.x[0] == value && d.x[1] == w.a[name]
  {
    hide Comes, CpuAt, Keeps2, DistinctMarks;
    d := Two(w, b, c);
    AddressFits(w, name);
  }

  /** Load a word into x0. */
  predicate Loading(ops: seq<Op>, b: nat, name: string, rd: reg) {
    b + 2 <= |ops| && ops[b] == Load(1, name) && ops[b + 1] == Code([Ldar32(rd, 1)])
  }

  lemma ToLoad(w: Setting, b: nat, name: string, rd: reg, c: Cpu) returns (d: Cpu)
    requires w.Ok() && Loading(w.ops, b, name, rd) && w.Here(c, b)
    ensures c.Valid() && d.Valid() && w.Reaches(c, d) && w.Here(d, b + 1)
    ensures name in w.a && d.x == c.x[1 := w.a[name]]
  {
    hide Comes, CpuAt, Keeps2, DistinctMarks;
    d := SimpleOp(w, b, c);
    AtMeans(w, c, b);
    AtMeans(w, d, b + 1);
    AddressFits(w, name);
  }

  /** Load a word again and again while the comparison sends back. */
  predicate Waiting(ops: seq<Op>, b: nat, mark: string, name: string, imm: imm12, on: cond) {
    && b + 5 <= |ops| && ops[b] == Mark(mark) && Loading(ops, b + 1, name, 0)
    && ops[b + 3] == Code([CmpImm(0, imm)]) && ops[b + 4] == JumpIf(mark, on)
  }

  lemma ToWait(w: Setting, b: nat, mark: string, name: string, imm: imm12, on: cond, c: Cpu) returns (d: Cpu)
    requires w.Ok() && Waiting(w.ops, b, mark, name, imm, on) && (w.Here(c, b) || w.Here(c, b + 1))
    ensures c.Valid() && d.Valid() && w.Reaches(c, d) && w.Here(d, b + 2)
    ensures name in w.a && d.x == c.x[1 := w.a[name]]
  {
    hide Comes, CpuAt, Keeps2, DistinctMarks;
    PastMarkAt(w, c, b);
    d := ToLoad(w, b + 1, name, 0, c);
  }

  // ----- printing -----

  /** One `write` to the terminal: `write_syscalls` of up to 16 bytes. */
  predicate Printing(ops: seq<Op>, b: nat, name: string, size: imm16) {
    && b + 5 <= |ops| && ops[b] == Mov(0, 1) && ops[b + 1] == Load(1, name) && ops[b + 2] == Mov(2, size)
    && ops[b + 3] == Mov(8, SYSCALL_WRITE) && ops[b + 4] == SVC
  }

  lemma ToPrint(w: Setting, b: nat, name: string, size: imm16, c: Cpu) returns (d: Cpu)
    requires w.Ok() && Printing(w.ops, b, name, size) && w.Here(c, b)
    ensures c.Valid() && d.Valid() && w.Reaches(c, d) && w.Here(d, b + 4) && name in w.a
    ensures d.x[0] == 1 && d.x[1] == w.a[name] && d.x[2] == size && d.x[8] == SYSCALL_WRITE
  {
    hide Comes, CpuAt, Keeps2, DistinctMarks;
    d := Four(w, b, c);
    AddressFits(w, name);
  }

  /** The five operations are the words `write_syscalls` emits. */
  lemma PrintingIsWriteSyscalls(a: map<string, int>, name: string, size: imm16)
    requires name in a && 1 <= size <= SERIAL_CHUNK
    ensures Items(Mov(0, 1), a) + Items(Load(1, name), a) + Items(Mov(2, size), a) + Items(Mov(8, SYSCALL_WRITE), a)
            + Items(SVC, a) == Items(Print(1, name, size), a)
  {
    hide Encode, MovImm, Encoded, WriteSyscall, PrintCalls, Chunks, ChunkCalls;
    PrintCallsAre(1, a[name], size);
    OneChunk(a[name], size);
    var m0, ad, m2, m8 := [Movz(0, 1, 0)], MovImm(1, a[name]), [Movz(2, size, 0)], [Movz(8, SYSCALL_WRITE, 0)];
    WriteSyscallIs(a[name], size);
    EncodedAppend(m0, ad);
    EncodedAppend(m0 + ad, m2);
    EncodedAppend(m0 + ad + m2, m8);
    EncodedAppend(m0 + ad + m2 + m8, [Svc]);
  }

  lemma WriteSyscallIs(buffer: int, size: imm16)
    ensures WriteSyscall(1, buffer, size)
            == [Movz(0, 1, 0)] + MovImm(1, buffer) + [Movz(2, size, 0)] + [Movz(8, SYSCALL_WRITE, 0)] + [Svc]
  {
  }

  lemma OneChunk(buffer: int, size: imm16)
    requires 1 <= size <= SERIAL_CHUNK
    ensures forall c | c in Chunks(0, size) :: c.size <= SERIAL_CHUNK
    ensures ChunkCalls(1, buffer, Chunks(0, size)) == WriteSyscall(1, buffer, size)
  {
    hide WriteSyscall, Chunks, ChunkCalls;
    ChunkCallsStep(1, buffer, 0, size);
    ChunkCallsStep(1, buffer, size, size);
    assert WriteSyscall(1, buffer, size) + [] == WriteSyscall(1, buffer, size);
  }

  lemma EncodedAppend(x: seq<Instr>, y: seq<Instr>)
    ensures Encoded(x + y) == Encoded(x) + Encoded(y)
  {
    hide Encode;
  }

  /** Sending a datum that memory holds. */
  lemma Sends(c: Cpu, mem: Memory, text: seq<byte>)
    requires c.Valid() && c.x[8] == SYSCALL_WRITE && c.x[0] == 1 && c.x[2] == |text| && Holds(mem, c.x[1], text)
    ensures SentAt(c, mem) == text
  {
    hide Holds;
    PeekHolds(mem, c.x[1], text);
  }

  lemma SendsNothing(c: Cpu, mem: Memory)
    requires c.Valid() && (c.x[8] != SYSCALL_WRITE || c.x[0] != 1)
    ensures SentAt(c, mem) == []
  {
  }

  // ----- cloning -----

  const CLONE_FLAGS: int := 0x111

  /** The `clone` call and the three ways it goes on. */
  predicate Cloning(ops: seq<Op>, b: nat) {
    && b + 10 <= |ops| && ops[b] == Code(MovImm(0, CLONE_FLAGS))
    && ops[b + 1] == LoadAddress(1, "child_stack", STACK_SIZE)
    && ops[b + 2] == Mov(2, 0) && ops[b + 3] == Mov(3, 0) && ops[b + 4] == Mov(4, 0)
    && ops[b + 5] == Mov(8, SYSCALL_CLONE)
    && ops[b + 6] == SVC && ops[b + 7] == Code([CmpImm(0, 0)])
    && ops[b + 8] == JumpIf("failure", MI) && ops[b + 9] == JumpIf("child", EQ)
  }

  lemma ClonePieces(ops: seq<Op>, m: nat, b: nat)
    requires Cloning(ops, b) && Failing(ops, m)
    ensures b + 10 <= |ops| && ops[b + 6] == SVC && m < |ops| && ops[m] == Mark("failure")
  {
  }

  lemma ToClone(w: Setting, b: nat, c: Cpu) returns (d: Cpu)
    requires w.Ok() && Cloning(w.ops, b) && w.Here(c, b)
    ensures c.Valid() && d.Valid() && w.Reaches(c, d) && w.Here(d, b + 6) && Splitting(w, d)
  {
    hide Comes, CpuAt, Keeps2, DistinctMarks, MovImm;
    var e := Constant(w, b, c, 0, CLONE_FLAGS);
    var f := SimpleOp(w, b + 1, e);
    AtMeans(w, f, b + 2);
    AddressFits(w, "child_stack");
    d := Four(w, b + 2, f);
    ComesThen(Prog(w.ops, w.a), c, e, f);
    ComesThen(Prog(w.ops, w.a), c, f, d);
  }

  /** Failure, the child's code, or the parent's. */
  lemma Cloned(w: Setting, b: nat, m: nat, n: nat, c: Cpu) returns (d: Cpu)
    requires w.Ok() && Cloning(w.ops, b) && w.Here(c, b + 7) && c.Valid()
    requires m < |w.ops| && w.ops[m] == Mark("failure") && n < |w.ops| && w.ops[n] == Mark("child")
    ensures d.Valid() && w.Reaches(c, d) && d.x == c.x
    ensures w.Here(d, if c.x[0] >= SIGN then m + 1 else if c.x[0] == 0 then n + 1 else b + 10)
  {
    hide Comes, CpuAt, Keeps2, DistinctMarks, ConditionHolds, SubtractFlags, Exec, ExecAll, MovImm;
    var i := CmpImm(0, 0);
    var e := c.(pc := c.pc + 4, flags := SubtractFlags(c.x[0], 0, TWO64));
    TestInstr(0, 0, c);
    ExecOne(i, c, e);
    RegistersOp(w.ops, b + 7, w.a, [i], c, e);
    Tests(c.x[0], 0, TWO64);
    var f := BranchOp(w.ops, b + 8, m, w.a, e);
    ComesThen(Prog(w.ops, w.a), c, e, f);
    if c.x[0] >= SIGN {
      PastMarkAt(w, f, m);
      return f;
    }
    d := BranchOp(w.ops, b + 9, n, w.a, f);
    PastMarkAt(w, d, n);
    ComesThen(Prog(w.ops, w.a), c, f, d);
  }

  // ----- one visible instruction and the way to the next -----

  /** At a last call, or past it. */
  predicate Ending(w: Setting, k: nat, call: imm16, c: Cpu)
    requires Names(w.ops, w.a)
  {
    c.Valid() && ((w.Here(c, k) && c.x[8] == call) || w.Here(c, k + 1))
  }

  /** At the exit call. */
  predicate Quitting(w: Setting, m: nat, c: Cpu)
    requires Names(w.ops, w.a)
  {
    c.Valid() && w.Here(c, m + 3) && c.x[8] == EXIT && c.x[0] == 1
  }

  /** At the exit call, or past it. */
  predicate Leaving(w: Setting, m: nat, c: Cpu)
    requires Names(w.ops, w.a)
  {
    Quitting(w, m, c) || (c.Valid() && w.Here(c, m + 4))
  }

  /** The pair after a step that changed only the CPU and the log. */
  predicate Silent(s: Pair, who: Who, e: Cpu, t: Pair) {
    && Present(s, who) && Present(t, who)
    && var u := With(s, who, e); u.Pair? && t == u.(traps := t.traps, log := t.log)
  }

  predicate SameLog(s: Pair, t: Pair) { s.Pair? && t.Pair? && t.log == s.log }

  /** A call that sends nothing and leaves memory alone. */
  lemma QuietCall(w: Setting, s: Pair, who: Who, k: nat, c: Cpu) returns (e: Cpu)
    requires w.Ok() && k < |w.ops| && w.ops[k] == SVC && Idle(s, who, c) && w.Here(c, k) && c.Valid()
    requires c.x[8] != SYSCALL_CLONE && c.x[8] != SYSCALL_GETCPU && (c.x[8] != SYSCALL_WRITE || c.x[0] != 1)
    ensures e.Valid() && w.Here(e, k + 1) && e.x[1..] == c.x[1..] && Silent(s, who, e, w.Next(s, who))
    ensures Logged(s, who, e, w.Next(s, who))
    ensures c.x[8] == SYSCALL_OPENAT ==> e.x[0] != 1
  {
    hide CpuAt, Keeps2, DistinctMarks, SentAt, PairStep, ChangedOnlyIn;
    e := CallStep(w, s, who, k, c);
    SendsNothing(c, s.mem);
    assert s.sent + [] == s.sent;
  }

  /** A last call, or the branch to itself after it. */
  lemma MoveEnding(w: Setting, s: Pair, who: Who, k: nat, call: imm16, c: Cpu) returns (e: Cpu)
    requires w.Ok() && k + 2 <= |w.ops| && w.ops[k] == SVC && w.ops[k + 1] == Code([B(0)])
    requires call != SYSCALL_CLONE && call != SYSCALL_GETCPU && call != SYSCALL_WRITE
    requires Idle(s, who, c) && Ending(w, k, call, c)
    ensures Silent(s, who, e, w.Next(s, who)) && Ending(w, k, call, e) && w.Here(e, k + 1) && w.Reaches(e, e)
    ensures if w.Here(c, k + 1) then SameLog(s, w.Next(s, who)) else Logged(s, who, e, w.Next(s, who))
  {
    hide CpuAt, Keeps2, DistinctMarks, Comes, PairStep, Prog, ProgramOf;
    if w.Here(c, k + 1) {
      HaltStep(w, s, who, k + 1, c);
      e := c;
    } else {
      e := QuietCall(w, s, who, k, c);
    }
    ComesSelf(Prog(w.ops, w.a), e);
  }

  lemma MoveLeaving(w: Setting, s: Pair, who: Who, m: nat, c: Cpu) returns (e: Cpu)
    requires w.Ok() && Failing(w.ops, m) && Idle(s, who, c) && Leaving(w, m, c)
    ensures Silent(s, who, e, w.Next(s, who)) && Leaving(w, m, e) && w.Here(e, m + 4) && w.Reaches(e, e)
    ensures if w.Here(c, m + 4) then SameLog(s, w.Next(s, who)) else Logged(s, who, e, w.Next(s, who))
  {
    hide CpuAt, Keeps2, DistinctMarks, Comes, PairStep, Prog, ProgramOf, Silent, Logged, SameLog;
    e := MoveEnding(w, s, who, m + 3, EXIT, c);
  }

  /** A call judged by `cmp` and a branch: to the exit call, or past it. */
  lemma MoveJudged(w: Setting, s: Pair, who: Who, k: nat, m: nat, c: Cpu, imm: imm12, on: cond)
    returns (e: Cpu, d: Cpu)
    requires w.Ok() && k + 2 < |w.ops| && w.ops[k] == SVC && Idle(s, who, c) && w.Here(c, k) && c.Valid()
    requires c.x[8] != SYSCALL_CLONE && c.x[8] != SYSCALL_GETCPU && (c.x[8] != SYSCALL_WRITE || c.x[0] != 1)
    requires w.ops[k + 1] == Code([CmpImm(0, imm)]) && w.ops[k + 2] == JumpIf("failure", on) && Failing(w.ops, m)
    requires on == NE || (on == MI && imm == 0)
    ensures e.Valid() && d.Valid() && w.Reaches(e, d) && Silent(s, who, e, w.Next(s, who))
    ensures Logged(s, who, e, w.Next(s, who))
    ensures if (if on == NE then e.x[0] != imm else e.x[0] >= SIGN) then Quitting(w, m, d)
            else w.Here(d, k + 3) && d.x == e.x && d.x[1..] == c.x[1..]
    ensures c.x[8] == SYSCALL_OPENAT ==> e.x[0] != 1
  {
    hide CpuAt, Keeps2, DistinctMarks, Comes, PairStep, Silent;
    e := QuietCall(w, s, who, k, c);
    d := Judged(w, k + 1, m, e, imm, on);
    if if on == NE then e.x[0] != imm else e.x[0] >= SIGN {
      var f := d;
      d := ToExit(w, m, f);
      ComesThen(Prog(w.ops, w.a), e, f, d);
    }
  }

  /** Asking for the mask. */
  lemma MoveSetAffinity(w: Setting, s: Pair, who: Who, b: nat, m: nat, mask: string, observed: string, cpu: imm12,
                        c: Cpu)
    returns (e: Cpu, d: Cpu)
    requires w.Ok() && Pinning(w.ops, b, mask, observed, cpu) && Failing(w.ops, m)
    requires Idle(s, who, c) && w.Here(c, b + 4) && c.Valid() && c.x[8] == SETAFFINITY
    ensures e.Valid() && d.Valid() && w.Reaches(e, d) && Silent(s, who, e, w.Next(s, who))
    ensures Logged(s, who, e, w.Next(s, who))
    ensures if e.x[0] != 0 then Quitting(w, m, d)
            else w.Here(d, b + 11) && Placing(w, d, observed)
  {
    hide CpuAt, Keeps2, DistinctMarks, Comes, PairStep, Silent, Logged, Quitting, Failing;
    e, d := MoveJudged(w, s, who, b + 4, m, c, 0, NE);
    if e.x[0] == 0 {
      var f := d;
      d := ToGetCpu(w, b, mask, observed, cpu, f);
      ComesThen(Prog(w.ops, w.a), e, f, d);
    }
  }

  /** Asking for the CPU: at most the observed word changes. */
  lemma MoveGetCpu(w: Setting, s: Pair, who: Who, b: nat, m: nat, mask: string, observed: string, cpu: imm12, c: Cpu)
    returns (e: Cpu, d: Cpu)
    requires w.Ok() && Pinning(w.ops, b, mask, observed, cpu) && Failing(w.ops, m)
    requires Idle(s, who, c) && w.Here(c, b + 11) && c.Valid() && c.x[8] == SYSCALL_GETCPU
    requires observed in w.a && c.x[0] == w.a[observed]
    ensures e.Valid() && d.Valid() && w.Reaches(e, d)
    ensures var t := w.Next(s, who);
            && Present(t, who) && t == With(s, who, e).(mem := t.mem, traps := t.traps, log := t.log)
            && ChangedOnlyIn(s.mem, t.mem, w.a[observed], 4) && Logged(s, who, e, t)
    ensures if e.x[0] != 0 then Quitting(w, m, d) else w.Here(d, b + 15) && d.x[1] == w.a[observed]
  {
    hide CpuAt, Keeps2, DistinctMarks, Comes, PairStep, Logged, Quitting, ChangedOnlyIn, SentAt, Pinning, Failing;
    PinCalls(w.ops, b, mask, observed, cpu, m);
    e := CallStep(w, s, who, b + 11, c);
    SendsNothing(c, s.mem);
    assert s.sent + [] == s.sent;
    d := Judged(w, b + 12, m, e, 0, NE);
    var f := d;
    if e.x[0] != 0 {
      d := ToExit(w, m, f);
      ExitQuits(w, m, d);
    } else {
      d := ToLoadCpu(w, b, mask, observed, cpu, f);
    }
    ComesThen(Prog(w.ops, w.a), e, f, d);
  }

  lemma PinCalls(ops: seq<Op>, b: nat, mask: string, observed: string, cpu: imm12, m: nat)
    requires Pinning(ops, b, mask, observed, cpu) && Failing(ops, m)
    ensures b + 18 <= |ops| && m < |ops| && ops[m] == Mark("failure")
    ensures ops[b + 11] == SVC && ops[b + 12] == Code([CmpImm(0, 0)]) && ops[b + 13] == JumpIf("failure", NE)
  {
  }

  lemma ExitQuits(w: Setting, m: nat, d: Cpu)
    requires Names(w.ops, w.a) && d.Valid() && w.Here(d, m + 3) && d.x[8] == EXIT && d.x[0] == 1
    ensures Quitting(w, m, d)
  {
  }

  /** Comparing the observed CPU. */
  lemma MoveCheckCpu(w: Setting, s: Pair, who: Who, b: nat, m: nat, mask: string, observed: string, cpu: imm12, c: Cpu)
    returns (e: Cpu, d: Cpu)
    requires w.Ok() && Pinning(w.ops, b, mask, observed, cpu) && Failing(w.ops, m)
    requires Idle(s, who, c) && w.Here(c, b + 15) && c.Valid() && observed in w.a && c.x[1] == w.a[observed]
    requires w.a[observed] % 4 == 0 && Mapped(s.mem, w.a[observed])
    ensures e.Valid() && d.Valid() && w.Reaches(e, d) && w.Next(s, who) == With(s, who, e)
    ensures if Load32(s.mem, w.a[observed]) != cpu then Quitting(w, m, d) else w.Here(d, b + 18)
  {
    hide CpuAt, Keeps2, DistinctMarks, Comes, PairStep, Quitting, Load32;
    e := LoadStep(w, s, who, b + 15, c, 0, 1);
    d := Judged(w, b + 16, m, e, cpu, NE);
    if Load32(s.mem, w.a[observed]) != cpu {
      var f := d;
      d := ToExit(w, m, f);
      ExitQuits(w, m, d);
      ComesThen(Prog(w.ops, w.a), e, f, d);
    }
  }

  /** Storing the constant. */
  lemma MoveStore(w: Setting, s: Pair, who: Who, b: nat, value: imm16, name: string, c: Cpu) returns (e: Cpu)
    requires w.Ok() && Storing(w.ops, b, value, name) && Idle(s, who, c) && w.Here(c, b + 2) && c.Valid()
    requires name in w.a && c.x[0] == value && c.x[1] == w.a[name] && w.a[name] % 4 == 0 && Mapped(s.mem, w.a[name])
    ensures e.Valid() && w.Here(e, b + 3)
    ensures var t := With(s, who, e); t.Pair? && w.Next(s, who) == t.(mem := Store32(s.mem, w.a[name], value))
  {
    hide CpuAt, Keeps2, DistinctMarks, Comes, PairStep, Store32;
    e := StoreStep(w, s, who, b + 2, c, 0, 1);
  }

  /** One look at the awaited word: round again, or on. */
  lemma MoveWait(w: Setting, s: Pair, who: Who, b: nat, mark: string, name: string, imm: imm12, on: cond, c: Cpu)
    returns (e: Cpu, d: Cpu)
    requires w.Ok() && Waiting(w.ops, b, mark, name, imm, on) && (on == NE || on == EQ)
    requires Idle(s, who, c) && w.Here(c, b + 2) && c.Valid() && name in w.a && c.x[1] == w.a[name]
    requires w.a[name] % 4 == 0 && Mapped(s.mem, w.a[name])
    ensures e.Valid() && d.Valid() && w.Reaches(e, d) && w.Next(s, who) == With(s, who, e)
    ensures if (Load32(s.mem, w.a[name]) == imm) == (on == EQ) then w.Here(d, b + 2) && d.x[1] == w.a[name]
            else w.Here(d, b + 5) && d.x == c.x[0 := Load32(s.mem, w.a[name])]
  {
    hide CpuAt, Keeps2, DistinctMarks, Comes, PairStep, Load32;
    e := LoadStep(w, s, who, b + 2, c, 0, 1);
    d := Judged(w, b + 3, b, e, imm, on);
    if (Load32(s.mem, w.a[name]) == imm) == (on == EQ) {
      var f := d;
      d := ToWait(w, b, mark, name, imm, on, f);
      ComesThen(Prog(w.ops, w.a), e, f, d);
    }
  }

  /** Sending a text. */
  lemma MovePrint(w: Setting, s: Pair, who: Who, b: nat, name: string, text: seq<byte>, c: Cpu) returns (e: Cpu)
    requires w.Ok() && |text| < TWO16 && Printing(w.ops, b, name, |text|)
    requires Idle(s, who, c) && w.Here(c, b + 4) && c.Valid()
    requires name in w.a && Holds(s.mem, w.a[name], text)
    requires c.x[0] == 1 && c.x[1] == w.a[name] && c.x[2] == |text| && c.x[8] == SYSCALL_WRITE
    ensures e.Valid() && w.Here(e, b + 5)
    ensures var t := w.Next(s, who);
            && Present(t, who) && t == With(s, who, e).(traps := t.traps, sent := s.sent + text, log := t.log)
            && Logged(s, who, e, t)
  {
    hide CpuAt, Keeps2, DistinctMarks, Comes, PairStep, SentAt, Holds;
    e := CallStep(w, s, who, b + 4, c);
    Sends(c, s.mem, text);
  }
}
