/** The serial receive program, instruction by instruction: from the first
    instruction of its image, under every kernel that keeps the system call
    convention. */
module SerialRx {
  import opened Bytes
  import opened A64
  import opened Machine
  import opened Assembler
  import opened Syscalls
  import opened Layout
  import opened Blocks
  import opened Templates
  import GuestElf

  const FDCWD: int := 0x1_0000_0000_0000_0000 - 100
  const OPENAT: imm16 := 56
  const IOCTL: imm16 := 29
  const TCSETS: imm16 := 0x5402
  const RDWR: imm16 := 2

  /** The bytes the program is built from. */
  datatype Texts = Texts(
    tty: seq<byte>, termios: seq<byte>, input: seq<byte>,
    ready: seq<byte>, success: seq<byte>, failure: seq<byte>)
  {
    predicate Valid() {
      && 1 <= |input| < TWO16
      && |tty| < 4096 && |termios| < 4096
      && |ready| < 4096 && |success| < 4096 && |failure| < 4096
    }
  }

  /** `serial_rx_init_data`. */
  function Data(t: Texts): (d: seq<Datum>)
    ensures |d| == 7
  {
    [Datum("serial_tty", t.tty), Datum("raw_termios", t.termios), Datum("expected_input", t.input),
     Datum("input_buffer", Zeros(|t.input|)), Datum("ready_marker", t.ready),
     Datum("success_marker", t.success), Datum("failure_marker", t.failure)]
  }

  const OPEN: seq<Instr> := [Movz(2, RDWR, 0), Movz(3, 0, 0), Movz(8, OPENAT, 0)]
  const TEST: seq<Instr> := [Svc, CmpImm(0, 0)]
  const KEEP: seq<Instr> := [MovReg(19, 0)]
  const ARGUMENTS: seq<Instr> := [MovReg(0, 19), Movz(1, TCSETS, 0)]
  const CONFIGURE: seq<Instr> := [Movz(8, IOCTL, 0)]
  const READ: seq<Instr> := [MovReg(0, 19), MovReg(1, 20), MovReg(2, 21), Movz(8, SYSCALL_READ, 0)]
  const ADVANCE: seq<Instr> := [AddReg64(20, 20, 0), SubReg64(21, 21, 0)]
  const COMPARE: seq<Instr> := [Ldrb(23, 20), Ldrb(24, 21), CmpReg32(23, 24)]
  const NEXT: seq<Instr> := [AddImm64(20, 20, 1), AddImm64(21, 21, 1), SubImm64(22, 22, 1)]

  /** The builder calls of `build_serial_rx_init_code`, in order. */
  function OpAt(t: Texts, k: nat): Op
    requires t.Valid() && k < 32
  {
    match k
    case 0 => Code(MovImm(0, FDCWD))
    case 1 => LoadAddress(1, "serial_tty", 0)
    case 2 => Code(OPEN + TEST)
    case 3 => JumpIf("failure", MI)
    case 4 => Code(KEEP)
    case 5 => Code(ARGUMENTS)
    case 6 => LoadAddress(2, "raw_termios", 0)
    case 7 => Code(CONFIGURE + TEST)
    case 8 => JumpIf("failure", NE)
    case 9 => Print(1, "ready_marker", |t.ready|)
    case 10 => LoadAddress(20, "input_buffer", 0)
    case 11 => Code([Movz(21, |t.input|, 0)])
    case 12 => Mark("read_input")
    case 13 => Code(READ + TEST)
    case 14 => JumpIf("failure", MI)
    case 15 => JumpIf("read_input", EQ)
    case 16 => Code(ADVANCE + [CmpImm(21, 0)])
    case 17 => JumpIf("read_input", NE)
    case 18 => LoadAddress(20, "input_buffer", 0)
    case 19 => LoadAddress(21, "expected_input", 0)
    case 20 => Code([Movz(22, |t.input|, 0)])
    case 21 => Mark("compare_input")
    case 22 => Code(COMPARE)
    case 23 => JumpIf("failure", NE)
    case 24 => Code(NEXT + [CmpImm(22, 0)])
    case 25 => JumpIf("compare_input", NE)
    case 26 => Print(1, "success_marker", |t.success|)
    case 27 => Jump("done")
    case 28 => Mark("failure")
    case 29 => Print(1, "failure_marker", |t.failure|)
    case 30 => Mark("done")
    case _ => Code([B(0)])
  }

  function Ops(t: Texts): (ops: seq<Op>)
    requires t.Valid()
    ensures |ops| == 32 && forall k | 0 <= k < 32 :: ops[k] == OpAt(t, k)
  {
    seq(32, k requires 0 <= k < 32 => OpAt(t, k))
  }

  // ----- the setting of a run -----

  predicate Apart(a: int, n: nat, b: int, m: nat) { a + n <= b || b + m <= a }

  /** A template, the addresses of its data, and a kernel. */
  datatype World = World(t: Texts, a: map<string, int>, kernel: Kernel) {
    predicate Named() {
      && "serial_tty" in a && "raw_termios" in a && "expected_input" in a && "input_buffer" in a
      && "ready_marker" in a && "success_marker" in a && "failure_marker" in a
    }

    /** A datum in the address space, away from the input buffer. */
    predicate Safe(name: string, size: nat)
      requires Named() && name in a
    {
      0 <= a[name] && a[name] + size < TWO64 && Apart(a["input_buffer"], |t.input|, a[name], size)
    }

    ghost predicate Ok() {
      && t.Valid() && Named() && Obeys(kernel)
      && 0 <= a["input_buffer"] && a["input_buffer"] + |t.input| < TWO64
      && Safe("serial_tty", |t.tty|) && Safe("raw_termios", |t.termios|)
      && Safe("expected_input", |t.input|) && Safe("ready_marker", |t.ready|)
      && Safe("success_marker", |t.success|) && Safe("failure_marker", |t.failure|)
    }

    lemma OkNamed()
      requires Ok()
      ensures Named() && t.Valid() && Obeys(kernel)
    {
    }

    lemma TtyFits()
      requires Ok()
      ensures 0 <= a["serial_tty"] < TWO64 && 0 <= a["raw_termios"] < TWO64
    {
    }

    function Buffer(): int requires Named() { a["input_buffer"] }

    /** The constant data are in place and the buffer is mapped. */
    predicate MemOk(mem: Memory)
      requires Named()
    {
      && Holds(mem, a["expected_input"], t.input) && Holds(mem, a["ready_marker"], t.ready)
      && Holds(mem, a["success_marker"], t.success) && Holds(mem, a["failure_marker"], t.failure)
      && forall b | Buffer() <= b < Buffer() + |t.input| :: b in mem
    }

    /** Nothing but the input buffer has changed. */
    ghost predicate Kept(mem: Memory, mem': Memory)
      requires Named()
    {
      ChangedOnlyIn(mem, mem', Buffer(), |t.input|)
    }

    lemma KeptSelf(mem: Memory)
      requires Named()
      ensures Kept(mem, mem)
    {
    }

    lemma KeptTrans(a: Memory, b: Memory, c: Memory)
      requires Named() && Kept(a, b) && Kept(b, c)
      ensures Kept(a, c)
    {
    }

    lemma NamesOps()
      requires Named() && t.Valid()
      ensures Names(Ops(t), a)
    {
    }

    /** Running, about to execute operation `k`. */
    predicate Here(r: Run, k: nat)
      requires Named() && t.Valid() && k <= 32
    {
      NamesOps();
      AtOp(Ops(t), a, r, k)
    }

    ghost predicate To(r: Run, s: Run, log: seq<Event>)
      requires Named() && t.Valid()
    {
      NamesOps();
      Leads(Prog(Ops(t), a), kernel, r, s, log)
    }
  }

  lemma MarkOnly(t: Texts, k: nat)
    requires t.Valid() && k < 32 && Ops(t)[k].Mark?
    ensures k == 12 || k == 21 || k == 28 || k == 30
  {
  }

  lemma JumpOnly(t: Texts, k: nat)
    requires t.Valid() && k < 32 && (Ops(t)[k].JumpIf? || Ops(t)[k].Jump?)
    ensures Ops(t)[k].mark in ["failure", "read_input", "compare_input", "done"]
  {
  }

  lemma FourMarks(t: Texts)
    requires t.Valid()
    ensures Ops(t)[12] == Mark("read_input") && Ops(t)[21] == Mark("compare_input")
    ensures Ops(t)[28] == Mark("failure") && Ops(t)[30] == Mark("done")
    ensures "read_input" != "compare_input" && "read_input" != "failure" && "read_input" != "done"
    ensures "compare_input" != "failure" && "compare_input" != "done" && "failure" != "done"
  {
    assert |"read_input"| == 10 && |"compare_input"| == 13 && |"failure"| == 7 && |"done"| == 4;
  }

  lemma Marks(t: Texts)
    requires t.Valid()
    ensures DistinctMarks(Ops(t)) && Targeted(Ops(t))
  {
    hide Ops;
    var ops := Ops(t);
    FourMarks(t);
    forall i, j | 0 <= i < j < |ops| && ops[i].Mark? && ops[j].Mark? ensures ops[i].mark != ops[j].mark {
      MarkOnly(t, i);
      MarkOnly(t, j);
    }
    forall k | 0 <= k < |ops| && (ops[k].JumpIf? || ops[k].Jump?)
      ensures exists m | 0 <= m < |ops| :: ops[m] == Mark(ops[k].mark)
    {
      JumpOnly(t, k);
    }
  }

  lemma Then(w: World, r1: Run, r2: Run, r3: Run, l1: seq<Event>, l2: seq<Event>)
    requires w.Named() && w.t.Valid() && w.To(r1, r2, l1) && w.To(r2, r3, l2)
    ensures w.To(r1, r3, l1 + l2)
  {
    hide Leads, Ops;
    w.NamesOps();
    LeadsTrans(Prog(Ops(w.t), w.a), w.kernel, r1, r2, r3, l1, l2);
  }

  lemma Quietly(w: World, r1: Run, r2: Run, r3: Run)
    requires w.Named() && w.t.Valid() && w.To(r1, r2, []) && w.To(r2, r3, [])
    ensures w.To(r1, r3, [])
  {
    hide World.To;
    var none: seq<Event> := [];
    Then(w, r1, r2, r3, none, none);
    assert none + none == none;
  }

  // ----- one operation -----

  /** Plain code. */
  lemma PlainOp(w: World, r: Run, k: nat, instrs: seq<Instr>, c: Cpu)
    requires w.Ok() && k < 32 && w.Here(r, k)
    requires Ops(w.t)[k] == Code(instrs) && forall i | 0 <= i < |instrs| :: GuestElf.Plain(instrs[i])
    requires c.Valid() && ExecAll(instrs, r.cpu, r.mem) == Running(c, r.mem)
    ensures var s := Assembler.At(c, r.mem, r.traps); w.To(r, s, []) && w.Here(s, k + 1)
  {
    hide Ops, ExecAll, Straight, StraightLog, Leads, Obeys, AtOp;
    w.NamesOps();
    AtOpMeans(w, r, k);
    StraightExec(instrs, w.kernel, r);
    assert Items(Ops(w.t)[k], w.a) == Encoded(instrs);
    OpRuns(Ops(w.t), k, w.a, w.kernel, r, instrs);
  }

  lemma AtOpMeans(w: World, r: Run, k: nat)
    requires w.Named() && w.t.Valid() && k <= 32 && w.Here(r, k)
    ensures r.At? && r.cpu.Valid()
  {
  }

  /** An address or constant load. */
  lemma LoadOp(w: World, r: Run, k: nat, rd: reg, value: int)
    requires w.Ok() && k < 32 && w.Here(r, k)
    requires var op := Ops(w.t)[k];
             op == Code(MovImm(rd, value)) || (op.LoadAddress? && op.rd == rd && op.plus == 0
                                               && op.name in w.a && w.a[op.name] == value)
    ensures var s := Assembler.At(r.cpu.(pc := r.cpu.pc + 16).Set(rd, value), r.mem, r.traps);
            w.To(r, s, []) && w.Here(s, k + 1)
  {
    hide Ops, ExecAll, Straight, StraightLog, Leads, Obeys, MovImm, Cpu.Set, AtOp;
    w.NamesOps();
    AtOpMeans(w, r, k);
    var instrs := MovImm(rd, value);
    GuestElf.MovImmPlain(rd, value);
    MovImmLoads(rd, value, r.cpu, r.mem);
    StraightExec(instrs, w.kernel, r);
    assert Items(Ops(w.t)[k], w.a) == Encoded(instrs);
    OpRuns(Ops(w.t), k, w.a, w.kernel, r, instrs);
  }

  /** A system call and the test of its result. */
  lemma CallOp(w: World, r: Run, k: nat, front: seq<Instr>, c: Cpu) returns (s: Run, e: Event)
    requires w.Ok() && k < 32 && w.Here(r, k)
    requires Ops(w.t)[k] == Code(front + TEST)
    requires forall i | 0 <= i < |front| :: GuestElf.Plain(front[i])
    requires c.Valid() && ExecAll(front, r.cpu, r.mem) == Running(c, r.mem)
    ensures w.To(r, s, [e]) && w.Here(s, k + 1)
    ensures s.At? && s.cpu.Valid() && Answers(c.Next(), r.mem, s.cpu.(pc := c.pc + 4), s.mem)
    ensures s.cpu.flags == SubtractFlags(s.cpu.x[0], 0, TWO64)
    ensures e == EventOf(c.Next(), r.mem, s.cpu, s.mem)
  {
    hide Ops, ExecAll, Straight, StraightLog, Leads, Obeys, AtOp, Answers, SubtractFlags, EventOf, Items, Encoded;
    w.NamesOps();
    AtOpMeans(w, r, k);
    CallThenCompare(front, w.kernel, r, c);
    var instrs := front + TEST;
    CodeItems(instrs, w.a);
    CallNoBranch(front);
    OpRuns(Ops(w.t), k, w.a, w.kernel, r, instrs);
    var (c', m') := w.kernel(r.traps, c.Next(), r.mem);
    s := Assembler.At(Compared(c'), m', r.traps + 1);
    e := EventOf(c.Next(), r.mem, c', m');
    SameRegisters(c.Next(), r.mem, c', s.cpu, m');
  }

  lemma CodeItems(instrs: seq<Instr>, a: map<string, int>)
    ensures Items(Code(instrs), a) == Encoded(instrs)
  {
  }

  lemma CallNoBranch(front: seq<Instr>)
    requires forall i | 0 <= i < |front| :: GuestElf.Plain(front[i])
    ensures forall i | 0 <= i < |front + TEST| :: NoBranch((front + TEST)[i])
  {
  }

  lemma SameRegisters(c: Cpu, m: Memory, c': Cpu, d: Cpu, m': Memory)
    requires c.Valid() && c'.Valid() && d.Valid() && d.x == c'.x && Answers(c, m, c', m')
    ensures EventOf(c, m, d, m') == EventOf(c, m, c', m') && Answers(c, m, d.(pc := c.pc), m')
  {
  }

  /** A branch. */
  lemma JumpOp(w: World, r: Run, k: nat, m: nat) returns (s: Run)
    requires w.Ok() && k < 32 && m < 32 && w.Here(r, k)
    requires var op := Ops(w.t)[k]; (op.JumpIf? || op.Jump?) && Ops(w.t)[m] == Mark(op.mark)
    ensures r.At? && s.At? && s.cpu.Valid() && s.cpu.x == r.cpu.x && s.cpu.flags == r.cpu.flags && s.mem == r.mem
    ensures w.To(r, s, [])
    ensures var taken := Ops(w.t)[k].Jump? || ConditionHolds(Ops(w.t)[k].c, r.cpu.flags);
            w.Here(s, if taken then m + 1 else k + 1)
  {
    hide Ops, Leads, Obeys, ConditionHolds, AtOp, DistinctMarks, Targeted, Pos;
    w.NamesOps();
    Marks(w.t);
    AtOpMeans(w, r, k);
    JumpRuns(Ops(w.t), k, m, w.a, w.kernel, r);
    var taken := Ops(w.t)[k].Jump? || ConditionHolds(Ops(w.t)[k].c, r.cpu.flags);
    s := Assembler.At(r.cpu.(pc := 4 * Pos(Ops(w.t), if taken then m else k + 1, w.a)), r.mem, r.traps);
    PastMark(w, s, m);
  }

  lemma PastMark(w: World, s: Run, m: nat)
    requires w.Named() && w.t.Valid() && m < 32 && Ops(w.t)[m].Mark?
    ensures w.Here(s, m) <==> w.Here(s, m + 1)
  {
    hide Ops;
    w.NamesOps();
    MarkIsFree(Ops(w.t), m, w.a);
  }

  /** A marker. */
  lemma PrintOp(w: World, r: Run, k: nat, data: seq<byte>) returns (s: Run, log: seq<Event>)
    requires w.Ok() && k < 32 && w.Here(r, k) && w.MemOk(r.mem)
    requires var op := Ops(w.t)[k];
             && op.Print? && op.fd == 1 && op.size == |data| && op.name in w.a && w.Safe(op.name, |data|)
             && Holds(r.mem, w.a[op.name], data)
    ensures r.At? && r.cpu.Valid() && s.At? && s.cpu.Valid() && Keeps(r.cpu, s.cpu) && s.mem == r.mem
    ensures w.To(r, s, log) && w.Here(s, k + 1)
    ensures Sent(log) == data && ReadsOf(log) == [] && InChunks(log)
  {
    hide Ops, Leads, Obeys, Straight, StraightLog, AtOp, Sent, ReadsOf, InChunks, Holds, World.MemOk, ChunkCalls;
    w.NamesOps();
    AtOpMeans(w, r, k);
    var buffer := w.a[Ops(w.t)[k].name];
    PrintRuns(buffer, data, 0, w.kernel, r);
    PrintCallsAre(1, buffer, |data|);
    var instrs := PrintCalls(1, buffer, |data|);
    assert Items(Ops(w.t)[k], w.a) == Encoded(instrs);
    PrintNoBranch(buffer, Chunks(0, |data|));
    OpRuns(Ops(w.t), k, w.a, w.kernel, r, instrs);
    s := Straight(instrs, w.kernel, r);
    log := StraightLog(instrs, w.kernel, r);
    assert data[0..] == data;
  }

  lemma {:induction false} PrintNoBranch(buffer: int, chunks: seq<Chunk>)
    requires forall c | c in chunks :: c.size <= SERIAL_CHUNK
    ensures forall i | 0 <= i < |ChunkCalls(1, buffer, chunks)| :: NoBranch(ChunkCalls(1, buffer, chunks)[i])
    decreases |chunks|
  {
    if chunks != [] {
      PrintNoBranch(buffer, chunks[1..]);
    }
  }
}
