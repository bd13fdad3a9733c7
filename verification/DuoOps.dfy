/** What one visible instruction of a template does to a pair of CPUs, and
    where register code leads from there. */
module DuoOps {
  import opened Bytes
  import opened A64
  import opened Machine
  import opened Assembler
  import opened Syscalls
  import opened Layout
  import opened Blocks
  import opened Templates
  import opened Duo
  import GuestElf

  /** A template, its addresses and a kernel. */
  datatype Setting = Setting(ops: seq<Op>, a: map<string, int>, kernel: Kernel) {
    ghost predicate Ok() {
      && Names(ops, a) && DistinctMarks(ops) && Keeps2(kernel)
      && forall n | n in a :: 0 <= a[n] && a[n] + 0x1_0000 < TWO64
    }

    predicate Here(c: Cpu, k: nat)
      requires Names(ops, a)
    {
      k <= |ops| && CpuAt(ops, a, c, k)
    }

    ghost predicate Reaches(c: Cpu, d: Cpu)
      requires Names(ops, a)
    {
      Comes(Prog(ops, a), c, d)
    }

    function Next(s: Pair, who: Who): Pair
      requires Names(ops, a)
    {
      PairStep(Prog(ops, a), kernel, s, who)
    }
  }

  lemma AtEntry(w: Setting, c: Cpu)
    requires Names(w.ops, w.a) && c.Valid() && c.pc == 0
    ensures w.Here(c, 0)
  {
  }

  // ----- register code -----

  /** One register set from a constant, an address or other registers. */
  predicate Simple(op: Op) {
    match op
    case Code(instrs) => |instrs| == 1 && (Setter(instrs[0]) || instrs[0].AddImm32?)
    case LoadAddress(_, _, plus) => plus <= 4096
    case _ => false
  }

  function ValueOf(i: Instr, x: seq<u64>): u64
    requires |x| == 31 && (Setter(i) || i.AddImm32?)
  {
    match i
    case Movz(_, imm, _) => imm
    case MovReg(_, rm) => x[rm]
    case AddReg64(_, rn, rm) => (x[rn] + x[rm]) % TWO64
    case SubReg64(_, rn, rm) => (x[rn] - x[rm]) % TWO64
    case AddImm64(_, rn, u) => (x[rn] + u) % TWO64
    case SubImm64(_, rn, u) => (x[rn] - u) % TWO64
    case AddImm32(_, rn, u) => (x[rn] % 0x1_0000_0000 + u) % 0x1_0000_0000
  }

  /** The registers after one simple operation. */
  function SetsOne(op: Op, a: map<string, int>, x: seq<u64>): (y: seq<u64>)
    requires |x| == 31 && Simple(op) && (op.LoadAddress? ==> op.name in a)
    ensures |y| == 31
  {
    match op
    case Code(instrs) => x[instrs[0].rd := ValueOf(instrs[0], x)]
    case LoadAddress(rd, name, plus) => x[rd := (a[name] + plus) % TWO64]
  }

  lemma SimpleInstr(i: Instr, c: Cpu)
    requires c.Valid() && (Setter(i) || i.AddImm32?)
    ensures RegisterOnly(i)
    ensures Exec(i, c, map[]) == Running(c.(pc := c.pc + 4, x := c.x[i.rd := ValueOf(i, c.x)]), map[])
  {
    if Setter(i) {
      hide Exec;
      SetterRuns(i, c, c.pc, map[]);
      assert c.(pc := c.pc) == c;
      SetByIs(i, c);
    }
  }

  lemma SetByIs(i: Instr, c: Cpu)
    requires c.Valid() && Setter(i)
    ensures SetBy(i, c) == c.(x := c.x[i.rd := ValueOf(i, c.x)])
  {
  }

  lemma ExecOne(i: Instr, c: Cpu, d: Cpu)
    requires c.Valid() && d.Valid() && Exec(i, c, map[]) == Running(d, map[])
    ensures ExecAll([i], c, map[]) == Running(d, map[])
  {
    hide Exec;
    assert [i][1..] == [];
    assert ExecAll([], d, map[]) == Running(d, map[]);
  }

  lemma SimpleOp(w: Setting, k: nat, c: Cpu) returns (d: Cpu)
    requires w.Ok() && k < |w.ops| && w.Here(c, k) && Simple(w.ops[k])
    ensures w.ops[k].LoadAddress? ==> w.ops[k].name in w.a
    ensures w.Reaches(c, d) && w.Here(d, k + 1) && d.flags == c.flags && d.x == SetsOne(w.ops[k], w.a, c.x)
  {
    hide Comes, Exec, ExecAll, MovImm, ProgramOf, DistinctMarks, ValueOf, RegisterOnly, CpuAt;
    assert c.Valid() by {
      AtMeans(w, c, k);
    }
    var op := w.ops[k];
    if op.Code? {
      var i := op.instrs[0];
      SimpleInstr(i, c);
      d := c.(pc := c.pc + 4, x := c.x[i.rd := ValueOf(i, c.x)]);
      ExecOne(i, c, d);
      assert op.instrs == [i];
      RegistersOp(w.ops, k, w.a, [i], c, d);
    } else {
      var value := w.a[op.name] + op.plus;
      MovImmLoads(op.rd, value, c, map[]);
      d := c.(pc := c.pc + 16).Set(op.rd, value);
      MovImmRegisterOnly(op.rd, value);
      RegistersOp(w.ops, k, w.a, MovImm(op.rd, value), c, d);
    }
  }

  lemma AtMeans(w: Setting, c: Cpu, k: nat)
    requires Names(w.ops, w.a) && w.Here(c, k)
    ensures c.Valid() && c.pc >= 0
  {
  }

  lemma MovImmRegisterOnly(rd: reg, value: int)
    ensures forall j | 0 <= j < |MovImm(rd, value)| :: RegisterOnly(MovImm(rd, value)[j])
  {
  }

  /** A comparison and the branch on it. */
  lemma TestBranch(w: Setting, k: nat, m: nat, c: Cpu, rn: reg, imm: imm12) returns (d: Cpu)
    requires w.Ok() && k + 1 < |w.ops| && m < |w.ops| && w.Here(c, k) && c.Valid()
    requires w.ops[k] == Code([CmpImm(rn, imm)]) && w.ops[k + 1].JumpIf? && w.ops[m] == Mark(w.ops[k + 1].mark)
    ensures d.Valid() && w.Reaches(c, d) && d.x == c.x
    ensures var f := SubtractFlags(c.x[rn], imm, TWO64);
            w.Here(d, if ConditionHolds(w.ops[k + 1].c, f) then m + 1 else k + 2)
  {
    hide Comes, Exec, ExecAll, ProgramOf, DistinctMarks, ConditionHolds, SubtractFlags, CpuAt, Keeps2;
    var i := CmpImm(rn, imm);
    var e := c.(pc := c.pc + 4, flags := SubtractFlags(c.x[rn], imm, TWO64));
    TestInstr(rn, imm, c);
    ExecOne(i, c, e);
    RegistersOp(w.ops, k, w.a, [i], c, e);
    d := BranchOp(w.ops, k + 1, m, w.a, e);
    PastMarkAt(w, d, m);
    ComesThen(Prog(w.ops, w.a), c, e, d);
  }

  lemma TestInstr(rn: reg, imm: imm12, c: Cpu)
    requires c.Valid()
    ensures RegisterOnly(CmpImm(rn, imm))
    ensures Exec(CmpImm(rn, imm), c, map[])
            == Running(c.(pc := c.pc + 4, flags := SubtractFlags(c.x[rn], imm, TWO64)), map[])
  {
  }

  lemma PastMarkAt(w: Setting, c: Cpu, m: nat)
    requires Names(w.ops, w.a) && m < |w.ops| && w.ops[m].Mark?
    ensures w.Here(c, m) <==> w.Here(c, m + 1)
  {
    MarkIsFree(w.ops, m, w.a);
  }

  /** The 32-bit comparison of two registers and the branch on it. */
  lemma CompareBranch(w: Setting, k: nat, m: nat, c: Cpu, rn: reg, rm: reg) returns (d: Cpu)
    requires w.Ok() && k + 1 < |w.ops| && m < |w.ops| && w.Here(c, k) && c.Valid()
    requires w.ops[k] == Code([CmpReg32(rn, rm)]) && w.ops[k + 1].JumpIf? && w.ops[m] == Mark(w.ops[k + 1].mark)
    ensures d.Valid() && w.Reaches(c, d) && d.x == c.x
    ensures var left: int, right: int := c.x[rn], c.x[rm];
            var f := SubtractFlags(left % 0x1_0000_0000, right % 0x1_0000_0000, 0x1_0000_0000);
            w.Here(d, if ConditionHolds(w.ops[k + 1].c, f) then m + 1 else k + 2)
  {
    hide Comes, Exec, ExecAll, ProgramOf, DistinctMarks, ConditionHolds, SubtractFlags, CpuAt, Keeps2;
    var i := CmpReg32(rn, rm);
    var left: int, right: int := c.x[rn], c.x[rm];
    var f := SubtractFlags(left % 0x1_0000_0000, right % 0x1_0000_0000, 0x1_0000_0000);
    var e := c.(pc := c.pc + 4, flags := f);
    CompareInstr(rn, rm, c);
    ExecOne(i, c, e);
    RegistersOp(w.ops, k, w.a, [i], c, e);
    d := BranchOp(w.ops, k + 1, m, w.a, e);
    PastMarkAt(w, d, m);
    ComesThen(Prog(w.ops, w.a), c, e, d);
  }

  lemma CompareInstr(rn: reg, rm: reg, c: Cpu)
    requires c.Valid()
    ensures RegisterOnly(CmpReg32(rn, rm))
    ensures var left: int, right: int := c.x[rn], c.x[rm];
            Exec(CmpReg32(rn, rm), c, map[])
            == Running(c.(pc := c.pc + 4,
                          flags := SubtractFlags(left % 0x1_0000_0000, right % 0x1_0000_0000, 0x1_0000_0000)), map[])
  {
  }

  /** An unconditional branch. */
  lemma Branch(w: Setting, k: nat, m: nat, c: Cpu) returns (d: Cpu)
    requires w.Ok() && k < |w.ops| && m < |w.ops| && w.Here(c, k)
    requires w.ops[k].Jump? && w.ops[m] == Mark(w.ops[k].mark)
    ensures c.Valid() && d.Valid() && w.Reaches(c, d) && d.x == c.x && w.Here(d, m + 1)
  {
    hide Comes, ProgramOf, DistinctMarks, ConditionHolds, CpuAt, Keeps2;
    AtMeans(w, c, k);
    d := BranchOp(w.ops, k, m, w.a, c);
    PastMarkAt(w, d, m);
  }

  // ----- visible instructions -----

  predicate Idle(s: Pair, who: Who, c: Cpu) {
    Present(s, who) && Of(s, who) == c
  }

  /** At a call is not past it. */
  lemma NotPast(w: Setting, k: nat, c: Cpu)
    requires Names(w.ops, w.a) && k < |w.ops| && w.ops[k] == Code([Svc]) && w.Here(c, k)
    ensures !w.Here(c, k + 1)
  {
    hide ProgramOf;
    PosNext(w.ops, k, w.a);
  }

  /** The call just made, with its arguments and result, is in the log. */
  predicate Logged(s: Pair, who: Who, d: Cpu, t: Pair) {
    && Present(s, who) && Of(s, who).Valid() && d.Valid() && t.Pair?
    && t.log == s.log + [MadeBy(who, Of(s, who), s.mem, d.x[0])]
  }

  /** A system call other than `clone`. */
  lemma CallStep(w: Setting, s: Pair, who: Who, k: nat, c: Cpu) returns (d: Cpu)
    requires w.Ok() && k < |w.ops| && w.ops[k] == Code([Svc]) && Idle(s, who, c) && w.Here(c, k)
    requires c.Valid() && c.x[8] != SYSCALL_CLONE
    ensures d.Valid() && d.x[1..] == c.x[1..] && w.Here(d, k + 1)
    ensures var t := w.Next(s, who);
            && t.Pair? && Idle(t, who, d)
            && t == With(s, who, d).(mem := t.mem, traps := s.traps + 1, sent := s.sent + SentAt(c, s.mem),
                                     log := t.log)
            && Logged(s, who, d, t)
            && (if c.x[8] == SYSCALL_GETCPU then ChangedOnlyIn(s.mem, t.mem, c.x[0], 4) else t.mem == s.mem)
            && (c.x[8] == SYSCALL_OPENAT ==> d.x[0] != 1)
  {
    hide LabelledStep, ProgramOf, DistinctMarks, Peek, SentAt;
    VisibleOp(w.ops, k, w.a, Svc, c, s.mem);
    SvcExec(c, s.mem);
    var n := c.Next();
    d := w.kernel(s.traps, n, s.mem).0;
    assert Replies(n, s.mem, d, w.kernel(s.traps, n, s.mem).1);
    SameSent(c, s.mem);
  }

  lemma SvcExec(c: Cpu, mem: Memory)
    requires c.Valid()
    ensures Exec(Svc, c, mem) == Trapped(c.Next(), mem)
  {
  }

  lemma SameSent(c: Cpu, mem: Memory)
    requires c.Valid()
    ensures SentAt(c.Next(), mem) == SentAt(c, mem)
  {
    hide Peek;
  }

  /** `clone` by the first CPU: an error, or a second CPU at the same place with
      x0 zero. */
  lemma CloneStep(w: Setting, s: Pair, k: nat, c: Cpu) returns (d: Cpu)
    requires w.Ok() && k < |w.ops| && w.ops[k] == Code([Svc]) && Idle(s, First, c) && w.Here(c, k)
    requires c.Valid() && c.x[8] == SYSCALL_CLONE && s.second.None?
    ensures d.Valid() && d.x[1..] == c.x[1..] && w.Here(d, k + 1) && d.x[0] != 0
    ensures var t := w.Next(s, First);
            && t.Pair? && t.first == d && t.mem == s.mem && t.sent == s.sent && t.traps == s.traps + 1
            && Logged(s, First, d, t)
            && if d.x[0] >= SIGN then t.second.None?
               else t.second.Some? && t.second.value.Valid() && w.Here(t.second.value, k + 1)
                    && t.second.value.x == c.x[0 := 0]
  {
    hide LabelledStep, ProgramOf, DistinctMarks, Peek;
    VisibleOp(w.ops, k, w.a, Svc, c, s.mem);
    SvcExec(c, s.mem);
    var n := c.Next();
    d := w.kernel(s.traps, n, s.mem).0;
    assert Replies(n, s.mem, d, w.kernel(s.traps, n, s.mem).1);
  }

  /** A load of a word, acquiring or plain. */
  lemma LoadStep(w: Setting, s: Pair, who: Who, k: nat, c: Cpu, rd: reg, rn: reg) returns (d: Cpu)
    requires w.Ok() && k < |w.ops| && Idle(s, who, c) && w.Here(c, k) && c.Valid()
    requires w.ops[k] == Code([Ldar32(rd, rn)]) || w.ops[k] == Code([Ldr32(rd, rn)])
    requires c.x[rn] % 4 == 0 && Mapped(s.mem, c.x[rn])
    ensures d.Valid() && w.Here(d, k + 1) && d.x == c.x[rd := Load32(s.mem, c.x[rn])]
    ensures w.Next(s, who) == With(s, who, d)
  {
    hide LabelledStep, ProgramOf, DistinctMarks, Load32;
    var i := w.ops[k].instrs[0];
    VisibleOp(w.ops, k, w.a, i, c, s.mem);
    d := c.(pc := c.pc + 4, x := c.x[rd := Load32(s.mem, c.x[rn])]);
    assert Exec(i, c, s.mem) == Running(d, s.mem);
  }

  /** A releasing store of a word. */
  lemma StoreStep(w: Setting, s: Pair, who: Who, k: nat, c: Cpu, rs: reg, rn: reg) returns (d: Cpu)
    requires w.Ok() && k < |w.ops| && Idle(s, who, c) && w.Here(c, k) && c.Valid()
    requires w.ops[k] == Code([Stlr32(rs, rn)])
    requires c.x[rn] % 4 == 0 && Mapped(s.mem, c.x[rn])
    ensures d.Valid() && w.Here(d, k + 1) && d.x == c.x
    ensures var t := With(s, who, d);
            t.Pair? && w.Next(s, who) == t.(mem := Store32(s.mem, c.x[rn], c.x[rs] % 0x1_0000_0000))
  {
    hide LabelledStep, ProgramOf, DistinctMarks, Store32;
    VisibleOp(w.ops, k, w.a, Stlr32(rs, rn), c, s.mem);
    d := c.(pc := c.pc + 4);
    assert Exec(Stlr32(rs, rn), c, s.mem) == Running(d, Store32(s.mem, c.x[rn], c.x[rs] % 0x1_0000_0000));
  }

  /** A branch to itself changes nothing. */
  lemma HaltStep(w: Setting, s: Pair, who: Who, k: nat, c: Cpu)
    requires w.Ok() && k < |w.ops| && Idle(s, who, c) && w.Here(c, k) && c.Valid() && w.ops[k] == Code([B(0)])
    ensures w.Next(s, who) == s
  {
    hide LabelledStep, ProgramOf, DistinctMarks;
    VisibleOp(w.ops, k, w.a, B(0), c, s.mem);
    assert Exec(B(0), c, s.mem) == Running(c, s.mem);
  }

  // ----- words in memory -----

  lemma StoreLoads(mem: Memory, a: int, v: word)
    requires Mapped(mem, a)
    ensures Mapped(Store32(mem, a, v), a) && Load32(Store32(mem, a, v), a) == v
    ensures Store32(mem, a, v).Keys == mem.Keys
    ensures ChangedOnlyIn(mem, Store32(mem, a, v), a, 4)
  {
    hide Unpack;
    var s, m := Pack(v), Store32(mem, a, v);
    assert [m[a], m[a + 1], m[a + 2], m[a + 3]] == s;
  }

  lemma ChangeMisses(mem: Memory, mem': Memory, a: int, n: nat, b: int)
    requires ChangedOnlyIn(mem, mem', a, n) && Mapped(mem, b) && (a + n <= b || b + 4 <= a)
    ensures Mapped(mem', b) && Load32(mem', b) == Load32(mem, b)
  {
    hide Unpack;
    assert mem'[b] == mem[b] && mem'[b + 1] == mem[b + 1] && mem'[b + 2] == mem[b + 2] && mem'[b + 3] == mem[b + 3];
  }

  lemma ChangeMissesText(mem: Memory, mem': Memory, a: int, n: nat, b: int, text: seq<byte>)
    requires ChangedOnlyIn(mem, mem', a, n) && Holds(mem, b, text) && (a + n <= b || b + |text| <= a)
    ensures Holds(mem', b, text)
  {
  }

  /** A shared word: its address and what it holds. */
  datatype Cell = Cell(address: int, value: word)

  datatype Message = Message(address: int, bytes: seq<byte>)

  /** A named word is aligned and holds this value. */
  predicate Word(w: Setting, mem: Memory, name: string, value: word) {
    name in w.a && w.a[name] % 4 == 0 && Mapped(mem, w.a[name]) && Load32(mem, w.a[name]) == value
  }

  /** Memory holds these words and texts. */
  predicate Stores(mem: Memory, cells: seq<Cell>, texts: seq<Message>) {
    && (forall i | 0 <= i < |cells| :: Mapped(mem, cells[i].address) && Load32(mem, cells[i].address) == cells[i].value)
    && (forall i | 0 <= i < |texts| :: Holds(mem, texts[i].address, texts[i].bytes))
  }

  function PlacesOf(cells: seq<Cell>): (a: seq<int>)
    ensures |a| == |cells| && forall i | 0 <= i < |a| :: a[i] == cells[i].address
  {
    seq(|cells|, i requires 0 <= i < |cells| => cells[i].address)
  }

  /** Words are aligned, and apart from each other and from the texts. */
  predicate Laid(words: seq<int>, texts: seq<Message>) {
    && (forall i | 0 <= i < |words| :: words[i] % 4 == 0)
    && (forall i, j | 0 <= i < |words| && 0 <= j < |words| && i != j ::
          words[i] + 4 <= words[j] || words[j] + 4 <= words[i])
    && (forall i, j | 0 <= i < |words| && 0 <= j < |texts| ::
          words[i] + 4 <= texts[j].address || texts[j].address + |texts[j].bytes| <= words[i])
  }

  /** A change confined to one word leaves the others and the texts alone. */
  lemma ChangeOne(mem: Memory, mem': Memory, cells: seq<Cell>, texts: seq<Message>, i: nat)
    requires Laid(PlacesOf(cells), texts) && Stores(mem, cells, texts) && i < |cells|
    requires ChangedOnlyIn(mem, mem', cells[i].address, 4)
    ensures Mapped(mem', cells[i].address)
    ensures Stores(mem', cells[i := Cell(cells[i].address, Load32(mem', cells[i].address))], texts)
  {
    hide Load32, Holds, ChangedOnlyIn;
    assert Mapped(mem', cells[i].address) by {
      StillMapped(mem, mem', cells[i].address, cells[i].address);
    }
    forall j | 0 <= j < |cells| && j != i
      ensures Mapped(mem', cells[j].address) && Load32(mem', cells[j].address) == cells[j].value
    {
      assert PlacesOf(cells)[i] == cells[i].address && PlacesOf(cells)[j] == cells[j].address;
      ChangeMisses(mem, mem', cells[i].address, 4, cells[j].address);
    }
    forall j | 0 <= j < |texts| ensures Holds(mem', texts[j].address, texts[j].bytes) {
      assert PlacesOf(cells)[i] == cells[i].address;
      ChangeMissesText(mem, mem', cells[i].address, 4, texts[j].address, texts[j].bytes);
    }
  }

  lemma StillMapped(mem: Memory, mem': Memory, a: int, b: int)
    requires ChangedOnlyIn(mem, mem', a, 4) && Mapped(mem, b)
    ensures Mapped(mem', b)
  {
  }
}
