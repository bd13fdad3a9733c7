/** Two CPUs executing one program over one memory, an instruction at a time in
    any interleaving, under a kernel. The second CPU starts with the first
    `clone`. Between two accesses to memory or calls of the kernel a CPU's
    instructions touch only its own registers, so each CPU is summed up by the
    visible instruction it is on its way to. */
module Duo {
  import opened Bytes
  import opened A64
  import opened Machine
  import opened Assembler
  import opened Syscalls
  import opened Layout
  import opened Blocks
  import opened Templates
  import GuestElf

  const SYSCALL_OPENAT: imm16 := 56
  const SYSCALL_GETCPU: imm16 := 168
  const SYSCALL_CLONE: imm16 := 220

  datatype Who = First | Second

  datatype Option<T> = None | Some(value: T)

  /** A system call as it was made: by which CPU, its number and arguments, the
      memory it found, and what it returned. */
  datatype Made = Made(who: Who, number: u64, x0: u64, x1: u64, x2: u64, x3: u64, x4: u64, mem: Memory, result: u64)

  /** `sent` is what has been written to descriptor 1, `log` every call. */
  datatype Pair =
    | Pair(first: Cpu, second: Option<Cpu>, mem: Memory, traps: nat, sent: seq<byte>, log: seq<Made>)
    | Faulted

  // ----- the kernel -----

  /** The system call convention as these programs rely on it: only x0 changes;
      `getcpu` changes at most the word it is given, no other call changes
      memory; `clone` returns no 0 to its caller; `openat` returns no
      descriptor that is already open. */
  ghost predicate Replies(c: Cpu, m: Memory, c': Cpu, m': Memory)
    requires c.Valid()
  {
    && c'.Valid() && c'.pc == c.pc && c'.x[1..] == c.x[1..]
    && (if c.x[8] == SYSCALL_GETCPU then ChangedOnlyIn(m, m', c.x[0], 4) else m' == m)
    && (c.x[8] == SYSCALL_CLONE ==> c'.x[0] != 0)
    && (c.x[8] == SYSCALL_OPENAT ==> c'.x[0] != 1)
  }

  ghost predicate Keeps2(kernel: Kernel) {
    forall t: nat, c: Cpu, m: Memory | c.Valid() :: Replies(c, m, kernel(t, c, m).0, kernel(t, c, m).1)
  }

  // ----- one instruction -----

  predicate Present(s: Pair, who: Who)
  {
    s.Pair? && (who.Second? ==> s.second.Some?)
  }

  function Of(s: Pair, who: Who): Cpu
    requires Present(s, who)
  {
    if who.First? then s.first else s.second.value
  }

  function With(s: Pair, who: Who, c: Cpu): (t: Pair)
    requires Present(s, who)
    ensures t.Pair?
  {
    if who.First? then s.(first := c) else s.(second := Some(c))
  }

  function SentAt(c: Cpu, mem: Memory): seq<byte>
    requires c.Valid()
  {
    if c.x[8] == SYSCALL_WRITE && c.x[0] == 1 then Peek(mem, c.x[1], c.x[2]) else []
  }

  function MadeBy(who: Who, c: Cpu, mem: Memory, result: u64): Made
    requires c.Valid()
  {
    Made(who, c.x[8], c.x[0], c.x[1], c.x[2], c.x[3], c.x[4], mem, result)
  }

  /** A trap of one CPU, whose registers are `c`. */
  function Trap(kernel: Kernel, s: Pair, who: Who, c: Cpu): Pair
    requires Present(s, who) && c.Valid()
  {
    var (c', m') := kernel(s.traps, c, s.mem);
    var made := MadeBy(who, c, s.mem, if c'.Valid() then c'.x[0] else 0);
    var t := With(s, who, c').(mem := m', traps := s.traps + 1, sent := s.sent + SentAt(c, s.mem),
                               log := s.log + [made]);
    if who.First? && c.x[8] == SYSCALL_CLONE && s.second.None? && c'.Valid() && 0 < c'.x[0] < SIGN then
      t.(second := Some(c.(x := c.x[0 := 0])))
    else t
  }

  function Apply(kernel: Kernel, s: Pair, who: Who, e: Effect): Pair
    requires Present(s, who)
  {
    match e
    case Running(c, m) => With(s, who, c).(mem := m)
    case Trapped(c, _) => if c.Valid() then Trap(kernel, s, who, c) else Faulted
    case Fault => Faulted
  }

  /** One instruction of one CPU, on the bytes and on the labelled program. */
  function CodeStep(code: seq<byte>, kernel: Kernel, s: Pair, who: Who): Pair {
    if !Present(s, who) || !Of(s, who).Valid() then s
    else Apply(kernel, s, who, Step(code, Of(s, who), s.mem))
  }

  function PairStep(p: Program, kernel: Kernel, s: Pair, who: Who): Pair {
    if !Present(s, who) || !Of(s, who).Valid() then s
    else Apply(kernel, s, who, LabelledStep(p, Of(s, who), s.mem))
  }

  function CodeRun(code: seq<byte>, kernel: Kernel, s: Pair, schedule: seq<Who>): Pair {
    if schedule == [] then s
    else CodeStep(code, kernel, CodeRun(code, kernel, s, schedule[..|schedule| - 1]), schedule[|schedule| - 1])
  }

  function PairRun(p: Program, kernel: Kernel, s: Pair, schedule: seq<Who>): Pair {
    if schedule == [] then s
    else PairStep(p, kernel, PairRun(p, kernel, s, schedule[..|schedule| - 1]), schedule[|schedule| - 1])
  }

  /** Assembling preserves every interleaved run of two CPUs. */
  lemma {:induction false} AssemblyPreservesPairs(p: Program, kernel: Kernel, s: Pair, schedule: seq<Who>)
    requires Linked(p)
    ensures CodeRun(Assembled(p), kernel, s, schedule) == PairRun(p, kernel, s, schedule)
    decreases |schedule|
  {
    hide Step, LabelledStep, Assembled, Linked, Apply;
    if schedule != [] {
      var init, who := schedule[..|schedule| - 1], schedule[|schedule| - 1];
      AssemblyPreservesPairs(p, kernel, s, init);
      var t := PairRun(p, kernel, s, init);
      if Present(t, who) && Of(t, who).Valid() {
        StepAgrees(p, Of(t, who), t.mem);
      }
    }
  }

  // ----- instructions that touch only registers -----

  predicate RegisterOnly(i: Instr) {
    !i.Svc? && !i.Ldr32? && !i.Ldrb? && !i.Ldar32? && !i.Stlr32? && !i.B? && !i.BCond?
  }

  function Registers(i: Instr, c: Cpu): (d: Cpu)
    requires c.Valid() && RegisterOnly(i)
    ensures d.Valid() && d.pc == c.pc + 4
  {
    Exec(i, c, map[]).cpu
  }

  lemma RegisterOnlyExec(i: Instr, c: Cpu, mem: Memory)
    requires c.Valid() && RegisterOnly(i)
    ensures Exec(i, c, mem) == Running(Registers(i, c), mem)
  {
  }

  predicate IsLocal(p: Program, c: Cpu)
    requires c.Valid()
  {
    && c.pc % 4 == 0 && 0 <= c.pc && c.pc + 4 <= 4 * |p.items|
    && match p.items[c.pc / 4]
       case Raw(w) => Decode(w).Known? && RegisterOnly(Decode(w).instr)
       case ToIf(l, _) => l in p.labels
       case To(l) => l in p.labels
  }

  function LocalNext(p: Program, c: Cpu): (d: Cpu)
    requires c.Valid() && IsLocal(p, c)
    ensures d.Valid()
  {
    match p.items[c.pc / 4]
    case Raw(w) => Registers(Decode(w).instr, c)
    case ToIf(l, cond) => if ConditionHolds(cond, c.flags) then c.(pc := 4 * p.labels[l]) else c.Next()
    case To(l) => c.(pc := 4 * p.labels[l])
  }

  lemma LocalStep(p: Program, c: Cpu, mem: Memory)
    requires c.Valid() && IsLocal(p, c)
    ensures LabelledStep(p, c, mem) == Running(LocalNext(p, c), mem)
  {
    hide Decode, Exec;
    match p.items[c.pc / 4]
    case Raw(w) => RegisterOnlyExec(Decode(w).instr, c, mem);
    case ToIf(_, _) =>
    case To(_) =>
  }

  function LocalRun(p: Program, c: Cpu, n: nat): Option<Cpu>
    decreases n
  {
    if n == 0 then Some(c)
    else if c.Valid() && IsLocal(p, c) then LocalRun(p, LocalNext(p, c), n - 1)
    else None
  }

  /** By itself, through registers only, the CPU comes from `c` to `d`. */
  ghost predicate Comes(p: Program, c: Cpu, d: Cpu) {
    exists n: nat :: LocalRun(p, c, n) == Some(d)
  }

  lemma ComesSelf(p: Program, c: Cpu)
    ensures Comes(p, c, c)
  {
    assert LocalRun(p, c, 0) == Some(c);
  }

  lemma {:induction false} LocalAppend(p: Program, c: Cpu, n: nat, m: nat)
    requires LocalRun(p, c, n).Some?
    ensures LocalRun(p, c, n + m) == LocalRun(p, LocalRun(p, c, n).value, m)
    decreases n
  {
    hide LocalNext, IsLocal;
    if n > 0 {
      LocalAppend(p, LocalNext(p, c), n - 1, m);
    }
  }

  lemma ComesThen(p: Program, c: Cpu, d: Cpu, e: Cpu)
    requires Comes(p, c, d) && Comes(p, d, e)
    ensures Comes(p, c, e)
  {
    hide LocalRun;
    var n: nat :| LocalRun(p, c, n) == Some(d);
    var m: nat :| LocalRun(p, d, m) == Some(e);
    LocalAppend(p, c, n, m);
    assert LocalRun(p, c, n + m) == Some(e);
  }

  lemma ComesValid(p: Program, c: Cpu, d: Cpu)
    requires Comes(p, c, d) && d.Valid()
    ensures c.Valid()
  {
    var n: nat :| LocalRun(p, c, n) == Some(d);
  }

  lemma Absent(p: Program, kernel: Kernel, s: Pair)
    requires s.Pair? && s.second.None?
    ensures PairStep(p, kernel, s, Second) == s
  {
  }

  /** A CPU on its way takes one step and stays on its way; nothing else
      changes. */
  lemma OnItsWay(p: Program, kernel: Kernel, s: Pair, who: Who, d: Cpu)
    requires Present(s, who) && Of(s, who).Valid() && Comes(p, Of(s, who), d) && Of(s, who) != d
    ensures var c := Of(s, who);
            && IsLocal(p, c) && Comes(p, LocalNext(p, c), d)
            && PairStep(p, kernel, s, who) == With(s, who, LocalNext(p, c))
  {
    hide LocalNext, IsLocal, LabelledStep;
    var c := Of(s, who);
    var n: nat :| LocalRun(p, c, n) == Some(d);
    assert n > 0;
    LocalStep(p, c, s.mem);
    assert LocalRun(p, LocalNext(p, c), n - 1) == Some(d);
  }

  // ----- templates -----

  /** About to execute operation `k`. */
  predicate CpuAt(ops: seq<Op>, a: map<string, int>, c: Cpu, k: nat)
    requires k <= |ops| && Names(ops, a)
  {
    c.Valid() && c.pc == 4 * Pos(ops, k, a)
  }

  lemma {:induction false} RegistersRun(p: Program, instrs: seq<Instr>, c: Cpu, d: Cpu)
    requires c.Valid() && c.pc >= 0 && c.pc % 4 == 0 && c.pc / 4 + |instrs| <= |p.items|
    requires p.items[c.pc / 4..c.pc / 4 + |instrs|] == Encoded(instrs)
    requires forall k | 0 <= k < |instrs| :: RegisterOnly(instrs[k])
    requires ExecAll(instrs, c, map[]) == Running(d, map[])
    ensures LocalRun(p, c, |instrs|) == Some(d) && d.Valid() && d.pc == c.pc + 4 * |instrs|
    decreases |instrs|
  {
    hide Exec, Encode, Decode, Registers;
    if instrs != [] {
      var w := p.items[c.pc / 4];
      assert w == Encoded(instrs)[0];
      DecodeEncode(instrs[0]);
      RegisterOnlyExec(instrs[0], c, map[]);
      var e := Registers(instrs[0], c);
      assert e.pc / 4 == c.pc / 4 + 1;
      assert p.items[e.pc / 4..e.pc / 4 + |instrs| - 1] == Encoded(instrs)[1..];
      assert Encoded(instrs)[1..] == Encoded(instrs[1..]);
      RegistersRun(p, instrs[1..], e, d);
    }
  }

  /** Straight register code leads to the next operation. */
  lemma RegistersOp(ops: seq<Op>, k: nat, a: map<string, int>, instrs: seq<Instr>, c: Cpu, d: Cpu)
    requires k < |ops| && Names(ops, a) && CpuAt(ops, a, c, k) && Items(ops[k], a) == Encoded(instrs)
    requires forall j | 0 <= j < |instrs| :: RegisterOnly(instrs[j])
    requires ExecAll(instrs, c, map[]) == Running(d, map[])
    ensures Comes(Prog(ops, a), c, d) && CpuAt(ops, a, d, k + 1)
  {
    hide Items, Encoded, ProgramOf, ExecAll, RegisterOnly;
    GuestElf.OpPlaced(ops, k, |ops|, a);
    PosNext(ops, k, a);
    EncodedSize(instrs);
    assert c.pc / 4 == Pos(ops, k, a);
    RegistersRun(Prog(ops, a), instrs, c, d);
  }

  /** A branch leads to its mark or to the next operation. */
  lemma BranchOp(ops: seq<Op>, k: nat, m: nat, a: map<string, int>, c: Cpu) returns (d: Cpu)
    requires k < |ops| && m < |ops| && Names(ops, a) && DistinctMarks(ops) && CpuAt(ops, a, c, k)
    requires (ops[k].JumpIf? || ops[k].Jump?) && ops[m] == Mark(ops[k].mark)
    ensures Comes(Prog(ops, a), c, d) && d.Valid() && d.x == c.x && d.flags == c.flags
    ensures var taken := ops[k].Jump? || ConditionHolds(ops[k].c, c.flags);
            CpuAt(ops, a, d, if taken then m else k + 1)
  {
    hide ProgramOf, ConditionHolds, DistinctMarks, Names;
    BranchPlaced(ops, k, a);
    LabelAt(ops, |ops|, m, a);
    var p := Prog(ops, a);
    var taken := ops[k].Jump? || ConditionHolds(ops[k].c, c.flags);
    d := c.(pc := 4 * Pos(ops, if taken then m else k + 1, a));
    assert IsLocal(p, c) && LocalNext(p, c) == d;
    assert LocalRun(p, d, 0) == Some(d);
    assert LocalRun(p, c, 1) == Some(d);
  }

  /** A single instruction operation is the next word. */
  lemma VisibleOp(ops: seq<Op>, k: nat, a: map<string, int>, i: Instr, c: Cpu, mem: Memory)
    requires k < |ops| && Names(ops, a) && CpuAt(ops, a, c, k) && ops[k] == Code([i])
    ensures LabelledStep(Prog(ops, a), c, mem) == Exec(i, c, mem)
    ensures Pos(ops, k + 1, a) == Pos(ops, k, a) + 1
  {
    hide ProgramOf, Exec, Encode, Decode;
    GuestElf.OpPlaced(ops, k, |ops|, a);
    PosNext(ops, k, a);
    var p, j := Prog(ops, a), Pos(ops, k, a);
    assert p.items[j..j + 1][0] == p.items[j];
    DecodeEncode(i);
  }
}
