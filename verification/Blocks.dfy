/** Running a program template under a kernel: the log of system calls, blocks
    of straight-line code, branches, and markers printed chunk by chunk. */
module Blocks {
  import opened Bytes
  import opened A64
  import opened Machine
  import opened Assembler
  import opened Syscalls
  import opened Layout
  import GuestElf

  const SYSCALL_READ: imm16 := 63
  const SIGN: int := 0x8000_0000_0000_0000

  // ----- memory -----

  /** The bytes from `a` on, as far as memory is mapped. */
  function Peek(mem: Memory, a: int, n: nat): (s: seq<byte>)
    ensures |s| <= n
    decreases n
  {
    if n == 0 || a !in mem then [] else [mem[a]] + Peek(mem, a + 1, n - 1)
  }

  predicate Holds(mem: Memory, a: int, s: seq<byte>) {
    forall b | a <= b < a + |s| :: b in mem && mem[b] == s[b - a]
  }

  lemma {:induction false} PeekHolds(mem: Memory, a: int, s: seq<byte>)
    requires Holds(mem, a, s)
    ensures Peek(mem, a, |s|) == s
    decreases |s|
  {
    if s != [] {
      assert a in mem && mem[a] == s[0];
      PeekHolds(mem, a + 1, s[1..]);
      assert s == [s[0]] + s[1..];
    }
  }

  // ----- the kernel -----

  /** The same bytes everywhere except in `[a, a + n)`. */
  ghost predicate ChangedOnlyIn(mem: Memory, mem': Memory, a: int, n: int) {
    mem'.Keys == mem.Keys && forall b | b in mem && !(a <= b < a + n) :: mem'[b] == mem[b]
  }

  /** The Linux system call convention: only x0 changes, `read` returns an
      error or at most the requested count and changes only the bytes it
      delivers, and no other call changes memory. */
  ghost predicate Answers(c: Cpu, m: Memory, c': Cpu, m': Memory)
    requires c.Valid()
  {
    && c'.Valid() && c'.pc == c.pc && c'.x[1..] == c.x[1..]
    && (if c.x[8] == SYSCALL_READ && c'.x[0] < SIGN then
          c'.x[0] <= c.x[2] && ChangedOnlyIn(m, m', c.x[1], c'.x[0])
        else m' == m)
  }

  ghost predicate Obeys(kernel: Kernel) {
    forall t: nat, c: Cpu, m: Memory | c.Valid() :: Answers(c, m, kernel(t, c, m).0, kernel(t, c, m).1)
  }

  /** The convention can be kept: a kernel that answers every call with 0. */
  lemma SomeKernelObeys()
    ensures exists kernel: Kernel :: Obeys(kernel)
  {
    var kernel: Kernel := (_: nat, c: Cpu, m: Memory) => (if c.Valid() then c.(x := c.x[0 := 0]) else c, m);
    assert Obeys(kernel);
  }

  /** One system call: what was asked, with `extra` its fourth argument, what
      came back, and the bytes a `write` was given or a `read` delivered. */
  datatype Event = Event(call: Call, extra: u64, result: u64, data: seq<byte>)

  function EventOf(c: Cpu, m: Memory, c': Cpu, m': Memory): Event
    requires c.Valid() && c'.Valid()
  {
    Event(CallOf(c), c.x[3], c'.x[0],
          if c.x[8] == SYSCALL_WRITE then Peek(m, c.x[1], c.x[2])
          else if c.x[8] == SYSCALL_READ && c'.x[0] < SIGN then Peek(m', c.x[1], c'.x[0])
          else [])
  }

  // ----- runs with their log -----

  function StepLog(e: Effect, kernel: Kernel, traps: nat): seq<Event> {
    if e.Trapped? && e.cpu.Valid() && kernel(traps, e.cpu, e.mem).0.Valid() then
      [EventOf(e.cpu, e.mem, kernel(traps, e.cpu, e.mem).0, kernel(traps, e.cpu, e.mem).1)]
    else []
  }

  function Log(p: Program, kernel: Kernel, r: Run, n: nat): seq<Event>
    decreases n
  {
    if n == 0 || r.Stopped? || !r.cpu.Valid() then []
    else
      var e := LabelledStep(p, r.cpu, r.mem);
      StepLog(e, kernel, r.traps) + Log(p, kernel, Settle(e, kernel, r.traps), n - 1)
  }

  /** The same over assembled bytes. */
  function CodeLog(code: seq<byte>, kernel: Kernel, r: Run, n: nat): seq<Event>
    decreases n
  {
    if n == 0 || r.Stopped? || !r.cpu.Valid() then []
    else
      var e := Step(code, r.cpu, r.mem);
      StepLog(e, kernel, r.traps) + CodeLog(code, kernel, Settle(e, kernel, r.traps), n - 1)
  }

  /** Assembling preserves the log of every run. */
  lemma {:induction false} AssemblyPreservesLogs(p: Program, kernel: Kernel, r: Run, n: nat)
    requires Linked(p)
    ensures CodeLog(Assembled(p), kernel, r, n) == Log(p, kernel, r, n)
    decreases n
  {
    hide Step, LabelledStep, Assembled;
    if n > 0 && r.At? && r.cpu.Valid() {
      StepAgrees(p, r.cpu, r.mem);
      AssemblyPreservesLogs(p, kernel, Settle(LabelledStep(p, r.cpu, r.mem), kernel, r.traps), n - 1);
    }
  }

  predicate After(p: Program, kernel: Kernel, r: Run, r': Run, log: seq<Event>, n: nat) {
    RunLabelled(p, kernel, r, n) == r' && Log(p, kernel, r, n) == log
  }

  /** The run from `r` passes through `r'`, having logged `log`. */
  ghost predicate Leads(p: Program, kernel: Kernel, r: Run, r': Run, log: seq<Event>) {
    exists n: nat :: After(p, kernel, r, r', log, n)
  }

  lemma {:induction false} RunAppend(p: Program, kernel: Kernel, r: Run, n: nat, m: nat)
    ensures RunLabelled(p, kernel, r, n + m) == RunLabelled(p, kernel, RunLabelled(p, kernel, r, n), m)
    ensures Log(p, kernel, r, n + m) == Log(p, kernel, r, n) + Log(p, kernel, RunLabelled(p, kernel, r, n), m)
    decreases n
  {
    hide LabelledStep, StepLog;
    if n > 0 && r.At? && r.cpu.Valid() {
      RunAppend(p, kernel, Settle(LabelledStep(p, r.cpu, r.mem), kernel, r.traps), n - 1, m);
    }
  }

  lemma LeadsTrans(p: Program, kernel: Kernel, r1: Run, r2: Run, r3: Run, l1: seq<Event>, l2: seq<Event>)
    requires Leads(p, kernel, r1, r2, l1) && Leads(p, kernel, r2, r3, l2)
    ensures Leads(p, kernel, r1, r3, l1 + l2)
  {
    hide RunLabelled, Log;
    var n: nat :| After(p, kernel, r1, r2, l1, n);
    var m: nat :| After(p, kernel, r2, r3, l2, m);
    RunAppend(p, kernel, r1, n, m);
    assert After(p, kernel, r1, r3, l1 + l2, n + m);
  }

  lemma LeadsSelf(p: Program, kernel: Kernel, r: Run)
    ensures Leads(p, kernel, r, r, [])
  {
    assert After(p, kernel, r, r, [], 0);
  }

  // ----- straight-line code -----

  predicate NoBranch(i: Instr) { !i.B? && !i.BCond? }

  function Straight(instrs: seq<Instr>, kernel: Kernel, r: Run): Run {
    if instrs == [] || r.Stopped? || !r.cpu.Valid() then r
    else Straight(instrs[1..], kernel, Settle(Exec(instrs[0], r.cpu, r.mem), kernel, r.traps))
  }

  function StraightLog(instrs: seq<Instr>, kernel: Kernel, r: Run): seq<Event> {
    if instrs == [] || r.Stopped? || !r.cpu.Valid() then []
    else
      var e := Exec(instrs[0], r.cpu, r.mem);
      StepLog(e, kernel, r.traps) + StraightLog(instrs[1..], kernel, Settle(e, kernel, r.traps))
  }

  lemma FallsThrough(i: Instr, kernel: Kernel, r: Run)
    requires r.At? && r.cpu.Valid() && NoBranch(i) && Obeys(kernel)
    ensures var s := Settle(Exec(i, r.cpu, r.mem), kernel, r.traps);
            s.At? ==> s.cpu.Valid() && s.cpu.pc == r.cpu.pc + 4
  {
  }

  lemma {:induction false} StraightRuns(p: Program, kernel: Kernel, instrs: seq<Instr>, r: Run)
    requires r.At? && r.cpu.Valid() && r.cpu.pc >= 0 && r.cpu.pc % 4 == 0 && Obeys(kernel)
    requires r.cpu.pc / 4 + |instrs| <= |p.items|
    requires p.items[r.cpu.pc / 4..r.cpu.pc / 4 + |instrs|] == Encoded(instrs)
    requires forall k | 0 <= k < |instrs| :: NoBranch(instrs[k])
    ensures After(p, kernel, r, Straight(instrs, kernel, r), StraightLog(instrs, kernel, r), |instrs|)
    ensures var s := Straight(instrs, kernel, r);
            s.At? ==> s.cpu.Valid() && s.cpu.pc == r.cpu.pc + 4 * |instrs|
    decreases |instrs|
  {
    hide Exec, Encode, Decode, StepLog, NoBranch, Obeys;
    if instrs != [] {
      var w := p.items[r.cpu.pc / 4];
      assert w == Encoded(instrs)[0];
      DecodeEncode(instrs[0]);
      FallsThrough(instrs[0], kernel, r);
      var s := Settle(Exec(instrs[0], r.cpu, r.mem), kernel, r.traps);
      if s.At? {
        assert s.cpu.pc / 4 == r.cpu.pc / 4 + 1;
        assert p.items[s.cpu.pc / 4..s.cpu.pc / 4 + |instrs| - 1] == Encoded(instrs)[1..];
        assert Encoded(instrs)[1..] == Encoded(instrs[1..]);
        StraightRuns(p, kernel, instrs[1..], s);
      } else {
        assert RunLabelled(p, kernel, s, |instrs| - 1) == s && Log(p, kernel, s, |instrs| - 1) == [];
      }
    }
  }

  /** One plain instruction at the head of a block. */
  lemma StraightPlain(i: Instr, rest: seq<Instr>, kernel: Kernel, r: Run, cpu': Cpu)
    requires r.At? && r.cpu.Valid() && Exec(i, r.cpu, r.mem) == Running(cpu', r.mem)
    ensures Straight([i] + rest, kernel, r) == Straight(rest, kernel, Assembler.At(cpu', r.mem, r.traps))
    ensures StraightLog([i] + rest, kernel, r) == StraightLog(rest, kernel, Assembler.At(cpu', r.mem, r.traps))
  {
    hide Exec;
    assert ([i] + rest)[1..] == rest;
  }

  lemma {:induction false} StraightAppend(a: seq<Instr>, b: seq<Instr>, kernel: Kernel, r: Run)
    ensures Straight(a + b, kernel, r) == Straight(b, kernel, Straight(a, kernel, r))
    ensures StraightLog(a + b, kernel, r) == StraightLog(a, kernel, r) + StraightLog(b, kernel, Straight(a, kernel, r))
    decreases |a|
  {
    hide Exec, StepLog;
    if a == [] {
      assert a + b == b;
    } else if r.At? && r.cpu.Valid() {
      assert (a + b)[1..] == a[1..] + b;
      StraightAppend(a[1..], b, kernel, Settle(Exec(a[0], r.cpu, r.mem), kernel, r.traps));
    }
  }

  /** Plain code runs as its instructions do, silently. */
  lemma {:induction false} StraightExec(a: seq<Instr>, kernel: Kernel, r: Run)
    requires r.At? && r.cpu.Valid() && ExecAll(a, r.cpu, r.mem).Running?
    requires forall k | 0 <= k < |a| :: GuestElf.Plain(a[k])
    ensures var e := ExecAll(a, r.cpu, r.mem);
            Straight(a, kernel, r) == Assembler.At(e.cpu, e.mem, r.traps) && StraightLog(a, kernel, r) == []
    decreases |a|
  {
    hide Exec;
    if a != [] {
      GuestElf.PlainFallsThrough(a[0], r.cpu, r.mem);
      var e := Exec(a[0], r.cpu, r.mem);
      StraightExec(a[1..], kernel, Assembler.At(e.cpu, e.mem, r.traps));
    }
  }

  /** A trap at the head of a block. */
  lemma StraightTrap(rest: seq<Instr>, kernel: Kernel, r: Run)
    requires r.At? && r.cpu.Valid() && Obeys(kernel)
    ensures var c := r.cpu.Next();
            var (c', m') := kernel(r.traps, c, r.mem);
            && Answers(c, r.mem, c', m')
            && Straight([Svc] + rest, kernel, r) == Straight(rest, kernel, Assembler.At(c', m', r.traps + 1))
            && StraightLog([Svc] + rest, kernel, r)
               == [EventOf(c, r.mem, c', m')] + StraightLog(rest, kernel, Assembler.At(c', m', r.traps + 1))
  {
    hide Answers, EventOf, Straight, StraightLog;
    var c := r.cpu.Next();
    var (c', m') := kernel(r.traps, c, r.mem);
    assert Answers(c, r.mem, c', m');
    AnswersValid(c, r.mem, c', m');
    TrapExec(kernel, r);
    StraightCons([Svc], rest, kernel, r);
  }

  lemma TrapExec(kernel: Kernel, r: Run)
    requires r.At? && r.cpu.Valid() && kernel(r.traps, r.cpu.Next(), r.mem).0.Valid()
    ensures var c := r.cpu.Next();
            var (c', m') := kernel(r.traps, c, r.mem);
            var e := Exec(Svc, r.cpu, r.mem);
            && Settle(e, kernel, r.traps) == Assembler.At(c', m', r.traps + 1)
            && StepLog(e, kernel, r.traps) == [EventOf(c, r.mem, c', m')]
  {
    hide EventOf;
  }

  lemma StraightCons(one: seq<Instr>, rest: seq<Instr>, kernel: Kernel, r: Run)
    requires r.At? && r.cpu.Valid() && |one| == 1
    ensures var e := Exec(one[0], r.cpu, r.mem);
            && Straight(one + rest, kernel, r) == Straight(rest, kernel, Settle(e, kernel, r.traps))
            && StraightLog(one + rest, kernel, r)
               == StepLog(e, kernel, r.traps) + StraightLog(rest, kernel, Settle(e, kernel, r.traps))
  {
    hide Exec, Settle, StepLog;
    assert (one + rest)[1..] == rest && (one + rest)[0] == one[0];
  }

  lemma AnswersValid(c: Cpu, m: Memory, c': Cpu, m': Memory)
    requires c.Valid() && Answers(c, m, c', m')
    ensures c'.Valid()
  {
  }

  /** A system call at the end of a block, and the test of its result. */
  lemma CallThenCompare(front: seq<Instr>, kernel: Kernel, r: Run, c: Cpu)
    requires r.At? && r.cpu.Valid() && c.Valid() && Obeys(kernel)
    requires ExecAll(front, r.cpu, r.mem) == Running(c, r.mem)
    requires forall k | 0 <= k < |front| :: GuestElf.Plain(front[k])
    ensures var (c', m') := kernel(r.traps, c.Next(), r.mem);
            var instrs := front + [Svc, CmpImm(0, 0)];
            && Answers(c.Next(), r.mem, c', m') && c'.Valid()
            && Straight(instrs, kernel, r) == Assembler.At(Compared(c'), m', r.traps + 1)
            && StraightLog(instrs, kernel, r) == [EventOf(c.Next(), r.mem, c', m')]
  {
    hide Exec, ExecAll, Straight, StraightLog, Obeys, EventOf, Answers, SubtractFlags;
    StraightExec(front, kernel, r);
    var s := Assembler.At(c, r.mem, r.traps);
    StraightAppend(front, [Svc, CmpImm(0, 0)], kernel, r);
    assert [Svc, CmpImm(0, 0)] == [Svc] + [CmpImm(0, 0)];
    StraightTrap([CmpImm(0, 0)], kernel, s);
    var (c', m') := kernel(r.traps, c.Next(), r.mem);
    AnswersValid(c.Next(), r.mem, c', m');
    var t := Assembler.At(c', m', r.traps + 1);
    CompareExec(c', m');
    StraightPlain(CmpImm(0, 0), [], kernel, t, Compared(c'));
    assert [CmpImm(0, 0)] + [] == [CmpImm(0, 0)];
    StraightNil(kernel, Assembler.At(Compared(c'), m', r.traps + 1));
  }

  /** After `cmp x0, #0`. */
  function Compared(c: Cpu): (d: Cpu)
    requires c.Valid()
    ensures d.Valid() && d.x == c.x
  {
    c.Next().(flags := SubtractFlags(c.x[0], 0, TWO64))
  }

  lemma CompareExec(c: Cpu, m: Memory)
    requires c.Valid()
    ensures Exec(CmpImm(0, 0), c, m) == Running(Compared(c), m)
  {
  }

  /** What the three tested conditions say of a compared value. */
  lemma Tests(x: u64, y: int, modulus: nat)
    requires modulus > 1 && 0 <= y < modulus && x < modulus
    ensures ConditionHolds(0, SubtractFlags(x, y, modulus)) <==> x == y
    ensures ConditionHolds(1, SubtractFlags(x, y, modulus)) <==> x != y
    ensures y == 0 && modulus == TWO64 ==> (ConditionHolds(4, SubtractFlags(x, y, modulus)) <==> x >= SIGN)
  {
  }

  lemma AnsweredRegister(c: Cpu, m: Memory, c': Cpu, m': Memory, i: reg)
    requires c.Valid() && Answers(c, m, c', m') && i >= 1
    ensures c'.Valid() && c'.x[i] == c.x[i]
  {
    assert c'.x[1..][i - 1] == c.x[1..][i - 1];
  }

  // ----- register-only code -----

  /** Instructions that only set one register. */
  predicate Setter(i: Instr) {
    (i.Movz? && i.hw == 0) || i.MovReg? || i.AddReg64? || i.SubReg64? || i.AddImm64? || i.SubImm64?
  }

  function SetBy(i: Instr, cpu: Cpu): (c: Cpu)
    requires cpu.Valid() && Setter(i)
    ensures c.Valid() && c.pc == cpu.pc && c.flags == cpu.flags
  {
    match i
    case Movz(rd, imm, _) => cpu.Set(rd, imm)
    case MovReg(rd, rm) => cpu.Set(rd, cpu.Get(rm))
    case AddReg64(rd, rn, rm) =>
      var left: int, right: int := cpu.Get(rn), cpu.Get(rm);
      cpu.Set(rd, left + right)
    case SubReg64(rd, rn, rm) =>
      var left: int, right: int := cpu.Get(rn), cpu.Get(rm);
      cpu.Set(rd, left - right)
    case AddImm64(rd, rn, u) =>
      var value: int := cpu.Get(rn);
      cpu.Set(rd, value + u)
    case SubImm64(rd, rn, u) =>
      var value: int := cpu.Get(rn);
      cpu.Set(rd, value - u)
  }

  function SetAll(instrs: seq<Instr>, cpu: Cpu): (c: Cpu)
    requires cpu.Valid() && forall k | 0 <= k < |instrs| :: Setter(instrs[k])
    ensures c.Valid() && c.pc == cpu.pc && c.flags == cpu.flags
    decreases |instrs|
  {
    if instrs == [] then cpu else SetAll(instrs[1..], SetBy(instrs[0], cpu))
  }

  lemma SetterRuns(i: Instr, cpu: Cpu, pc: int, mem: Memory)
    requires cpu.Valid() && Setter(i)
    ensures Exec(i, cpu.(pc := pc), mem) == Running(SetBy(i, cpu).(pc := pc + 4), mem)
  {
  }

  lemma {:induction false} SettersRun(instrs: seq<Instr>, cpu: Cpu, pc: int, mem: Memory)
    requires cpu.Valid() && forall k | 0 <= k < |instrs| :: Setter(instrs[k])
    ensures ExecAll(instrs, cpu.(pc := pc), mem) == Running(SetAll(instrs, cpu).(pc := pc + 4 * |instrs|), mem)
    decreases |instrs|
  {
    hide Exec, SetBy;
    if instrs != [] {
      SetterRuns(instrs[0], cpu, pc, mem);
      SettersRun(instrs[1..], SetBy(instrs[0], cpu), pc + 4, mem);
    }
  }

  lemma SettersPlain(instrs: seq<Instr>)
    requires forall k | 0 <= k < |instrs| :: Setter(instrs[k])
    ensures forall k | 0 <= k < |instrs| :: GuestElf.Plain(instrs[k])
  {
  }

  /** Setters and then one comparison with zero. */
  lemma SettersThenTest(instrs: seq<Instr>, rn: reg, cpu: Cpu, mem: Memory)
    requires cpu.Valid() && forall k | 0 <= k < |instrs| :: Setter(instrs[k])
    ensures var c := SetAll(instrs, cpu);
            ExecAll(instrs + [CmpImm(rn, 0)], cpu, mem)
            == Running(c.(pc := cpu.pc + 4 * |instrs| + 4, flags := SubtractFlags(c.x[rn], 0, TWO64)), mem)
    ensures forall k | 0 <= k <= |instrs| :: GuestElf.Plain((instrs + [CmpImm(rn, 0)])[k])
  {
    hide Exec, ExecAll, SetAll, SubtractFlags;
    SettersRun(instrs, cpu, cpu.pc, mem);
    assert cpu.(pc := cpu.pc) == cpu;
    var c := SetAll(instrs, cpu).(pc := cpu.pc + 4 * |instrs|);
    ExecAppend(instrs, [CmpImm(rn, 0)], cpu, mem, c, mem);
    TestExec(rn, c, mem);
    var d := c.(pc := c.pc + 4, flags := SubtractFlags(c.x[rn], 0, TWO64));
    ExecCons(CmpImm(rn, 0), [], c, mem, d, mem);
    assert [CmpImm(rn, 0)] + [] == [CmpImm(rn, 0)];
    ExecNil(d, mem);
  }

  lemma TestExec(rn: reg, c: Cpu, m: Memory)
    requires c.Valid()
    ensures Exec(CmpImm(rn, 0), c, m)
            == Running(c.(pc := c.pc + 4, flags := SubtractFlags(c.x[rn], 0, TWO64)), m)
  {
  }

  /** Two byte loads and their comparison. */
  lemma LoadsCompare(cpu: Cpu, mem: Memory, d1: reg, a1: reg, d2: reg, a2: reg)
    requires cpu.Valid() && cpu.x[a1] in mem && cpu.x[a2] in mem && d1 != a2 && d1 != d2
    ensures var left, right := mem[cpu.x[a1]], mem[cpu.x[a2]];
            var c := cpu.Set(d1, left).Set(d2, right);
            ExecAll([Ldrb(d1, a1), Ldrb(d2, a2), CmpReg32(d1, d2)], cpu, mem)
            == Running(c.(pc := cpu.pc + 12, flags := SubtractFlags(left, right, 0x1_0000_0000)), mem)
  {
    hide ExecAll, SubtractFlags;
    var left, right := mem[cpu.x[a1]], mem[cpu.x[a2]];
    var c1 := cpu.Set(d1, left).(pc := cpu.pc + 4);
    var c2 := c1.Set(d2, right).(pc := cpu.pc + 8);
    var c3 := c2.(pc := cpu.pc + 12, flags := SubtractFlags(left, right, 0x1_0000_0000));
    assert Exec(Ldrb(d1, a1), cpu, mem) == Running(c1, mem);
    assert c1.x[a2] == cpu.x[a2];
    assert Exec(Ldrb(d2, a2), c1, mem) == Running(c2, mem);
    assert c2.x[d1] == left && c2.x[d2] == right;
    assert Exec(CmpReg32(d1, d2), c2, mem) == Running(c3, mem);
    var all := [Ldrb(d1, a1), Ldrb(d2, a2), CmpReg32(d1, d2)];
    assert all == [all[0]] + all[1..] && all[1..] == [all[1]] + all[2..] && all[2..] == [all[2]] + [];
    ExecCons(all[0], all[1..], cpu, mem, c1, mem);
    ExecCons(all[1], all[2..], c1, mem, c2, mem);
    ExecCons(all[2], [], c2, mem, c3, mem);
    ExecNil(c3, mem);
  }

  // ----- printing a marker -----

  function SentBy(e: Event): seq<byte> {
    if e.call.number == SYSCALL_WRITE && e.call.arg0 == 1 then e.data else []
  }

  function ReadBy(e: Event): seq<Event> { if e.call.number == SYSCALL_READ then [e] else [] }

  /** What the `write` calls of a log were given, in order. */
  function Sent(log: seq<Event>): seq<byte> {
    if log == [] then [] else SentBy(log[0]) + Sent(log[1..])
  }

  function ReadsOf(log: seq<Event>): seq<Event> {
    if log == [] then [] else ReadBy(log[0]) + ReadsOf(log[1..])
  }

  lemma {:induction false} SentAppend(a: seq<Event>, b: seq<Event>)
    ensures Sent(a + b) == Sent(a) + Sent(b)
    decreases |a|
  {
    hide SentBy;
    if a == [] {
      assert a + b == b;
    } else {
      SentAppend(a[1..], b);
      assert (a + b)[1..] == a[1..] + b;
    }
  }

  lemma {:induction false} ReadsAppend(a: seq<Event>, b: seq<Event>)
    ensures ReadsOf(a + b) == ReadsOf(a) + ReadsOf(b)
    decreases |a|
  {
    hide ReadBy;
    if a == [] {
      assert a + b == b;
    } else {
      ReadsAppend(a[1..], b);
      assert (a + b)[1..] == a[1..] + b;
    }
  }

  lemma LogAppend(a: seq<Event>, b: seq<Event>)
    ensures Sent(a + b) == Sent(a) + Sent(b) && ReadsOf(a + b) == ReadsOf(a) + ReadsOf(b)
  {
    SentAppend(a, b);
    ReadsAppend(a, b);
  }

  /** Registers from x9 up survive. */
  predicate Keeps(c: Cpu, c': Cpu)
    requires c.Valid() && c'.Valid()
  {
    forall i | 9 <= i < 31 :: c'.x[i] == c.x[i]
  }

  /** Only reads, and writes to the terminal that fit the serial FIFO. */
  predicate InChunks(log: seq<Event>) {
    forall i | 0 <= i < |log| ::
      var c := log[i].call;
      c.number == SYSCALL_READ || (c.number == SYSCALL_WRITE && c.arg0 == 1 && 1 <= c.arg2 <= 16)
  }

  lemma InChunksAppend(a: seq<Event>, b: seq<Event>)
    requires InChunks(a) && InChunks(b)
    ensures InChunks(a + b)
  {
  }

  lemma WriteEvent(buffer: int, size: imm16, kernel: Kernel, r: Run)
    requires r.At? && r.cpu.Valid() && Obeys(kernel)
    ensures var c := WriteRegisters(r.cpu, 1, buffer, size);
            var (c', m') := kernel(r.traps, c, r.mem);
            && Answers(c, r.mem, c', m') && c'.Valid()
            && Straight(WriteSyscall(1, buffer, size), kernel, r) == Assembler.At(c', m', r.traps + 1)
            && StraightLog(WriteSyscall(1, buffer, size), kernel, r) == [EventOf(c, r.mem, c', m')]
  {
    hide Exec, ExecAll, MovImm, Straight, StraightLog, Cpu.Set, Peek, Obeys, EventOf, Answers, CallOf;
    var front := [Movz(0, 1, 0)] + MovImm(1, buffer) + [Movz(2, size, 0), Movz(8, SYSCALL_WRITE, 0)];
    var c := WriteRegisters(r.cpu, 1, buffer, size);
    WriteFront(buffer, size, r.cpu, r.mem);
    assert WriteSyscall(1, buffer, size) == front + [Svc];
    WritePlain(buffer, size);
    StraightExec(front, kernel, r);
    var s := Assembler.At(c.(pc := c.pc - 4), r.mem, r.traps);
    StraightAppend(front, [Svc], kernel, r);
    StraightTrap([], kernel, s);
    assert [Svc] + [] == [Svc];
    assert s.cpu.Next() == c;
    var (c', m') := kernel(r.traps, c, r.mem);
    AnswersValid(c, r.mem, c', m');
    StraightNil(kernel, Assembler.At(c', m', r.traps + 1));
  }

  /** One chunk: a single `write` of exactly these bytes. */
  lemma WriteRuns(buffer: int, size: imm16, data: seq<byte>, kernel: Kernel, r: Run)
    requires r.At? && r.cpu.Valid() && Obeys(kernel)
    requires 0 <= buffer < TWO64 && 1 <= |data| == size <= SERIAL_CHUNK && Holds(r.mem, buffer, data)
    ensures var s := Straight(WriteSyscall(1, buffer, size), kernel, r);
            && s.At? && s.cpu.Valid() && Keeps(r.cpu, s.cpu) && s.mem == r.mem
    ensures var log := StraightLog(WriteSyscall(1, buffer, size), kernel, r);
            Sent(log) == data && ReadsOf(log) == [] && InChunks(log)
  {
    hide Straight, StraightLog, WriteSyscall, WriteRegisters, Peek, Obeys, EventOf, Answers, Sent, ReadsOf, Holds,
         Keeps;
    WriteEvent(buffer, size, kernel, r);
    var c := WriteRegisters(r.cpu, 1, buffer, size);
    var (c', m') := kernel(r.traps, c, r.mem);
    PeekHolds(r.mem, buffer, data);
    WriteAnswered(r.cpu, buffer, size, r.mem, c', m');
    SentOne(EventOf(c, r.mem, c', m'));
  }

  lemma SentOne(e: Event)
    ensures Sent([e]) == SentBy(e) && ReadsOf([e]) == ReadBy(e)
  {
    assert [e][1..] == [];
  }

  lemma StraightNil(kernel: Kernel, r: Run)
    ensures Straight([], kernel, r) == r && StraightLog([], kernel, r) == []
  {
  }

  lemma WriteAnswered(cpu: Cpu, buffer: int, size: imm16, m: Memory, c': Cpu, m': Memory)
    requires cpu.Valid() && 0 <= buffer < TWO64
    requires Answers(WriteRegisters(cpu, 1, buffer, size), m, c', m')
    ensures c'.Valid() && m' == m && Keeps(cpu, c')
    ensures EventOf(WriteRegisters(cpu, 1, buffer, size), m, c', m')
            == Event(Call(SYSCALL_WRITE, 1, buffer, size), cpu.x[3], c'.x[0], Peek(m, buffer, size))
  {
    hide Peek;
    var c := WriteRegisters(cpu, 1, buffer, size);
    assert c.x[8] == SYSCALL_WRITE && c.x[1] == buffer && c.x[2] == size;
    forall i | 9 <= i < 31 ensures c'.x[i] == cpu.x[i] {
      assert c'.x[1..][i - 1] == c.x[1..][i - 1];
    }
  }

  lemma WriteFront(buffer: int, size: imm16, cpu: Cpu, mem: Memory)
    requires cpu.Valid()
    ensures var c := WriteRegisters(cpu, 1, buffer, size);
            ExecAll([Movz(0, 1, 0)] + MovImm(1, buffer) + [Movz(2, size, 0), Movz(8, SYSCALL_WRITE, 0)], cpu, mem)
            == Running(c.(pc := c.pc - 4), mem)
  {
    hide Exec, ExecAll, Cpu.Set, MovImm;
    var c0 := cpu.Set(0, 1);
    var c1 := c0.Set(1, buffer);
    var c2 := c1.Set(2, size);
    var c3 := c2.Set(8, SYSCALL_WRITE);
    var p := cpu.pc;
    var tail := [Movz(2, size, 0), Movz(8, SYSCALL_WRITE, 0)];
    MovzChain(cpu, p, 0, 1, mem);
    assert cpu.(pc := p) == cpu;
    ExecCons(Movz(0, 1, 0), MovImm(1, buffer) + tail, cpu, mem, c0.(pc := p + 4), mem);
    assert [Movz(0, 1, 0)] + MovImm(1, buffer) + tail == [Movz(0, 1, 0)] + (MovImm(1, buffer) + tail);
    MovImmLoads(1, buffer, c0.(pc := p + 4), mem);
    SetPc(c0, p + 20, 1, buffer);
    ExecAppend(MovImm(1, buffer), tail, c0.(pc := p + 4), mem, c1.(pc := p + 20), mem);
    MovzChain(c1, p + 20, 2, size, mem);
    ExecCons(tail[0], tail[1..], c1.(pc := p + 20), mem, c2.(pc := p + 24), mem);
    assert tail == [tail[0]] + tail[1..];
    MovzChain(c2, p + 24, 8, SYSCALL_WRITE, mem);
    ExecCons(tail[1], [], c2.(pc := p + 24), mem, c3.(pc := p + 28), mem);
    assert tail[1..] == [tail[1]] + [];
    ExecNil(c3.(pc := p + 28), mem);
    WriteRegistersPc(cpu, 1, buffer, size);
  }

  lemma WritePlain(buffer: int, size: imm16)
    ensures var front := [Movz(0, 1, 0)] + MovImm(1, buffer) + [Movz(2, size, 0), Movz(8, SYSCALL_WRITE, 0)];
            forall k | 0 <= k < |front| :: GuestElf.Plain(front[k])
  {
  }

  /** A marker is sent whole and in order, whatever the writes return. */
  lemma {:induction false} PrintRuns(buffer: int, data: seq<byte>, offset: nat, kernel: Kernel, r: Run)
    requires r.At? && r.cpu.Valid() && Obeys(kernel)
    requires 0 <= buffer && buffer + |data| < TWO64 && offset <= |data| && Holds(r.mem, buffer, data)
    ensures forall c | c in Chunks(offset, |data|) :: c.size <= SERIAL_CHUNK
    ensures var code := ChunkCalls(1, buffer, Chunks(offset, |data|));
            var s, log := Straight(code, kernel, r), StraightLog(code, kernel, r);
            && s.At? && s.cpu.Valid() && Keeps(r.cpu, s.cpu) && s.mem == r.mem
            && Sent(log) == data[offset..] && ReadsOf(log) == [] && InChunks(log)
    decreases |data| - offset
  {
    hide Exec, Straight, StraightLog, WriteSyscall, Sent, ReadsOf, Obeys, InChunks;
    ChunksCover(offset, |data|, data);
    if offset == |data| {
      StraightNil(kernel, r);
      SentNone();
    } else {
      var n := if |data| - offset < SERIAL_CHUNK then |data| - offset else SERIAL_CHUNK;
      var piece := data[offset..offset + n];
      assert Chunks(offset, |data|)[1..] == Chunks(offset + n, |data|);
      assert Holds(r.mem, buffer + offset, piece);
      var call := WriteSyscall(1, buffer + offset, n);
      WriteRuns(buffer + offset, n, piece, kernel, r);
      var s := Straight(call, kernel, r);
      PrintRuns(buffer, data, offset + n, kernel, s);
      var rest := ChunkCalls(1, buffer, Chunks(offset + n, |data|));
      StraightAppend(call, rest, kernel, r);
      LogAppend(StraightLog(call, kernel, r), StraightLog(rest, kernel, s));
      InChunksAppend(StraightLog(call, kernel, r), StraightLog(rest, kernel, s));
      assert data[offset..] == piece + data[offset + n..];
    }
  }

  lemma SentNone()
    ensures Sent([]) == [] && ReadsOf([]) == [] && InChunks([])
  {
  }
}
