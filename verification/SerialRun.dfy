/** What a run of the serial receive program does: it opens and configures
    the terminal, announces itself, answers until every byte has arrived, and
    reports whether they are the expected ones. */
module SerialRun {
  import opened Bytes
  import opened A64
  import opened Machine
  import opened Assembler
  import opened Syscalls
  import opened Layout
  import opened Blocks
  import opened Templates
  import opened SerialRx
  import GuestElf

  // ----- what the answers amount to -----

  datatype Verdict = Waiting | Failed | Succeeded

  /** The verdict on what `read` has answered so far. */
  function Judge(input: seq<byte>, answers: seq<Event>, received: seq<byte>): Verdict {
    if |received| >= |input| then (if received == input then Succeeded else Failed)
    else if answers == [] then Waiting
    else if answers[0].result >= SIGN then Failed
    else Judge(input, answers[1..], received + answers[0].data)
  }

  /** Every request asks for exactly the bytes still missing, at exactly the
      place they belong, and no read follows an error or the last byte. */
  predicate Proper(fd: u64, buffer: int, input: seq<byte>, answers: seq<Event>, received: seq<byte>) {
    answers == [] ||
    (&& |received| < |input|
     && 0 <= buffer && buffer + |input| < TWO64 && |input| < TWO16
     && answers[0].call == Call(SYSCALL_READ, fd, buffer + |received|, |input| - |received|)
     && if answers[0].result >= SIGN then |answers| == 1 && answers[0].data == []
        else |answers[0].data| == answers[0].result <= |input| - |received|
             && Proper(fd, buffer, input, answers[1..], received + answers[0].data))
  }

  function Collected(answers: seq<Event>): seq<byte> {
    if answers == [] then [] else answers[0].data + Collected(answers[1..])
  }

  predicate NoErrors(answers: seq<Event>) {
    forall i | 0 <= i < |answers| :: answers[i].result < SIGN
  }

  /** Success is exactly: no error, and the bytes delivered are the input. Still
      waiting is exactly: no error, and bytes are missing. */
  lemma {:induction false} JudgeExactly(fd: u64, buffer: int, input: seq<byte>, answers: seq<Event>,
                                        received: seq<byte>)
    requires Proper(fd, buffer, input, answers, received) && |received| <= |input|
    ensures Judge(input, answers, received).Succeeded? <==> NoErrors(answers) && received + Collected(answers) == input
    ensures Judge(input, answers, received).Waiting? <==>
              NoErrors(answers) && |received| + |Collected(answers)| < |input|
    ensures |received| + |Collected(answers)| <= |input|
    decreases |answers|
  {
    if answers == [] {
      assert received + [] == received;
    } else if answers[0].result < SIGN {
      JudgeExactly(fd, buffer, input, answers[1..], received + answers[0].data);
      assert received + (answers[0].data + Collected(answers[1..]))
          == received + answers[0].data + Collected(answers[1..]);
      assert forall i | 0 <= i < |answers| :: i == 0 || answers[i] == answers[1..][i - 1];
    } else {
      assert answers == [answers[0]] && Collected(answers[1..]) == [];
    }
  }

  // ----- opening and configuring -----

  lemma OpenOps(t: Texts)
    requires t.Valid()
    ensures Ops(t)[0] == Code(MovImm(0, FDCWD)) && Ops(t)[1] == LoadAddress(1, "serial_tty", 0)
    ensures Ops(t)[2] == Code(OPEN + TEST) && Ops(t)[3] == JumpIf("failure", MI) && Ops(t)[28] == Mark("failure")
  {
    hide MovImm;
  }

  lemma ConfigureOps(t: Texts)
    requires t.Valid()
    ensures Ops(t)[4] == Code(KEEP) && Ops(t)[5] == Code(ARGUMENTS) && Ops(t)[6] == LoadAddress(2, "raw_termios", 0)
    ensures Ops(t)[7] == Code(CONFIGURE + TEST) && Ops(t)[8] == JumpIf("failure", NE) && Ops(t)[28] == Mark("failure")
  {
    hide MovImm;
  }

  /** A log of one call that is neither a read nor a write. */
  predicate Other(e: Event, number: imm16) {
    e.call.number == number && number != SYSCALL_READ && number != SYSCALL_WRITE
  }

  lemma OtherIsSilent(e: Event, number: imm16)
    requires Other(e, number)
    ensures Sent([e]) == [] && ReadsOf([e]) == []
  {
    SentOne(e);
  }

  lemma OpenFront(cpu: Cpu, mem: Memory)
    requires cpu.Valid()
    ensures var front, c := OPEN, SetAll(OPEN, cpu);
            && (forall k | 0 <= k < |front| :: Setter(front[k]))
            && c.x[8] == OPENAT && c.x[0] == cpu.x[0] && c.x[1] == cpu.x[1] && c.x[2] == RDWR && c.x[3] == 0
            && ExecAll(front, cpu, mem) == Running(SetAll(front, cpu).(pc := cpu.pc + 12), mem)
  {
    hide Exec, ExecAll;
    var front := OPEN;
    SettersRun(front, cpu, cpu.pc, mem);
    assert cpu.(pc := cpu.pc) == cpu;
    assert front[1..] == [front[1], front[2]] && front[1..][1..] == [front[2]] && front[1..][1..][1..] == [];
    var c2 := SetBy(front[1], SetBy(front[0], cpu));
    assert SetAll([front[2]], c2) == SetBy(front[2], c2);
  }

  /** The first operations: one `openat`, then the test of its result. */
  lemma Opening(w: World, r: Run) returns (s: Run, e: Event)
    requires w.Ok() && w.Here(r, 0) && w.MemOk(r.mem)
    ensures w.To(r, s, [e]) && Other(e, OPENAT) && s.At? && s.cpu.Valid() && s.mem == r.mem
    ensures e.call == Call(OPENAT, FDCWD, w.a["serial_tty"], RDWR) && e.extra == 0 && e.result == s.cpu.x[0]
    ensures w.Here(s, if e.result >= SIGN then 29 else 4)
  {
    hide Ops, World.To, World.Here, Cpu.Set, ExecAll, SetAll, SubtractFlags, World.MemOk, Obeys, MovImm;
    OpenOps(w.t);
    AtOpMeans(w, r, 0);
    LoadOp(w, r, 0, 0, FDCWD);
    var r1 := Assembler.At(r.cpu.(pc := r.cpu.pc + 16).Set(0, FDCWD), r.mem, r.traps);
    LoadOp(w, r1, 1, 1, w.a["serial_tty"]);
    var r2 := Assembler.At(r1.cpu.(pc := r1.cpu.pc + 16).Set(1, w.a["serial_tty"]), r.mem, r.traps);
    Quietly(w, r, r1, r2);
    SetSame(r.cpu.(pc := r.cpu.pc + 16), 0, FDCWD);
    w.TtyFits();
    SetSame(r1.cpu.(pc := r1.cpu.pc + 16), 1, w.a["serial_tty"]);
    SetOther(r1.cpu.(pc := r1.cpu.pc + 16), 1, w.a["serial_tty"], 0);
    OpenFront(r2.cpu, r.mem);
    var front := OPEN;
    SettersPlain(front);
    var c := SetAll(front, r2.cpu).(pc := r2.cpu.pc + 12);
    var r3: Run;
    r3, e := CallOp(w, r2, 2, front, c);
    Then(w, r, r2, r3, [], [e]);
    assert [] + [e] == [e];
    s := JumpOp(w, r3, 3, 28);
    Then(w, r, r3, s, [e], []);
    assert [e] + [] == [e];
    Tests(r3.cpu.x[0], 0, TWO64);
  }

  lemma Sets1(i: Instr, cpu: Cpu)
    requires cpu.Valid() && Setter(i)
    ensures SetAll([i], cpu) == SetBy(i, cpu)
  {
    hide SetBy;
    assert [i][1..] == [];
  }

  lemma Sets2(i: Instr, j: Instr, cpu: Cpu)
    requires cpu.Valid() && Setter(i) && Setter(j)
    ensures SetAll([i, j], cpu) == SetBy(j, SetBy(i, cpu))
  {
    hide SetBy;
    assert [i, j][1..] == [j];
    Sets1(j, SetBy(i, cpu));
  }

  lemma ConfigureFronts(cpu: Cpu, mem: Memory)
    requires cpu.Valid()
    ensures SetAll(KEEP, cpu).x[19] == cpu.x[0]
    ensures SetAll(ARGUMENTS, cpu).x[19] == cpu.x[19]
    ensures SetAll(ARGUMENTS, cpu).x[0] == cpu.x[19] && SetAll(ARGUMENTS, cpu).x[1] == TCSETS
    ensures SetAll(CONFIGURE, cpu).x[8] == IOCTL && SetAll(CONFIGURE, cpu).x[19] == cpu.x[19]
    ensures forall i | 0 <= i <= 2 :: SetAll(CONFIGURE, cpu).x[i] == cpu.x[i]
  {
    hide SetAll, Cpu.Set;
    Sets1(KEEP[0], cpu);
    SetSame(cpu, 19, cpu.x[0]);
    Sets2(ARGUMENTS[0], ARGUMENTS[1], cpu);
    var c := SetBy(ARGUMENTS[0], cpu);
    SetOther(cpu, 0, cpu.x[19], 19);
    SetOther(c, 1, TCSETS, 19);
    SetSame(cpu, 0, cpu.x[19]);
    SetOther(c, 1, TCSETS, 0);
    SetSame(c, 1, TCSETS);
    SetOther(cpu, 8, IOCTL, 0);
    SetOther(cpu, 8, IOCTL, 1);
    SetOther(cpu, 8, IOCTL, 2);
    Sets1(CONFIGURE[0], cpu);
    SetSame(cpu, 8, IOCTL);
    SetOther(cpu, 8, IOCTL, 19);
  }

  /** An operation of register-setting code. */
  lemma SetterOp(w: World, r: Run, k: nat, instrs: seq<Instr>) returns (s: Run)
    requires w.Ok() && k < 32 && w.Here(r, k)
    requires Ops(w.t)[k] == Code(instrs) && forall i | 0 <= i < |instrs| :: Setter(instrs[i])
    ensures r.At? && r.cpu.Valid() && s.At? && s.mem == r.mem && s.cpu.x == SetAll(instrs, r.cpu).x && s.cpu.Valid()
    ensures w.To(r, s, []) && w.Here(s, k + 1)
  {
    hide Ops, World.To, World.Here, ExecAll, SetAll, Obeys;
    AtOpMeans(w, r, k);
    SettersRun(instrs, r.cpu, r.cpu.pc, r.mem);
    assert r.cpu.(pc := r.cpu.pc) == r.cpu;
    SettersPlain(instrs);
    var c := SetAll(instrs, r.cpu).(pc := r.cpu.pc + 4 * |instrs|);
    PlainOp(w, r, k, instrs, c);
    s := Assembler.At(c, r.mem, r.traps);
  }

  /** Then one `ioctl`, and the test of its result. */
  lemma Configuring(w: World, r: Run) returns (s: Run, e: Event)
    requires w.Ok() && w.Here(r, 4)
    ensures r.At? && r.cpu.Valid() && s.At? && s.cpu.Valid() && s.mem == r.mem && s.cpu.x[19] == r.cpu.x[0]
    ensures w.To(r, s, [e]) && Other(e, IOCTL) && e.result == s.cpu.x[0]
    ensures e.call == Call(IOCTL, r.cpu.x[0], TCSETS, w.a["raw_termios"])
    ensures w.Here(s, if e.result != 0 then 29 else 9)
  {
    hide Ops, World.To, World.Here, Cpu.Set, ExecAll, SetAll, SubtractFlags, Obeys;
    ConfigureOps(w.t);
    AtOpMeans(w, r, 4);
    ConfigureFronts(r.cpu, r.mem);
    var r1 := SetterOp(w, r, 4, KEEP);
    ConfigureFronts(r1.cpu, r.mem);
    var r2 := SetterOp(w, r1, 5, ARGUMENTS);
    LoadOp(w, r2, 6, 2, w.a["raw_termios"]);
    var r3 := Assembler.At(r2.cpu.(pc := r2.cpu.pc + 16).Set(2, w.a["raw_termios"]), r2.mem, r2.traps);
    SetOther(r2.cpu.(pc := r2.cpu.pc + 16), 2, w.a["raw_termios"], 19);
    SetOther(r2.cpu.(pc := r2.cpu.pc + 16), 2, w.a["raw_termios"], 0);
    SetOther(r2.cpu.(pc := r2.cpu.pc + 16), 2, w.a["raw_termios"], 1);
    w.TtyFits();
    SetSame(r2.cpu.(pc := r2.cpu.pc + 16), 2, w.a["raw_termios"]);
    Quietly(w, r, r1, r2);
    Quietly(w, r, r2, r3);
    var front := CONFIGURE;
    ConfigureFronts(r3.cpu, r.mem);
    SettersRun(front, r3.cpu, r3.cpu.pc, r.mem);
    assert r3.cpu.(pc := r3.cpu.pc) == r3.cpu;
    SettersPlain(front);
    var c := SetAll(front, r3.cpu).(pc := r3.cpu.pc + 4);
    var r4: Run;
    r4, e := CallOp(w, r3, 7, front, c);
    Then(w, r, r3, r4, [], [e]);
    assert [] + [e] == [e];
    AnsweredRegister(c.Next(), r.mem, r4.cpu.(pc := c.pc + 4), r4.mem, 19);
    s := JumpOp(w, r4, 8, 28);
    Then(w, r, r4, s, [e], []);
    assert [e] + [] == [e];
    Tests(r4.cpu.x[0], 0, TWO64);
  }

  lemma SetOther(cpu: Cpu, rd: reg, value: int, i: reg)
    requires cpu.Valid() && i != rd
    ensures cpu.Set(rd, value).x[i] == cpu.x[i]
  {
  }

  lemma SetSame(cpu: Cpu, rd: reg, value: int)
    requires cpu.Valid() && 0 <= value < TWO64
    ensures cpu.Set(rd, value).x[rd] == value
  {
  }

  // ----- reading -----

  /** At the head of the read loop with these bytes received. */
  predicate Reading(w: World, r: Run, fd: u64, received: seq<byte>)
    requires w.Named() && w.t.Valid()
  {
    && w.Here(r, 13) && r.At? && r.cpu.Valid() && |received| < |w.t.input|
    && r.cpu.x[19] == fd && r.cpu.x[20] == w.Buffer() + |received| && r.cpu.x[21] == |w.t.input| - |received|
    && w.MemOk(r.mem) && Holds(r.mem, w.Buffer(), received)
  }

  lemma AnnounceOps(t: Texts)
    requires t.Valid()
    ensures Ops(t)[9] == Print(1, "ready_marker", |t.ready|) && Ops(t)[10] == LoadAddress(20, "input_buffer", 0)
    ensures Ops(t)[11] == Code([Movz(21, |t.input|, 0)]) && Ops(t)[12] == Mark("read_input")
  {
    hide MovImm;
  }

  /** The ready marker, and into the read loop. */
  lemma Announcing(w: World, r: Run) returns (s: Run, log: seq<Event>)
    requires w.Ok() && w.Here(r, 9) && w.MemOk(r.mem)
    ensures r.At? && r.cpu.Valid() && w.To(r, s, log) && Reading(w, s, r.cpu.x[19], [])
    ensures Sent(log) == w.t.ready && ReadsOf(log) == [] && InChunks(log) && s.mem == r.mem
  {
    hide Ops, World.To, World.Here, Cpu.Set, ExecAll, SetAll, Obeys, Sent, ReadsOf, InChunks;
    AnnounceOps(w.t);
    AtOpMeans(w, r, 9);
    var r1: Run;
    r1, log := PrintOp(w, r, 9, w.t.ready);
    LoadOp(w, r1, 10, 20, w.Buffer());
    var r2 := Assembler.At(r1.cpu.(pc := r1.cpu.pc + 16).Set(20, w.Buffer()), r1.mem, r1.traps);
    SetSame(r1.cpu.(pc := r1.cpu.pc + 16), 20, w.Buffer());
    SetOther(r1.cpu.(pc := r1.cpu.pc + 16), 20, w.Buffer(), 19);
    s := SetterOp(w, r2, 11, [Movz(21, |w.t.input|, 0)]);
    Sets1(Movz(21, |w.t.input|, 0), r2.cpu);
    SetSame(r2.cpu, 21, |w.t.input|);
    SetOther(r2.cpu, 21, |w.t.input|, 19);
    SetOther(r2.cpu, 21, |w.t.input|, 20);
    PastMark(w, s, 12);
    Quietly(w, r1, r2, s);
    Then(w, r, r1, s, log, []);
    assert log + [] == log;
  }

  lemma ReadFront(cpu: Cpu)
    requires cpu.Valid()
    ensures var c := SetAll(READ, cpu);
            && c.x[0] == cpu.x[19] && c.x[1] == cpu.x[20] && c.x[2] == cpu.x[21] && c.x[8] == SYSCALL_READ
            && c.x[19] == cpu.x[19] && c.x[20] == cpu.x[20] && c.x[21] == cpu.x[21]
  {
    hide SetAll;
    SetsSplit(READ[..2], READ[2..], cpu);
    assert READ == READ[..2] + READ[2..] && READ[..2] == [READ[0], READ[1]] && READ[2..] == [READ[2], READ[3]];
    var c := SetAll(READ[..2], cpu);
    Sets2(READ[0], READ[1], cpu);
    assert c.x[0] == cpu.x[19] && c.x[1] == cpu.x[20] && c.x[19..] == cpu.x[19..];
    assert c.x[19] == cpu.x[19] && c.x[20] == cpu.x[20] && c.x[21] == cpu.x[21];
    Sets2(READ[2], READ[3], c);
  }

  lemma {:induction false} SetsSplit(a: seq<Instr>, b: seq<Instr>, cpu: Cpu)
    requires cpu.Valid()
    requires forall k | 0 <= k < |a| :: Setter(a[k])
    requires forall k | 0 <= k < |b| :: Setter(b[k])
    ensures forall k | 0 <= k < |a + b| :: Setter((a + b)[k])
    ensures SetAll(a + b, cpu) == SetAll(b, SetAll(a, cpu))
    decreases |a|
  {
    hide SetBy;
    if a == [] {
      assert a + b == b;
    } else {
      assert (a + b)[1..] == a[1..] + b;
      SetsSplit(a[1..], b, SetBy(a[0], cpu));
    }
  }

  lemma {:induction false} PeekMapped(mem: Memory, a: int, n: nat)
    requires forall b | a <= b < a + n :: b in mem
    ensures |Peek(mem, a, n)| == n && Holds(mem, a, Peek(mem, a, n))
    decreases n
  {
    if n > 0 {
      PeekMapped(mem, a + 1, n - 1);
    }
  }

  /** A read leaves the constants alone and extends what has been received. */
  lemma Delivered(w: World, mem: Memory, mem': Memory, received: seq<byte>, n: nat)
    requires w.Ok() && w.MemOk(mem) && Holds(mem, w.Buffer(), received)
    requires |received| + n <= |w.t.input| && ChangedOnlyIn(mem, mem', w.Buffer() + |received|, n)
    ensures w.MemOk(mem') && w.Kept(mem, mem') && |Peek(mem', w.Buffer() + |received|, n)| == n
    ensures Holds(mem', w.Buffer(), received + Peek(mem', w.Buffer() + |received|, n))
  {
    hide Peek, Obeys;
    assert forall b | w.Buffer() <= b < w.Buffer() + |w.t.input| :: b in mem';
    PeekMapped(mem', w.Buffer() + |received|, n);
  }

  lemma ReadOps(t: Texts)
    requires t.Valid()
    ensures Ops(t)[12] == Mark("read_input") && Ops(t)[13] == Code(READ + TEST)
    ensures Ops(t)[14] == JumpIf("failure", MI) && Ops(t)[15] == JumpIf("read_input", EQ)
    ensures Ops(t)[16] == Code(ADVANCE + [CmpImm(21, 0)]) && Ops(t)[17] == JumpIf("read_input", NE)
    ensures Ops(t)[28] == Mark("failure")
  {
    hide MovImm;
  }

  /** One `read`: its request, and what it left. */
  lemma ReadCall(w: World, r: Run, fd: u64, received: seq<byte>) returns (s: Run, e: Event)
    requires w.Ok() && Reading(w, r, fd, received)
    ensures w.To(r, s, [e]) && w.Here(s, 14) && s.At? && s.cpu.Valid()
    ensures e.call == Call(SYSCALL_READ, fd, w.Buffer() + |received|, |w.t.input| - |received|)
    ensures e.result == s.cpu.x[0] && s.cpu.flags == SubtractFlags(s.cpu.x[0], 0, TWO64)
    ensures s.cpu.x[19] == fd && s.cpu.x[20] == r.cpu.x[20] && s.cpu.x[21] == r.cpu.x[21]
    ensures w.MemOk(s.mem) && w.Kept(r.mem, s.mem) && Holds(s.mem, w.Buffer(), received + e.data)
    ensures if e.result < SIGN then |e.data| == e.result <= |w.t.input| - |received| else e.data == []
  {
    hide Ops, World.To, World.Here, ExecAll, SetAll, Obeys, World.MemOk, Holds, Peek, SubtractFlags;
    ReadOps(w.t);
    SettersRun(READ, r.cpu, r.cpu.pc, r.mem);
    assert r.cpu.(pc := r.cpu.pc) == r.cpu;
    SettersPlain(READ);
    ReadFront(r.cpu);
    var c := SetAll(READ, r.cpu).(pc := r.cpu.pc + 16);
    s, e := CallOp(w, r, 13, READ, c);
    var d := s.cpu.(pc := c.pc + 4);
    AnsweredRegister(c.Next(), r.mem, d, s.mem, 19);
    AnsweredRegister(c.Next(), r.mem, d, s.mem, 20);
    AnsweredRegister(c.Next(), r.mem, d, s.mem, 21);
    if e.result < SIGN {
      Delivered(w, r.mem, s.mem, received, e.result);
    } else {
      assert received + e.data == received;
    }
  }

  lemma AdvanceSets(cpu: Cpu)
    requires cpu.Valid() && cpu.x[20] + cpu.x[0] < TWO64 && cpu.x[0] <= cpu.x[21]
    ensures var c := SetAll(ADVANCE, cpu);
            c.x[19] == cpu.x[19] && c.x[20] == cpu.x[20] + cpu.x[0] && c.x[21] == cpu.x[21] - cpu.x[0]
  {
    hide SetAll;
    Sets2(ADVANCE[0], ADVANCE[1], cpu);
  }

  /** Counting the delivered bytes: back to the loop, or on when none is
      missing. */
  lemma Advancing(w: World, r: Run, fd: u64, received: seq<byte>, data: seq<byte>) returns (s: Run)
    requires w.Ok() && w.Here(r, 16) && r.At? && r.cpu.Valid() && w.MemOk(r.mem)
    requires r.cpu.x[19] == fd && r.cpu.x[20] == w.Buffer() + |received|
    requires r.cpu.x[21] == |w.t.input| - |received| && r.cpu.x[0] == |data|
    requires |received| + |data| <= |w.t.input| && Holds(r.mem, w.Buffer(), received + data)
    ensures w.To(r, s, []) && s.At? && s.cpu.Valid() && s.mem == r.mem
    ensures if |received| + |data| < |w.t.input| then Reading(w, s, fd, received + data) else w.Here(s, 18)
  {
    hide Ops, OpAt, World.To, World.Here, ExecAll, SetAll, Obeys, World.MemOk, Holds, SubtractFlags;
    ReadOps(w.t);
    AdvanceSets(r.cpu);
    SettersThenTest(ADVANCE, 21, r.cpu, r.mem);
    var a := SetAll(ADVANCE, r.cpu);
    var c := a.(pc := r.cpu.pc + 4 * |ADVANCE| + 4, flags := SubtractFlags(a.x[21], 0, TWO64));
    PlainOp(w, r, 16, ADVANCE + [CmpImm(21, 0)], c);
    var r1 := Assembler.At(c, r.mem, r.traps);
    s := JumpOp(w, r1, 17, 12);
    Quietly(w, r, r1, s);
    Tests(c.x[21], 0, TWO64);
  }

  // ----- comparing -----

  /** At the head of the compare loop, the first `i` bytes being equal. */
  predicate Comparing(w: World, r: Run, got: seq<byte>, i: nat)
    requires w.Named() && w.t.Valid()
  {
    && w.Here(r, 22) && r.At? && r.cpu.Valid() && i < |got| == |w.t.input|
    && r.cpu.x[20] == w.Buffer() + i && r.cpu.x[21] == w.a["expected_input"] + i && r.cpu.x[22] == |got| - i
    && w.MemOk(r.mem) && Holds(r.mem, w.Buffer(), got)
  }

  lemma StartOps(t: Texts)
    requires t.Valid()
    ensures Ops(t)[18] == LoadAddress(20, "input_buffer", 0) && Ops(t)[19] == LoadAddress(21, "expected_input", 0)
    ensures Ops(t)[20] == Code([Movz(22, |t.input|, 0)]) && Ops(t)[21] == Mark("compare_input")
  {
    hide MovImm;
  }

  lemma CompareOps(t: Texts)
    requires t.Valid()
    ensures Ops(t)[21] == Mark("compare_input") && Ops(t)[28] == Mark("failure")
    ensures Ops(t)[22] == Code(COMPARE) && Ops(t)[23] == JumpIf("failure", NE)
    ensures Ops(t)[24] == Code(NEXT + [CmpImm(22, 0)]) && Ops(t)[25] == JumpIf("compare_input", NE)
  {
    hide MovImm;
  }

  lemma StartComparing(w: World, r: Run, got: seq<byte>) returns (s: Run)
    requires w.Ok() && w.Here(r, 18) && r.At? && w.MemOk(r.mem)
    requires |got| == |w.t.input| && Holds(r.mem, w.Buffer(), got)
    ensures w.To(r, s, []) && Comparing(w, s, got, 0) && s.mem == r.mem
  {
    hide Ops, OpAt, World.To, World.Here, Cpu.Set, ExecAll, SetAll, Obeys, World.MemOk, Holds;
    StartOps(w.t);
    AtOpMeans(w, r, 18);
    var buffer, expected := w.Buffer(), w.a["expected_input"];
    LoadOp(w, r, 18, 20, buffer);
    var r1 := Assembler.At(r.cpu.(pc := r.cpu.pc + 16).Set(20, buffer), r.mem, r.traps);
    LoadOp(w, r1, 19, 21, expected);
    var r2 := Assembler.At(r1.cpu.(pc := r1.cpu.pc + 16).Set(21, expected), r.mem, r.traps);
    Quietly(w, r, r1, r2);
    SetSame(r.cpu.(pc := r.cpu.pc + 16), 20, buffer);
    SetOther(r1.cpu.(pc := r1.cpu.pc + 16), 21, expected, 20);
    SetSame(r1.cpu.(pc := r1.cpu.pc + 16), 21, expected);
    s := SetterOp(w, r2, 20, [Movz(22, |w.t.input|, 0)]);
    Sets1(Movz(22, |w.t.input|, 0), r2.cpu);
    SetSame(r2.cpu, 22, |w.t.input|);
    SetOther(r2.cpu, 22, |w.t.input|, 20);
    SetOther(r2.cpu, 22, |w.t.input|, 21);
    PastMark(w, s, 21);
    Quietly(w, r, r2, s);
  }

  lemma NextSets(cpu: Cpu)
    requires cpu.Valid() && cpu.x[20] + 1 < TWO64 && cpu.x[21] + 1 < TWO64 && cpu.x[22] > 0
    ensures var c := SetAll(NEXT, cpu);
            c.x[20] == cpu.x[20] + 1 && c.x[21] == cpu.x[21] + 1 && c.x[22] == cpu.x[22] - 1
  {
    hide SetAll;
    assert NEXT == NEXT[..2] + NEXT[2..] && NEXT[..2] == [NEXT[0], NEXT[1]] && NEXT[2..] == [NEXT[2]];
    SetsSplit(NEXT[..2], NEXT[2..], cpu);
    Sets2(NEXT[0], NEXT[1], cpu);
    Sets1(NEXT[2], SetAll(NEXT[..2], cpu));
  }

  /** One byte compared: to the failure path, to the next byte, or on. */
  lemma CompareTurn(w: World, r: Run, got: seq<byte>, i: nat) returns (s: Run)
    requires w.Ok() && Comparing(w, r, got, i)
    ensures w.To(r, s, []) && s.At? && s.cpu.Valid() && s.mem == r.mem
    ensures if got[i] != w.t.input[i] then w.Here(s, 29)
            else if i + 1 < |got| then Comparing(w, s, got, i + 1) else w.Here(s, 26)
  {
    hide Ops, OpAt, World.To, World.Here, ExecAll, SetAll, Obeys, SubtractFlags;
    CompareOps(w.t);
    assert r.cpu.x[20] in r.mem && r.mem[r.cpu.x[20]] == got[i];
    assert r.cpu.x[21] in r.mem && r.mem[r.cpu.x[21]] == w.t.input[i];
    LoadsCompare(r.cpu, r.mem, 23, 20, 24, 21);
    var loaded := r.cpu.Set(23, got[i]).Set(24, w.t.input[i]);
    var c := loaded.(pc := r.cpu.pc + 12, flags := SubtractFlags(got[i], w.t.input[i], 0x1_0000_0000));
    PlainOp(w, r, 22, COMPARE, c);
    var r1 := Assembler.At(c, r.mem, r.traps);
    var r2 := JumpOp(w, r1, 23, 28);
    Quietly(w, r, r1, r2);
    Tests(got[i], w.t.input[i], 0x1_0000_0000);
    s := r2;
    if got[i] == w.t.input[i] {
      s := NextByte(w, r2, got, i);
      Quietly(w, r, r2, s);
    }
  }

  lemma NextByte(w: World, r: Run, got: seq<byte>, i: nat) returns (s: Run)
    requires w.Ok() && w.Here(r, 24) && r.At? && r.cpu.Valid() && i < |got| == |w.t.input|
    requires r.cpu.x[20] == w.Buffer() + i && r.cpu.x[21] == w.a["expected_input"] + i && r.cpu.x[22] == |got| - i
    requires w.MemOk(r.mem) && Holds(r.mem, w.Buffer(), got)
    ensures w.To(r, s, []) && s.At? && s.cpu.Valid() && s.mem == r.mem
    ensures if i + 1 < |got| then Comparing(w, s, got, i + 1) else w.Here(s, 26)
  {
    hide Ops, OpAt, World.To, World.Here, ExecAll, SetAll, Obeys, SubtractFlags, World.MemOk, Holds;
    CompareOps(w.t);
    NextSets(r.cpu);
    SettersThenTest(NEXT, 22, r.cpu, r.mem);
    var a := SetAll(NEXT, r.cpu);
    var c := a.(pc := r.cpu.pc + 4 * |NEXT| + 4, flags := SubtractFlags(a.x[22], 0, TWO64));
    PlainOp(w, r, 24, NEXT + [CmpImm(22, 0)], c);
    var r1 := Assembler.At(c, r.mem, r.traps);
    s := JumpOp(w, r1, 25, 21);
    Quietly(w, r, r1, s);
    Tests(c.x[22], 0, TWO64);
  }

  /** The whole comparison. */
  lemma {:induction false} CompareRun(w: World, r: Run, got: seq<byte>, i: nat) returns (s: Run)
    requires w.Ok() && Comparing(w, r, got, i) && got[..i] == w.t.input[..i]
    ensures w.To(r, s, []) && s.At? && s.cpu.Valid() && s.mem == r.mem
    ensures w.Here(s, if got == w.t.input then 26 else 29)
    decreases |got| - i
  {
    hide Ops, OpAt, World.To, World.Here, Obeys, World.MemOk, Holds;
    s := CompareTurn(w, r, got, i);
    if got[i] == w.t.input[i] {
      assert got[..i + 1] == w.t.input[..i + 1];
      if i + 1 < |got| {
        var r1 := s;
        s := CompareRun(w, r1, got, i + 1);
        Quietly(w, r, r1, s);
      } else {
        assert got == got[..i + 1] && w.t.input == w.t.input[..i + 1];
      }
    }
  }

  // ----- reporting -----

  lemma ReportOps(t: Texts)
    requires t.Valid()
    ensures Ops(t)[26] == Print(1, "success_marker", |t.success|) && Ops(t)[27] == Jump("done")
    ensures Ops(t)[29] == Print(1, "failure_marker", |t.failure|) && Ops(t)[30] == Mark("done")
    ensures Ops(t)[31] == Code([B(0)])
  {
    hide MovImm;
  }

  /** Either marker, then the end. */
  lemma Reporting(w: World, r: Run, good: bool) returns (s: Run, log: seq<Event>)
    requires w.Ok() && w.Here(r, if good then 26 else 29) && r.At? && w.MemOk(r.mem)
    ensures w.To(r, s, log) && w.Here(s, 31) && s.At? && s.mem == r.mem
    ensures Sent(log) == (if good then w.t.success else w.t.failure) && ReadsOf(log) == [] && InChunks(log)
  {
    hide Ops, OpAt, World.To, World.Here, Obeys, Sent, ReadsOf, InChunks;
    ReportOps(w.t);
    var r1: Run;
    if good {
      r1, log := PrintOp(w, r, 26, w.t.success);
      s := JumpOp(w, r1, 27, 30);
      Then(w, r, r1, s, log, []);
      assert log + [] == log;
    } else {
      s, log := PrintOp(w, r, 29, w.t.failure);
      PastMark(w, s, 30);
    }
  }

  // ----- whole runs -----

  lemma ReadIsSilent(e: Event, log: seq<Event>)
    requires e.call.number == SYSCALL_READ && ReadsOf(log) == [] && InChunks(log)
    ensures Sent([e] + log) == Sent(log) && ReadsOf([e] + log) == [e] && InChunks([e] + log)
  {
    SentOne(e);
    LogAppend([e], log);
    InChunksAppend([e], log);
  }

  /** One turn of the read loop, to its next head or to the end. */
  lemma ReadTurn(w: World, r: Run, fd: u64, received: seq<byte>) returns (s: Run, e: Event, log: seq<Event>)
    requires w.Ok() && Reading(w, r, fd, received)
    ensures w.To(r, s, log) && ReadsOf(log) == [e] <= log && InChunks(log)
    ensures e.result < SIGN && |received + e.data| < |w.t.input| ==> log == [e]
    ensures e.call == Call(SYSCALL_READ, fd, w.Buffer() + |received|, |w.t.input| - |received|)
    ensures if e.result < SIGN then |e.data| == e.result <= |w.t.input| - |received| else e.data == []
    ensures s.At? && w.Kept(r.mem, s.mem) && Holds(s.mem, w.Buffer(), received + e.data)
    ensures if e.result >= SIGN then w.Here(s, 31) && Sent(log) == w.t.failure
            else if |received + e.data| < |w.t.input| then Reading(w, s, fd, received + e.data) && Sent(log) == []
            else w.Here(s, 31) && Sent(log) == if received + e.data == w.t.input then w.t.success else w.t.failure
  {
    hide Ops, OpAt, World.To, World.Here, Obeys, World.MemOk, Holds, SubtractFlags, ConditionHolds, Sent, ReadsOf,
         InChunks;
    ReadOps(w.t);
    var none: seq<Event> := [];
    SentNone();
    var r1: Run;
    r1, e := ReadCall(w, r, fd, received);
    Tests(r1.cpu.x[0], 0, TWO64);
    var r2 := JumpOp(w, r1, 14, 28);
    Then(w, r, r1, r2, [e], none);
    assert [e] + none == [e];
    if e.result >= SIGN {
      var l: seq<Event>;
      s, l := Reporting(w, r2, false);
      log := [e] + l;
      Then(w, r, r2, s, [e], l);
      ReadIsSilent(e, l);
      return;
    }
    var r3 := JumpOp(w, r2, 15, 12);
    Then(w, r, r2, r3, [e], none);
    ReadIsSilent(e, none);
    if e.result == 0 {
      assert received + e.data == received;
      return r3, e, [e];
    }
    var r4 := Advancing(w, r3, fd, received, e.data);
    Then(w, r, r3, r4, [e], none);
    if |received + e.data| < |w.t.input| {
      return r4, e, [e];
    }
    var l: seq<Event>;
    s, l := Finishing(w, r4, received + e.data);
    log := [e] + l;
    Then(w, r, r4, s, [e], l);
    ReadIsSilent(e, l);
  }

  lemma Finishing(w: World, r: Run, got: seq<byte>) returns (s: Run, log: seq<Event>)
    requires w.Ok() && w.Here(r, 18) && r.At? && w.MemOk(r.mem)
    requires |got| == |w.t.input| && Holds(r.mem, w.Buffer(), got)
    ensures w.To(r, s, log) && w.Here(s, 31) && s.At? && s.mem == r.mem
    ensures Sent(log) == (if got == w.t.input then w.t.success else w.t.failure) && ReadsOf(log) == [] && InChunks(log)
  {
    hide Ops, OpAt, World.To, World.Here, Obeys, World.MemOk, Holds, Sent, ReadsOf, InChunks;
    var none: seq<Event> := [];
    var r1 := StartComparing(w, r, got);
    assert got[..0] == w.t.input[..0];
    var r2 := CompareRun(w, r1, got, 0);
    Quietly(w, r, r1, r2);
    s, log := Reporting(w, r2, got == w.t.input);
    Then(w, r, r2, s, none, log);
    assert none + log == log;
  }

  function Report(t: Texts, v: Verdict): seq<byte> {
    match v case Waiting => [] case Failed => t.failure case Succeeded => t.success
  }

  /** After at most `k` reads: the machine is still reading exactly when the
      answers leave it waiting, and has otherwise sent the right marker. */
  lemma {:induction false} ReadLoop(w: World, r: Run, fd: u64, received: seq<byte>, k: nat)
    returns (s: Run, log: seq<Event>)
    requires w.Ok() && Reading(w, r, fd, received)
    ensures w.To(r, s, log) && InChunks(log) && ReadsOf(log) <= log
    ensures Proper(fd, w.Buffer(), w.t.input, ReadsOf(log), received) && |ReadsOf(log)| <= k
    ensures var v := Judge(w.t.input, ReadsOf(log), received);
            && Sent(log) == Report(w.t, v)
            && if v.Waiting? then |ReadsOf(log)| == k && w.Here(s, 13) else w.Here(s, 31)
    ensures s.At? && w.Kept(r.mem, s.mem) && Holds(s.mem, w.Buffer(), received + Collected(ReadsOf(log)))
    decreases k
  {
    hide Ops, OpAt, World.To, World.Here, Obeys, World.MemOk, World.Kept, Holds, Sent, ReadsOf, InChunks;
    SentNone();
    w.KeptSelf(r.mem);
    if k == 0 {
      s, log := r, [];
      Stay(w, r);
      assert received + Collected([]) == received;
    } else {
      var r1: Run, e: Event, l1: seq<Event>;
      r1, e, l1 := ReadTurn(w, r, fd, received);
      if e.result < SIGN && |received + e.data| < |w.t.input| {
        var l2: seq<Event>;
        s, l2 := ReadLoop(w, r1, fd, received + e.data, k - 1);
        log := l1 + l2;
        Then(w, r, r1, s, l1, l2);
        LogAppend(l1, l2);
        InChunksAppend(l1, l2);
        assert ReadsOf(log)[1..] == ReadsOf(l2);
        w.KeptTrans(r.mem, r1.mem, s.mem);
        assert received + Collected(ReadsOf(log)) == received + e.data + Collected(ReadsOf(l2));
      } else {
        s, log := r1, l1;
        assert ReadsOf(log)[1..] == [];
        assert received + Collected(ReadsOf(log)) == received + e.data;
      }
    }
  }

  lemma Stay(w: World, r: Run)
    requires w.Named() && w.t.Valid()
    ensures w.To(r, r, [])
  {
    w.NamesOps();
    LeadsSelf(Prog(Ops(w.t), w.a), w.kernel, r);
  }

  /** The terminal is opened for reading and writing by its path. */
  predicate Opened(w: World, e: Event)
    requires w.Named()
  {
    && e.call.number == OPENAT && e.call.arg0 == FDCWD && e.call.arg1 == w.a["serial_tty"] && e.call.arg2 == RDWR
    && e.extra == 0
  }

  /** The opened descriptor is configured. */
  predicate Configured(w: World, e: Event, fd: u64)
    requires w.Named()
  {
    e.call.number == IOCTL && e.call.arg0 == fd && e.call.arg1 == TCSETS && e.call.arg2 == w.a["raw_termios"]
  }

  /** After the two calls of setup, up to `n`, the ready marker; then all reads,
      one after the other. */
  predicate Announced(t: Texts, log: seq<Event>, n: nat) {
    2 <= n <= |log| && Sent(log[2..n]) == t.ready && ReadsOf(log[2..n]) == [] && ReadsOf(log) <= log[n..]
  }

  ghost predicate AnnouncedFirst(t: Texts, log: seq<Event>) {
    exists n: nat :: Announced(t, log, n)
  }

  /** From the first instruction: the terminal is opened and configured, and
      up to `k` reads are answered. */
  lemma FromEntry(w: World, r: Run, k: nat) returns (s: Run, log: seq<Event>)
    requires w.Ok() && w.Here(r, 0) && w.MemOk(r.mem)
    ensures w.To(r, s, log) && log != [] && Opened(w, log[0])
    ensures log[0].result < SIGN ==> |log| > 1 && Configured(w, log[1], log[0].result)
    ensures log[0].result >= SIGN ==>
              w.Here(s, 31) && ReadsOf(log) == [] && Sent(log) == w.t.failure && InChunks(log[1..])
    ensures log[0].result < SIGN ==> InChunks(log[2..])
    ensures log[0].result < SIGN && log[1].result != 0 ==>
              w.Here(s, 31) && ReadsOf(log) == [] && Sent(log) == w.t.failure
    ensures log[0].result < SIGN && log[1].result == 0 ==>
              && AnnouncedFirst(w.t, log)
              && Proper(log[0].result, w.Buffer(), w.t.input, ReadsOf(log), []) && |ReadsOf(log)| <= k
              && var v := Judge(w.t.input, ReadsOf(log), []);
                 && Sent(log) == w.t.ready + Report(w.t, v)
                 && if v.Waiting? then |ReadsOf(log)| == k && w.Here(s, 13) else w.Here(s, 31)
    ensures s.At? && w.Kept(r.mem, s.mem) && Holds(s.mem, w.Buffer(), Collected(ReadsOf(log)))
  {
    hide Ops, OpAt, World.To, World.Here, Obeys, World.MemOk, World.Kept, Sent, ReadsOf, InChunks, Proper, Judge,
         Report;
    AtOpMeans(w, r, 0);
    w.KeptSelf(r.mem);
    var e1: Event, e2: Event, r1: Run, r2: Run, r3: Run, l: seq<Event>, l': seq<Event>;
    r1, e1 := Opening(w, r);
    OtherIsSilent(e1, OPENAT);
    if e1.result >= SIGN {
      s, l := Reporting(w, r1, false);
      log := [e1] + l;
      Then(w, r, r1, s, [e1], l);
      LogAppend([e1], l);
      assert log[1..] == l;
      return;
    }
    r2, e2 := Configuring(w, r1);
    OtherIsSilent(e2, IOCTL);
    Then(w, r, r1, r2, [e1], [e2]);
    LogAppend([e1], [e2]);
    var setup := [e1] + [e2];
    if e2.result != 0 {
      s, l := Reporting(w, r2, false);
      log := setup + l;
      Then(w, r, r2, s, setup, l);
      LogAppend(setup, l);
      assert log[2..] == l;
      return;
    }
    r3, l := Announcing(w, r2);
    Then(w, r, r2, r3, setup, l);
    LogAppend(setup, l);
    s, l' := ReadLoop(w, r3, e1.result, [], k);
    log := setup + l + l';
    Then(w, r, r3, s, setup + l, l');
    LogAppend(setup + l, l');
    InChunksAppend(l, l');
    assert ReadsOf(log) == ReadsOf(l') && Sent(log) == w.t.ready + Sent(l');
    assert log[2..] == l + l' && log[2..2 + |l|] == l && log[2 + |l|..] == l';
    assert Announced(w.t, log, 2 + |l|);
    assert [] + Collected(ReadsOf(l')) == Collected(ReadsOf(log));
  }

  /** At the end nothing more ever happens. */
  lemma {:induction false} EndIsFinal(w: World, s: Run, m: nat)
    requires w.Ok() && w.Here(s, 31)
    ensures Names(Ops(w.t), w.a)
    ensures var p := Prog(Ops(w.t), w.a); RunLabelled(p, w.kernel, s, m) == s && Log(p, w.kernel, s, m) == []
    decreases m
  {
    hide Ops, OpAt, Obeys, Prog, LabelledStep, World.Here;
    w.NamesOps();
    if m > 0 {
      AtOpMeans(w, s, 31);
      EndStep(w, s);
      EndIsFinal(w, s, m - 1);
    }
  }

  lemma EndStep(w: World, s: Run)
    requires w.Ok() && w.Here(s, 31)
    ensures s.At? && s.cpu.Valid() && Names(Ops(w.t), w.a)
    ensures LabelledStep(Prog(Ops(w.t), w.a), s.cpu, s.mem) == Running(s.cpu, s.mem)
  {
    hide Ops, OpAt, Obeys, Decode, Encode;
    w.NamesOps();
    ReportOps(w.t);
    GuestElf.OpPlaced(Ops(w.t), 31, 32, w.a);
    var p, i := Prog(Ops(w.t), w.a), Pos(Ops(w.t), 31, w.a);
    assert p.items[i..i + 1][0] == p.items[i];
    DecodeEncode(B(0));
  }
}
