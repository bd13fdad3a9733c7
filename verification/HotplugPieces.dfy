/** The pieces only the hotplug program has: mounting, writing CPU 1's online
    file, waiting out the quiescence, comparing progress with the baseline, and
    the child's dispatch. */
module HotplugPieces {
  import opened Bytes
  import opened A64
  import opened Machine
  import opened Assembler
  import opened Syscalls
  import opened Layout
  import opened Blocks
  import opened Templates
  import opened SmpData
  import opened Duo
  import opened DuoOps
  import opened DuoCode

  const MOUNT: imm16 := 40
  const CLOSE: imm16 := 57
  const REBOOT: imm16 := 142
  const AT_FDCWD: int := 0xFFFF_FFFF_FFFF_FF9C
  const MAGIC1: int := 0xFEE1_DEAD
  const MAGIC2: int := 0x2812_1969
  const POWER_OFF: int := 0x4321_FEDC
  const ITERATIONS: imm16 := 4095

  // Labels of its data and marks of its code.
  function Cpu1Ready(): string { "child_ready" }
  function Quiesced(): string { "child_quiesced" }
  function Progress(): string { "cpu1_progress" }
  function Baseline(): string { "offline_baseline" }
  function OffMarker(): string { "off_marker" }
  function DoneMarker(): string { "done_marker" }
  function DispatchMark(): string { "child_dispatch" }
  function Count(): string { "child_progress" }
  function Quiesce(): string { "child_quiesce" }
  function Reenter(): string { "child_reenter" }
  function Work(): string { "offline_quiescence_work" }
  function OfflineValue(): string { "offline_value" }
  function OnlineValue(): string { "online_value" }
  function WaitReady(): string { "parent_wait_ready" }
  function WaitProgress(): string { "parent_wait_baseline_progress" }
  function WaitQuiesced(): string { "parent_wait_child_quiesced" }
  function WaitReentry(): string { "parent_wait_reentry" }

  const READY_SIZE: imm16 := 11
  const OFF_SIZE: imm16 := 9
  const DONE_SIZE: imm16 := 10

  // ----- mounting -----

  predicate Mounting(ops: seq<Op>, b: nat) {
    && b + 9 <= |ops| && ops[b] == Load(0, "sysfs") && ops[b + 1] == Load(1, "sys") && ops[b + 2] == Load(2, "sysfs")
    && ops[b + 3] == Mov(3, 0) && ops[b + 4] == Mov(4, 0) && ops[b + 5] == Mov(8, MOUNT) && ops[b + 6] == SVC
    && ops[b + 7] == Code([CmpImm(0, 0)]) && ops[b + 8] == JumpIf("failure", NE)
  }

  predicate MountGiven(w: Setting, c: Cpu)
    requires c.Valid()
  {
    && "sysfs" in w.a && "sys" in w.a && c.x[8] == MOUNT
    && c.x[0] == w.a["sysfs"] && c.x[1] == w.a["sys"] && c.x[2] == w.a["sysfs"] && c.x[3] == 0 && c.x[4] == 0
  }

  lemma ToMount(w: Setting, b: nat, c: Cpu) returns (d: Cpu)
    requires w.Ok() && Mounting(w.ops, b) && w.Here(c, b)
    ensures c.Valid() && d.Valid() && w.Reaches(c, d) && w.Here(d, b + 6) && MountGiven(w, d)
  {
    hide Comes, CpuAt, Keeps2, DistinctMarks, Prog, ProgramOf;
    var e := Three(w, b, c);
    d := Three(w, b + 3, e);
    AddressFits(w, "sysfs");
    AddressFits(w, "sys");
    Onward(w, c, e, d);
  }

  lemma MoveMount(w: Setting, s: Pair, who: Who, b: nat, m: nat, c: Cpu) returns (e: Cpu, d: Cpu)
    requires w.Ok() && Mounting(w.ops, b) && Failing(w.ops, m) && Idle(s, who, c) && w.Here(c, b + 6) && c.Valid()
    requires Asking(c, MOUNT)
    ensures e.Valid() && d.Valid() && w.Reaches(e, d) && Silent(s, who, e, w.Next(s, who))
    ensures Logged(s, who, e, w.Next(s, who))
    ensures if e.x[0] != 0 then Quitting(w, m, d) else w.Here(d, b + 9)
  {
    hide CpuAt, Keeps2, DistinctMarks, Comes, PairStep, Silent, Logged, Quitting, Failing, Prog, ProgramOf;
    e, d := MoveJudged(w, s, who, b + 6, m, c, 0, NE);
  }

  // ----- CPU 1's online file -----

  /** `emit_cpu1_online_write`. */
  predicate OnlineWriting(ops: seq<Op>, b: nat, value: string) {
    && b + 20 <= |ops|
    && ops[b] == Code(MovImm(0, AT_FDCWD)) && ops[b + 1] == Load(1, "cpu1_online") && ops[b + 2] == Mov(2, 1)
    && ops[b + 3] == Mov(3, 0) && ops[b + 4] == Mov(8, SYSCALL_OPENAT) && ops[b + 5] == SVC
    && ops[b + 6] == Code([CmpImm(0, 0)]) && ops[b + 7] == JumpIf("failure", MI)
    && ops[b + 8] == Code([MovReg(6, 0)]) && ops[b + 9] == Load(1, value) && ops[b + 10] == Mov(2, 1)
    && ops[b + 11] == Mov(8, SYSCALL_WRITE) && ops[b + 12] == SVC && ops[b + 13] == Code([CmpImm(0, 1)])
    && ops[b + 14] == JumpIf("failure", NE)
    && ops[b + 15] == Code([MovReg(0, 6)]) && ops[b + 16] == Mov(8, CLOSE) && ops[b + 17] == SVC
    && ops[b + 18] == Code([CmpImm(0, 0)]) && ops[b + 19] == JumpIf("failure", NE)
  }

  predicate OpenGiven(w: Setting, c: Cpu)
    requires c.Valid()
  {
    && "cpu1_online" in w.a && c.x[8] == SYSCALL_OPENAT
    && c.x[0] == AT_FDCWD && c.x[1] == w.a["cpu1_online"] && c.x[2] == 1 && c.x[3] == 0
  }

  /** About to write one byte to the descriptor kept in x6, not the terminal. */
  predicate WriteGiven(w: Setting, c: Cpu, value: string)
    requires c.Valid()
  {
    && value in w.a && c.x[8] == SYSCALL_WRITE
    && c.x[0] != 1 && c.x[0] == c.x[6] && c.x[1] == w.a[value] && c.x[2] == 1
  }

  lemma ToOpen(w: Setting, b: nat, value: string, c: Cpu) returns (d: Cpu)
    requires w.Ok() && OnlineWriting(w.ops, b, value) && w.Here(c, b)
    ensures c.Valid() && d.Valid() && w.Reaches(c, d) && w.Here(d, b + 5) && OpenGiven(w, d)
  {
    hide Comes, CpuAt, Keeps2, DistinctMarks, MovImm, Prog, ProgramOf;
    var e := Constant(w, b, c, 0, AT_FDCWD);
    d := Four(w, b + 1, e);
    AddressFits(w, "cpu1_online");
    Onward(w, c, e, d);
  }

  /** Opening: the write that follows is not to the terminal. */
  lemma MoveOpen(w: Setting, s: Pair, who: Who, b: nat, m: nat, value: string, c: Cpu) returns (e: Cpu, d: Cpu)
    requires w.Ok() && OnlineWriting(w.ops, b, value) && Failing(w.ops, m)
    requires Idle(s, who, c) && w.Here(c, b + 5) && c.Valid() && Asking(c, SYSCALL_OPENAT)
    ensures e.Valid() && d.Valid() && w.Reaches(e, d) && Silent(s, who, e, w.Next(s, who))
    ensures Logged(s, who, e, w.Next(s, who))
    ensures if e.x[0] >= SIGN then Quitting(w, m, d)
            else w.Here(d, b + 12) && WriteGiven(w, d, value) && d.x[0] == e.x[0]
  {
    hide CpuAt, Keeps2, DistinctMarks, Comes, PairStep, Silent, Logged, Quitting, Failing, Prog, ProgramOf, MovImm;
    e, d := MoveJudged(w, s, who, b + 5, m, c, 0, MI);
    if e.x[0] < SIGN {
      var f := d;
      d := Four(w, b + 8, f);
      AddressFits(w, value);
      Onward(w, e, f, d);
    }
  }

  lemma MoveOnlineWrite(w: Setting, s: Pair, who: Who, b: nat, m: nat, value: string, c: Cpu) returns (e: Cpu, d: Cpu)
    requires w.Ok() && OnlineWriting(w.ops, b, value) && Failing(w.ops, m)
    requires Idle(s, who, c) && w.Here(c, b + 12) && c.Valid() && Asking(c, SYSCALL_WRITE) && c.x[0] != 1
    ensures e.Valid() && d.Valid() && w.Reaches(e, d) && Silent(s, who, e, w.Next(s, who))
    ensures Logged(s, who, e, w.Next(s, who))
    ensures if e.x[0] != 1 then Quitting(w, m, d) else w.Here(d, b + 17) && Asking(d, CLOSE) && d.x[0] == c.x[6]
  {
    hide CpuAt, Keeps2, DistinctMarks, Comes, PairStep, Silent, Logged, Quitting, Failing, Prog, ProgramOf, MovImm;
    e, d := MoveJudged(w, s, who, b + 12, m, c, 1, NE);
    if e.x[0] == 1 {
      var f := d;
      d := Two(w, b + 15, f);
      assert f.x[1..][5] == c.x[1..][5];
      Onward(w, e, f, d);
    }
  }

  lemma MoveClose(w: Setting, s: Pair, who: Who, b: nat, m: nat, value: string, c: Cpu) returns (e: Cpu, d: Cpu)
    requires w.Ok() && OnlineWriting(w.ops, b, value) && Failing(w.ops, m)
    requires Idle(s, who, c) && w.Here(c, b + 17) && c.Valid() && Asking(c, CLOSE)
    ensures e.Valid() && d.Valid() && w.Reaches(e, d) && Silent(s, who, e, w.Next(s, who))
    ensures Logged(s, who, e, w.Next(s, who))
    ensures if e.x[0] != 0 then Quitting(w, m, d) else w.Here(d, b + 20)
  {
    hide CpuAt, Keeps2, DistinctMarks, Comes, PairStep, Silent, Logged, Quitting, Failing, Prog, ProgramOf, MovImm;
    e, d := MoveJudged(w, s, who, b + 17, m, c, 0, NE);
  }

  // ----- the baseline -----

  /** Load a word into x0, then store x0 elsewhere. */
  predicate Copying(ops: seq<Op>, b: nat, name: string, other: string) {
    && b + 4 <= |ops| && Loading(ops, b, name, 0) && ops[b + 2] == Load(1, other) && ops[b + 3] == Code([Stlr32(0, 1)])
  }

  lemma MoveCopyLoad(w: Setting, s: Pair, who: Who, b: nat, name: string, other: string, value: word, c: Cpu)
    returns (e: Cpu, d: Cpu)
    requires w.Ok() && Copying(w.ops, b, name, other) && Idle(s, who, c) && w.Here(c, b + 1) && c.Valid()
    requires Word(w, s.mem, name, value) && c.x[1] == w.a[name]
    ensures e.Valid() && d.Valid() && w.Reaches(e, d) && w.Next(s, who) == With(s, who, e)
    ensures w.Here(d, b + 3) && d.x[0] == value && other in w.a && d.x[1] == w.a[other]
  {
    hide CpuAt, Keeps2, DistinctMarks, Comes, PairStep, Load32, Prog, ProgramOf;
    e := LoadStep(w, s, who, b + 1, c, 0, 1);
    d := SimpleOp(w, b + 2, e);
    AtMeans(w, d, b + 3);
    AddressFits(w, other);
  }

  lemma MoveCopyStore(w: Setting, s: Pair, who: Who, b: nat, name: string, other: string, value: word, before: word,
                      c: Cpu)
    returns (e: Cpu)
    requires w.Ok() && Copying(w.ops, b, name, other) && Idle(s, who, c) && w.Here(c, b + 3) && c.Valid()
    requires Word(w, s.mem, other, before) && c.x[1] == w.a[other] && c.x[0] == value
    ensures e.Valid() && w.Here(e, b + 4)
    ensures var t := With(s, who, e); t.Pair? && w.Next(s, who) == t.(mem := Store32(s.mem, w.a[other], value))
  {
    hide CpuAt, Keeps2, DistinctMarks, Comes, PairStep, Load32, Store32, Prog, ProgramOf;
    e := StoreStep(w, s, who, b + 3, c, 0, 1);
  }

  // ----- waiting out the quiescence -----

  predicate Quiescing(ops: seq<Op>, b: nat) {
    && b + 7 <= |ops| && ops[b] == Mov(5, ITERATIONS) && ops[b + 1] == Mark(Work()) && ops[b + 2] == Mov(8, YIELD)
    && ops[b + 3] == SVC && ops[b + 4] == Code([SubImm64(5, 5, 1)]) && ops[b + 5] == Code([CmpImm(5, 0)])
    && ops[b + 6] == JumpIf(Work(), NE)
  }

  lemma ToYield(w: Setting, b: nat, c: Cpu) returns (d: Cpu)
    requires w.Ok() && Quiescing(w.ops, b) && w.Here(c, b + 2)
    ensures c.Valid() && d.Valid() && w.Reaches(c, d) && w.Here(d, b + 3) && Asking(d, YIELD) && d.x[5] == c.x[5]
  {
    hide Comes, CpuAt, Keeps2, DistinctMarks, Prog, ProgramOf;
    d := SimpleOp(w, b + 2, c);
    AtMeans(w, c, b + 2);
    AtMeans(w, d, b + 3);
  }

  lemma ToQuiescence(w: Setting, b: nat, c: Cpu) returns (d: Cpu)
    requires w.Ok() && Quiescing(w.ops, b) && w.Here(c, b)
    ensures c.Valid() && d.Valid() && w.Reaches(c, d) && w.Here(d, b + 3) && Asking(d, YIELD) && d.x[5] == ITERATIONS
  {
    hide Comes, CpuAt, Keeps2, DistinctMarks, Prog, ProgramOf;
    var e := SimpleOp(w, b, c);
    AtMeans(w, c, b);
    PastMarkAt(w, e, b + 1);
    d := ToYield(w, b, e);
    Onward(w, c, e, d);
  }

  /** One yield of the countdown. */
  lemma MoveQuiesce(w: Setting, s: Pair, who: Who, b: nat, c: Cpu) returns (e: Cpu, d: Cpu)
    requires w.Ok() && Quiescing(w.ops, b) && Idle(s, who, c) && w.Here(c, b + 3) && c.Valid()
    requires Asking(c, YIELD) && 1 <= c.x[5]
    ensures e.Valid() && d.Valid() && w.Reaches(e, d) && Silent(s, who, e, w.Next(s, who))
    ensures Logged(s, who, e, w.Next(s, who))
    ensures if c.x[5] > 1 then w.Here(d, b + 3) && Asking(d, YIELD) && d.x[5] == c.x[5] - 1 else w.Here(d, b + 7)
  {
    hide CpuAt, Keeps2, DistinctMarks, Comes, PairStep, Silent, Logged, Prog, ProgramOf, ConditionHolds, SubtractFlags;
    e := QuietCall(w, s, who, b + 3, c);
    assert e.x[5] == c.x[5] by {
      assert e.x[1..][4] == c.x[1..][4];
    }
    var f := SimpleOp(w, b + 4, e);
    AtMeans(w, f, b + 5);
    var g := TestBranch(w, b + 5, b + 1, f, 5, 0);
    Tests(f.x[5], 0, TWO64);
    Onward(w, e, f, g);
    d := g;
    if c.x[5] > 1 {
      d := ToYield(w, b, g);
      Onward(w, e, g, d);
    }
  }

  // ----- progress against the baseline -----

  predicate Comparing(ops: seq<Op>, b: nat, mark: string, on: cond) {
    && b + 6 <= |ops| && Loading(ops, b, Progress(), 0) && Loading(ops, b + 2, Baseline(), 2)
    && ops[b + 4] == Code([CmpReg32(0, 2)]) && ops[b + 5] == JumpIf(mark, on)
  }

  lemma MoveCompareLoad(w: Setting, s: Pair, who: Who, b: nat, mark: string, on: cond, value: word, c: Cpu)
    returns (e: Cpu, d: Cpu)
    requires w.Ok() && Comparing(w.ops, b, mark, on) && Idle(s, who, c) && w.Here(c, b + 1) && c.Valid()
    requires Word(w, s.mem, Progress(), value) && c.x[1] == w.a[Progress()]
    ensures e.Valid() && d.Valid() && w.Reaches(e, d) && w.Next(s, who) == With(s, who, e)
    ensures w.Here(d, b + 3) && d.x[0] == value && Baseline() in w.a && d.x[1] == w.a[Baseline()]
  {
    hide CpuAt, Keeps2, DistinctMarks, Comes, PairStep, Load32, Prog, ProgramOf, Progress, Baseline;
    e := LoadStep(w, s, who, b + 1, c, 0, 1);
    d := ToLoad(w, b + 2, Baseline(), 2, e);
  }

  /** The second load and the verdict: to the mark, or on. */
  lemma MoveCompare(w: Setting, s: Pair, who: Who, b: nat, m: nat, mark: string, on: cond, value: word, c: Cpu)
    returns (e: Cpu, d: Cpu)
    requires w.Ok() && Comparing(w.ops, b, mark, on) && (on == EQ || on == NE) && m < |w.ops| && w.ops[m] == Mark(mark)
    requires Idle(s, who, c) && w.Here(c, b + 3) && c.Valid() && c.x[0] < 0x1_0000_0000
    requires Word(w, s.mem, Baseline(), value) && c.x[1] == w.a[Baseline()]
    ensures e.Valid() && d.Valid() && w.Reaches(e, d) && w.Next(s, who) == With(s, who, e)
    ensures w.Here(d, if (c.x[0] == value) == (on == EQ) then m + 1 else b + 6)
  {
    hide CpuAt, Keeps2, DistinctMarks, Comes, PairStep, Load32, Prog, ProgramOf, Progress, Baseline;
    e := LoadStep(w, s, who, b + 3, c, 2, 1);
    d := ComparedTo(w, b + 4, m, e, on);
  }

  // ----- power off -----

  predicate PoweringOff(ops: seq<Op>, b: nat) {
    && b + 7 <= |ops| && ops[b] == Code(MovImm(0, MAGIC1)) && ops[b + 1] == Code(MovImm(1, MAGIC2))
    && ops[b + 2] == Code(MovImm(2, POWER_OFF)) && ops[b + 3] == Mov(3, 0) && ops[b + 4] == Mov(8, REBOOT)
    && ops[b + 5] == SVC && ops[b + 6] == Code([B(0)])
  }

  /** At the reboot call, or past it. */
  predicate PowerGiven(w: Setting, b: nat, c: Cpu)
    requires Names(w.ops, w.a)
  {
    && Ending(w, b + 5, REBOOT, c)
    && (w.Here(c, b + 6) || (c.x[0] == MAGIC1 && c.x[1] == MAGIC2 && c.x[2] == POWER_OFF && c.x[3] == 0))
  }

  lemma ToPowerOff(w: Setting, b: nat, c: Cpu) returns (d: Cpu)
    requires w.Ok() && PoweringOff(w.ops, b) && w.Here(c, b)
    ensures c.Valid() && d.Valid() && w.Reaches(c, d) && w.Here(d, b + 5) && PowerGiven(w, b, d)
  {
    hide Comes, CpuAt, Keeps2, DistinctMarks, MovImm, Prog, ProgramOf;
    var e := Constant(w, b, c, 0, MAGIC1);
    var f := Constant(w, b + 1, e, 1, MAGIC2);
    var g := Constant(w, b + 2, f, 2, POWER_OFF);
    d := Two(w, b + 3, g);
    Onward(w, c, e, f);
    Onward(w, c, f, g);
    Onward(w, c, g, d);
  }

  // ----- the child's dispatch -----

  predicate Dispatching(ops: seq<Op>, b: nat) {
    && b + 12 <= |ops| && ops[b] == Mark(DispatchMark()) && Loading(ops, b + 1, Start(), 0)
    && ops[b + 3] == Code([CmpImm(0, 1)]) && ops[b + 4] == JumpIf(Count(), EQ)
    && ops[b + 5] == Code([CmpImm(0, 2)]) && ops[b + 6] == JumpIf(Quiesce(), EQ)
    && ops[b + 7] == Code([CmpImm(0, 3)]) && ops[b + 8] == JumpIf(Reenter(), EQ)
    && Yielding(ops, b + 9)
  }

  /** Yield and go back to the dispatch. */
  predicate Yielding(ops: seq<Op>, b: nat) {
    b + 3 <= |ops| && ops[b] == Mov(8, YIELD) && ops[b + 1] == SVC && ops[b + 2] == Jump(DispatchMark())
  }

  lemma ToYielding(w: Setting, b: nat, c: Cpu) returns (d: Cpu)
    requires w.Ok() && Yielding(w.ops, b) && w.Here(c, b)
    ensures c.Valid() && d.Valid() && w.Reaches(c, d) && w.Here(d, b + 1) && Asking(d, YIELD)
  {
    hide Comes, CpuAt, Keeps2, DistinctMarks, Prog, ProgramOf, DispatchMark;
    d := SimpleOp(w, b, c);
    AtMeans(w, c, b);
    AtMeans(w, d, b + 1);
  }

  lemma ToDispatch(w: Setting, b: nat, c: Cpu) returns (d: Cpu)
    requires w.Ok() && Dispatching(w.ops, b) && (w.Here(c, b) || w.Here(c, b + 1))
    ensures c.Valid() && d.Valid() && w.Reaches(c, d) && w.Here(d, b + 2) && Start() in w.a && d.x[1] == w.a[Start()]
  {
    hide Comes, CpuAt, Keeps2, DistinctMarks, Prog, ProgramOf, Start, DispatchMark, Count, Quiesce, Reenter;
    PastMarkAt(w, c, b);
    d := ToLoad(w, b + 1, Start(), 0, c);
  }

  /** The yield returns to the dispatch. */
  lemma MoveYielding(w: Setting, s: Pair, who: Who, b: nat, k: nat, c: Cpu) returns (e: Cpu, d: Cpu)
    requires w.Ok() && Dispatching(w.ops, b) && Yielding(w.ops, k) && Idle(s, who, c) && w.Here(c, k + 1) && c.Valid()
    requires Asking(c, YIELD)
    ensures e.Valid() && d.Valid() && w.Reaches(e, d) && Silent(s, who, e, w.Next(s, who))
    ensures Logged(s, who, e, w.Next(s, who))
    ensures w.Here(d, b + 2) && Start() in w.a && d.x[1] == w.a[Start()]
  {
    hide CpuAt, Keeps2, DistinctMarks, Comes, PairStep, Silent, Logged, Prog, ProgramOf, Start, DispatchMark, Count,
         Quiesce,
         Reenter;
    e := QuietCall(w, s, who, k + 1, c);
    var f := Branch(w, k + 2, b, e);
    d := ToDispatch(w, b, f);
    Onward(w, e, f, d);
  }

  /** Where the dispatch goes on. */
  function Chosen(value: int, b: nat, p: nat, q: nat, r: nat): nat {
    if value == 1 then p + 1 else if value == 2 then q + 1 else if value == 3 then r + 1 else b + 9
  }

  /** The three comparisons after the load. */
  lemma Dispatched(w: Setting, b: nat, p: nat, q: nat, r: nat, c: Cpu) returns (d: Cpu)
    requires w.Ok() && Dispatching(w.ops, b) && w.Here(c, b + 3) && c.Valid()
    requires p < |w.ops| && q < |w.ops| && r < |w.ops|
    requires w.ops[p] == Mark(Count()) && w.ops[q] == Mark(Quiesce()) && w.ops[r] == Mark(Reenter())
    ensures d.Valid() && w.Reaches(c, d)
    ensures w.Here(d, Chosen(c.x[0], b, p, q, r))
  {
    hide CpuAt, Keeps2, DistinctMarks, Comes, Prog, ProgramOf, Start, DispatchMark, Count, Quiesce, Reenter;
    d := Judged(w, b + 3, p, c, 1, EQ);
    if c.x[0] != 1 {
      var f := d;
      d := Judged(w, b + 5, q, f, 2, EQ);
      Onward(w, c, f, d);
      if c.x[0] != 2 {
        var g := d;
        d := Judged(w, b + 7, r, g, 3, EQ);
        Onward(w, c, g, d);
      }
    }
  }

  lemma MoveDispatch(w: Setting, s: Pair, who: Who, b: nat, p: nat, q: nat, r: nat, value: word, c: Cpu)
    returns (e: Cpu, d: Cpu)
    requires w.Ok() && Dispatching(w.ops, b) && Idle(s, who, c) && w.Here(c, b + 2) && c.Valid()
    requires p < |w.ops| && q < |w.ops| && r < |w.ops|
    requires w.ops[p] == Mark(Count()) && w.ops[q] == Mark(Quiesce()) && w.ops[r] == Mark(Reenter())
    requires Word(w, s.mem, Start(), value) && c.x[1] == w.a[Start()]
    ensures e.Valid() && d.Valid() && w.Reaches(e, d) && w.Next(s, who) == With(s, who, e)
    ensures w.Here(d, Chosen(value, b, p, q, r))
  {
    hide CpuAt, Keeps2, DistinctMarks, Comes, PairStep, Load32, Prog, ProgramOf, Start, DispatchMark, Count, Quiesce,
         Reenter;
    e := LoadStep(w, s, who, b + 2, c, 0, 1);
    d := Dispatched(w, b, p, q, r, e);
  }

  // ----- counting -----

  predicate CountingUp(ops: seq<Op>, b: nat) {
    && b + 8 <= |ops| && ops[b] == Mark(Count()) && Loading(ops, b + 1, Progress(), 0)
    && ops[b + 3] == Code([AddImm32(0, 0, 1)]) && ops[b + 4] == Code([Stlr32(0, 1)]) && Yielding(ops, b + 5)
  }

  lemma ToCount(w: Setting, b: nat, c: Cpu) returns (d: Cpu)
    requires w.Ok() && CountingUp(w.ops, b) && (w.Here(c, b) || w.Here(c, b + 1))
    ensures c.Valid() && d.Valid() && w.Reaches(c, d) && w.Here(d, b + 2)
    ensures Progress() in w.a && d.x[1] == w.a[Progress()]
  {
    hide Comes, CpuAt, Keeps2, DistinctMarks, Prog, ProgramOf, Progress, Count, DispatchMark;
    PastMarkAt(w, c, b);
    d := ToLoad(w, b + 1, Progress(), 0, c);
  }

  lemma MoveCountLoad(w: Setting, s: Pair, who: Who, b: nat, value: word, c: Cpu) returns (e: Cpu, d: Cpu)
    requires w.Ok() && CountingUp(w.ops, b) && Idle(s, who, c) && w.Here(c, b + 2) && c.Valid()
    requires Word(w, s.mem, Progress(), value) && c.x[1] == w.a[Progress()]
    ensures e.Valid() && d.Valid() && w.Reaches(e, d) && w.Next(s, who) == With(s, who, e)
    ensures w.Here(d, b + 4) && d.x[0] == (value + 1) % 0x1_0000_0000 && d.x[1] == w.a[Progress()]
  {
    hide CpuAt, Keeps2, DistinctMarks, Comes, PairStep, Load32, Prog, ProgramOf, Progress, Count, DispatchMark;
    e := LoadStep(w, s, who, b + 2, c, 0, 1);
    d := SimpleOp(w, b + 3, e);
    AtMeans(w, d, b + 4);
  }

  lemma MoveCountStore(w: Setting, s: Pair, who: Who, b: nat, value: word, before: word, c: Cpu)
    returns (e: Cpu, d: Cpu)
    requires w.Ok() && CountingUp(w.ops, b) && Idle(s, who, c) && w.Here(c, b + 4) && c.Valid()
    requires Word(w, s.mem, Progress(), before) && c.x[1] == w.a[Progress()] && c.x[0] == value
    ensures e.Valid() && d.Valid() && w.Reaches(e, d) && w.Here(d, b + 6) && Asking(d, YIELD)
    ensures var t := With(s, who, e); t.Pair? && w.Next(s, who) == t.(mem := Store32(s.mem, w.a[Progress()], value))
  {
    hide CpuAt, Keeps2, DistinctMarks, Comes, PairStep, Load32, Store32, Prog, ProgramOf, Progress, Count, DispatchMark;
    e := StoreStep(w, s, who, b + 4, c, 0, 1);
    d := ToYielding(w, b + 5, e);
  }
}
