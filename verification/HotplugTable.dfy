/** The hotplug program's table of builder calls, and the pieces it is made of. */
module HotplugTable {
  import opened Bytes
  import opened A64
  import opened Machine
  import opened Assembler
  import opened Syscalls
  import opened Layout
  import opened Blocks
  import opened Templates
  import opened SmpData
  import opened Duo
  import opened DuoOps
  import opened DuoCode
  import opened HotplugPieces

  /** `emit_cpu1_online_write`. */
  function OnlineOp(value: string, i: nat): Op
    requires i < 20
  {
    match i
    case 0 => Code(MovImm(0, AT_FDCWD))
    case 1 => Load(1, "cpu1_online")
    case 2 => Mov(2, 1)
    case 3 => Mov(3, 0)
    case 4 => Mov(8, SYSCALL_OPENAT)
    case 5 => SVC
    case 6 => Code([CmpImm(0, 0)])
    case 7 => JumpIf("failure", MI)
    case 8 => Code([MovReg(6, 0)])
    case 9 => Load(1, value)
    case 10 => Mov(2, 1)
    case 11 => Mov(8, SYSCALL_WRITE)
    case 12 => SVC
    case 13 => Code([CmpImm(0, 1)])
    case 14 => JumpIf("failure", NE)
    case 15 => Code([MovReg(0, 6)])
    case 16 => Mov(8, CLOSE)
    case 17 => SVC
    case 18 => Code([CmpImm(0, 0)])
    case _ => JumpIf("failure", NE)
  }

  /** Mounting sysfs, then the clone. */
  function MountOp(k: nat): Op
    requires 18 <= k < 37
  {
    match k
    case 18 => Load(0, "sysfs")
    case 19 => Load(1, "sys")
    case 20 => Load(2, "sysfs")
    case 21 => Mov(3, 0)
    case 22 => Mov(4, 0)
    case 23 => Mov(8, MOUNT)
    case 24 => SVC
    case 25 => Code([CmpImm(0, 0)])
    case 26 => JumpIf("failure", NE)
    case 27 => Code(MovImm(0, CLONE_FLAGS))
    case 28 => LoadAddress(1, "child_stack", STACK_SIZE)
    case 29 => Mov(2, 0)
    case 30 => Mov(3, 0)
    case 31 => Mov(4, 0)
    case 32 => Mov(8, SYSCALL_CLONE)
    case 33 => SVC
    case 34 => Code([CmpImm(0, 0)])
    case 35 => JumpIf("failure", MI)
    case _ => JumpIf("child", EQ)
  }

  /** Waiting for the child and for progress, and READY. */
  function BeginOp(k: nat): Op
    requires 37 <= k < 55
  {
    match k
    case 37 => Mark(WaitReady())
    case 38 => Load(1, Cpu1Ready())
    case 39 => Code([Ldar32(0, 1)])
    case 40 => Code([CmpImm(0, 1)])
    case 41 => JumpIf(WaitReady(), NE)
    case 42 => Mov(0, 1)
    case 43 => Load(1, Start())
    case 44 => Code([Stlr32(0, 1)])
    case 45 => Mark(WaitProgress())
    case 46 => Load(1, Progress())
    case 47 => Code([Ldar32(0, 1)])
    case 48 => Code([CmpImm(0, 0)])
    case 49 => JumpIf(WaitProgress(), EQ)
    case 50 => Mov(0, 1)
    case 51 => Load(1, ReadyMarker())
    case 52 => Mov(2, READY_SIZE)
    case 53 => Mov(8, SYSCALL_WRITE)
    case _ => SVC
  }

  /** Asking the child to be quiet, the baseline, and OFF. */
  function AskOp(k: nat): Op
    requires 75 <= k < 92
  {
    match k
    case 75 => Mov(0, 2)
    case 76 => Load(1, Start())
    case 77 => Code([Stlr32(0, 1)])
    case 78 => Mark(WaitQuiesced())
    case 79 => Load(1, Quiesced())
    case 80 => Code([Ldar32(0, 1)])
    case 81 => Code([CmpImm(0, 1)])
    case 82 => JumpIf(WaitQuiesced(), NE)
    case 83 => Load(1, Progress())
    case 84 => Code([Ldar32(0, 1)])
    case 85 => Load(1, Baseline())
    case 86 => Code([Stlr32(0, 1)])
    case 87 => Mov(0, 1)
    case 88 => Load(1, OffMarker())
    case 89 => Mov(2, OFF_SIZE)
    case 90 => Mov(8, SYSCALL_WRITE)
    case _ => SVC
  }

  /** The quiescence and the comparison after it. */
  function FreezeOp(k: nat): Op
    requires 92 <= k < 105
  {
    match k
    case 92 => Mov(5, ITERATIONS)
    case 93 => Mark(Work())
    case 94 => Mov(8, YIELD)
    case 95 => SVC
    case 96 => Code([SubImm64(5, 5, 1)])
    case 97 => Code([CmpImm(5, 0)])
    case 98 => JumpIf(Work(), NE)
    case 99 => Load(1, Progress())
    case 100 => Code([Ldar32(0, 1)])
    case 101 => Load(1, Baseline())
    case 102 => Code([Ldar32(2, 1)])
    case 103 => Code([CmpReg32(0, 2)])
    case _ => JumpIf("failure", NE)
  }

  /** Readmitting the child and waiting for its re-entry. */
  function ReadmitOp(k: nat): Op
    requires 125 <= k < 135
  {
    match k
    case 125 => Mov(0, 3)
    case 126 => Load(1, Start())
    case 127 => Code([Stlr32(0, 1)])
    case 128 => Mark(WaitReentry())
    case 129 => Load(1, Progress())
    case 130 => Code([Ldar32(0, 1)])
    case 131 => Load(1, Baseline())
    case 132 => Code([Ldar32(2, 1)])
    case 133 => Code([CmpReg32(0, 2)])
    case _ => JumpIf(WaitReentry(), EQ)
  }

  /** DONE and power off. */
  function FinishOp(k: nat): Op
    requires 135 <= k < 147
  {
    match k
    case 135 => Mov(0, 1)
    case 136 => Load(1, DoneMarker())
    case 137 => Mov(2, DONE_SIZE)
    case 138 => Mov(8, SYSCALL_WRITE)
    case 139 => SVC
    case 140 => Code(MovImm(0, MAGIC1))
    case 141 => Code(MovImm(1, MAGIC2))
    case 142 => Code(MovImm(2, POWER_OFF))
    case 143 => Mov(3, 0)
    case 144 => Mov(8, REBOOT)
    case 145 => SVC
    case _ => Code([B(0)])
  }

  /** The child reports, then dispatches. */
  function DispatchOp(k: nat): Op
    requires 166 <= k < 181
  {
    match k
    case 166 => Mov(0, 1)
    case 167 => Load(1, Cpu1Ready())
    case 168 => Code([Stlr32(0, 1)])
    case 169 => Mark(DispatchMark())
    case 170 => Load(1, Start())
    case 171 => Code([Ldar32(0, 1)])
    case 172 => Code([CmpImm(0, 1)])
    case 173 => JumpIf(Count(), EQ)
    case 174 => Code([CmpImm(0, 2)])
    case 175 => JumpIf(Quiesce(), EQ)
    case 176 => Code([CmpImm(0, 3)])
    case 177 => JumpIf(Reenter(), EQ)
    case 178 => Mov(8, YIELD)
    case 179 => SVC
    case _ => Jump(DispatchMark())
  }

  /** Counting, being quiet, and the mark of re-entry. */
  function CountOp(k: nat): Op
    requires 181 <= k < 197
  {
    match k
    case 181 => Mark(Count())
    case 182 => Load(1, Progress())
    case 183 => Code([Ldar32(0, 1)])
    case 184 => Code([AddImm32(0, 0, 1)])
    case 185 => Code([Stlr32(0, 1)])
    case 186 => Mov(8, YIELD)
    case 187 => SVC
    case 188 => Jump(DispatchMark())
    case 189 => Mark(Quiesce())
    case 190 => Mov(0, 1)
    case 191 => Load(1, Quiesced())
    case 192 => Code([Stlr32(0, 1)])
    case 193 => Mov(8, YIELD)
    case 194 => SVC
    case 195 => Jump(DispatchMark())
    case _ => Mark(Reenter())
  }

  /** Rejoining the count, and failure. */
  function RejoinOp(k: nat): Op
    requires 215 <= k < 224
  {
    match k
    case 215 => Mov(0, 4)
    case 216 => Load(1, Start())
    case 217 => Code([Stlr32(0, 1)])
    case 218 => Jump(Count())
    case 219 => Mark("failure")
    case 220 => Mov(0, 1)
    case 221 => Mov(8, EXIT)
    case 222 => SVC
    case _ => Code([B(0)])
  }

  /** `build_smp_hotplug_init_code`. */
  function OpAt(k: nat): Op
    requires k < 224
  {
    if k < 18 then PinOp(Cpu0Mask(), Cpu0Observed(), 0, k)
    else if k < 37 then MountOp(k)
    else if k < 55 then BeginOp(k)
    else if k < 75 then OnlineOp(OfflineValue(), k - 55)
    else if k < 92 then AskOp(k)
    else if k < 105 then FreezeOp(k)
    else if k < 125 then OnlineOp(OnlineValue(), k - 105)
    else if k < 135 then ReadmitOp(k)
    else if k < 147 then FinishOp(k)
    else if k < 148 then Mark("child")
    else if k < 166 then PinOp(Cpu1Mask(), Cpu1Observed(), 1, k - 148)
    else if k < 181 then DispatchOp(k)
    else if k < 197 then CountOp(k)
    else if k < 215 then PinOp(Cpu1Mask(), Cpu1Observed(), 1, k - 197)
    else RejoinOp(k)
  }

  function Ops(): (ops: seq<Op>)
    ensures |ops| == 224 && forall k | 0 <= k < 224 :: ops[k] == OpAt(k)
  {
    seq(224, k requires 0 <= k < 224 => OpAt(k))
  }

  // ----- the pieces -----

  lemma PinAt(b: nat, mask: string, observed: string, cpu: imm12)
    requires b + 18 <= 224 && forall i | 0 <= i < 18 :: OpAt(b + i) == PinOp(mask, observed, cpu, i)
    ensures Pinning(Ops(), b, mask, observed, cpu)
  {
    hide Ops, OpAt, PinOp, Pinning;
    PinTable(Ops(), b, mask, observed, cpu);
  }

  lemma ParentPin()
    ensures Pinning(Ops(), 0, Cpu0Mask(), Cpu0Observed(), 0)
  {
    hide Ops, PinOp, Pinning;
    PinAt(0, Cpu0Mask(), Cpu0Observed(), 0);
  }

  lemma ChildPin()
    ensures Pinning(Ops(), 148, Cpu1Mask(), Cpu1Observed(), 1)
  {
    hide Ops, PinOp, Pinning;
    PinAt(148, Cpu1Mask(), Cpu1Observed(), 1);
  }

  lemma ChildPinAgain()
    ensures Pinning(Ops(), 197, Cpu1Mask(), Cpu1Observed(), 1)
  {
    hide Ops, PinOp, Pinning;
    PinAt(197, Cpu1Mask(), Cpu1Observed(), 1);
  }

  lemma OnlineTable(ops: seq<Op>, b: nat, value: string)
    requires b + 20 <= |ops| && forall i | 0 <= i < 20 :: ops[b + i] == OnlineOp(value, i)
    ensures OnlineWriting(ops, b, value)
  {
    hide MovImm;
    assert ops[b + 0] == OnlineOp(value, 0) && ops[b + 1] == OnlineOp(value, 1);
    assert ops[b + 2] == OnlineOp(value, 2) && ops[b + 3] == OnlineOp(value, 3);
    assert ops[b + 4] == OnlineOp(value, 4) && ops[b + 5] == OnlineOp(value, 5);
    assert ops[b + 6] == OnlineOp(value, 6) && ops[b + 7] == OnlineOp(value, 7);
    assert ops[b + 8] == OnlineOp(value, 8) && ops[b + 9] == OnlineOp(value, 9);
    assert ops[b + 10] == OnlineOp(value, 10) && ops[b + 11] == OnlineOp(value, 11);
    assert ops[b + 12] == OnlineOp(value, 12) && ops[b + 13] == OnlineOp(value, 13);
    assert ops[b + 14] == OnlineOp(value, 14) && ops[b + 15] == OnlineOp(value, 15);
    assert ops[b + 16] == OnlineOp(value, 16) && ops[b + 17] == OnlineOp(value, 17);
    assert ops[b + 18] == OnlineOp(value, 18) && ops[b + 19] == OnlineOp(value, 19);
  }

  lemma Onlines()
    ensures OnlineWriting(Ops(), 55, OfflineValue()) && OnlineWriting(Ops(), 105, OnlineValue())
  {
    hide Ops, MovImm, MountOp, BeginOp, AskOp, FreezeOp, ReadmitOp, FinishOp, DispatchOp, CountOp, RejoinOp,
         OnlineOp, PinOp, OnlineWriting;
    OnlineTable(Ops(), 55, OfflineValue());
    OnlineTable(Ops(), 105, OnlineValue());
  }

  lemma HasMount()
    ensures Mounting(Ops(), 18)
  {
    hide Ops, MovImm, BeginOp, AskOp, FreezeOp, ReadmitOp, FinishOp, DispatchOp, CountOp, RejoinOp, OnlineOp, PinOp;
  }

  lemma HasClone()
    ensures Cloning(Ops(), 27)
  {
    hide Ops, MovImm, BeginOp, AskOp, FreezeOp, ReadmitOp, FinishOp, DispatchOp, CountOp, RejoinOp, OnlineOp, PinOp;
  }

  lemma WaitsReady()
    ensures Waiting(Ops(), 37, WaitReady(), Cpu1Ready(), 1, NE) && Storing(Ops(), 42, 1, Start())
  {
    hide Ops, MovImm, MountOp, AskOp, FreezeOp, ReadmitOp, FinishOp, DispatchOp, CountOp, RejoinOp, OnlineOp, PinOp;
  }

  lemma WaitsProgress()
    ensures Waiting(Ops(), 45, WaitProgress(), Progress(), 0, EQ)
  {
    hide Ops, MovImm, MountOp, AskOp, FreezeOp, ReadmitOp, FinishOp, DispatchOp, CountOp, RejoinOp, OnlineOp, PinOp;
  }

  lemma SaysReady()
    ensures Printing(Ops(), 50, ReadyMarker(), READY_SIZE)
  {
    hide Ops, MovImm, MountOp, AskOp, FreezeOp, ReadmitOp, FinishOp, DispatchOp, CountOp, RejoinOp, OnlineOp, PinOp;
  }

  lemma AsksQuiet()
    ensures Storing(Ops(), 75, 2, Start()) && Waiting(Ops(), 78, WaitQuiesced(), Quiesced(), 1, NE)
  {
    hide Ops, MovImm, MountOp, BeginOp, FreezeOp, ReadmitOp, FinishOp, DispatchOp, CountOp, RejoinOp, OnlineOp,
         PinOp;
  }

  lemma Copies()
    ensures Copying(Ops(), 83, Progress(), Baseline())
  {
    hide Ops, MovImm, MountOp, BeginOp, FreezeOp, ReadmitOp, FinishOp, DispatchOp, CountOp, RejoinOp, OnlineOp,
         PinOp;
  }

  lemma SaysOff()
    ensures Printing(Ops(), 87, OffMarker(), OFF_SIZE)
  {
    hide Ops, MovImm, MountOp, BeginOp, FreezeOp, ReadmitOp, FinishOp, DispatchOp, CountOp, RejoinOp, OnlineOp,
         PinOp;
  }

  lemma Quiets()
    ensures Quiescing(Ops(), 92)
  {
    hide Ops, MovImm, MountOp, BeginOp, AskOp, ReadmitOp, FinishOp, DispatchOp, CountOp, RejoinOp, OnlineOp, PinOp;
  }

  lemma Compares()
    ensures Comparing(Ops(), 99, "failure", NE)
  {
    hide Ops, MovImm, MountOp, BeginOp, AskOp, ReadmitOp, FinishOp, DispatchOp, CountOp, RejoinOp, OnlineOp, PinOp;
  }

  lemma Readmits()
    ensures Storing(Ops(), 125, 3, Start()) && Ops()[128] == Mark(WaitReentry())
  {
    hide Ops, MovImm, MountOp, BeginOp, AskOp, FreezeOp, FinishOp, DispatchOp, CountOp, RejoinOp, OnlineOp, PinOp;
  }

  lemma ComparesAgain()
    ensures Comparing(Ops(), 129, WaitReentry(), EQ)
  {
    hide Ops, MovImm, MountOp, BeginOp, AskOp, FreezeOp, FinishOp, DispatchOp, CountOp, RejoinOp, OnlineOp, PinOp;
  }

  lemma SaysDone()
    ensures Printing(Ops(), 135, DoneMarker(), DONE_SIZE)
  {
    hide Ops, MovImm, MountOp, BeginOp, AskOp, FreezeOp, ReadmitOp, DispatchOp, CountOp, RejoinOp, OnlineOp, PinOp;
  }

  lemma Finishes()
    ensures PoweringOff(Ops(), 140)
  {
    hide Ops, MovImm, MountOp, BeginOp, AskOp, FreezeOp, ReadmitOp, DispatchOp, CountOp, RejoinOp, OnlineOp, PinOp;
  }

  lemma Reports()
    ensures Ops()[147] == Mark("child") && Storing(Ops(), 166, 1, Cpu1Ready())
  {
    hide Ops, MovImm, MountOp, BeginOp, AskOp, FreezeOp, ReadmitOp, FinishOp, CountOp, RejoinOp, OnlineOp, PinOp;
  }

  lemma Dispatches()
    ensures Dispatching(Ops(), 169)
  {
    hide Ops, MovImm, MountOp, BeginOp, AskOp, FreezeOp, ReadmitOp, FinishOp, CountOp, RejoinOp, OnlineOp, PinOp;
  }

  lemma Counts()
    ensures CountingUp(Ops(), 181)
  {
    hide Ops, MovImm, MountOp, BeginOp, AskOp, FreezeOp, ReadmitOp, FinishOp, DispatchOp, RejoinOp, OnlineOp, PinOp;
  }

  lemma BeingQuiet()
    ensures Storing(Ops(), 190, 1, Quiesced()) && Yielding(Ops(), 193)
  {
    hide Ops, MovImm, MountOp, BeginOp, AskOp, FreezeOp, ReadmitOp, FinishOp, DispatchOp, RejoinOp, OnlineOp, PinOp;
  }

  lemma ChildMarks()
    ensures Ops()[189] == Mark(Quiesce()) && Ops()[196] == Mark(Reenter())
  {
    hide Ops, MovImm, MountOp, BeginOp, AskOp, FreezeOp, ReadmitOp, FinishOp, DispatchOp, RejoinOp, OnlineOp, PinOp;
  }

  lemma Rejoins()
    ensures Storing(Ops(), 215, 4, Start()) && Ops()[218] == Jump(Count()) && Failing(Ops(), 219)
  {
    hide Ops, MovImm, MountOp, BeginOp, AskOp, FreezeOp, ReadmitOp, FinishOp, DispatchOp, CountOp, OnlineOp, PinOp;
  }
}
