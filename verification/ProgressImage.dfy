/** The progress program as shipped: the bytes `build_smp_progress_init_elf` lays
    out, loaded at their addresses and executed by two CPUs. */
module ProgressImage {
  import opened Bytes
  import opened A64
  import opened Machine
  import opened Assembler
  import opened Syscalls
  import opened Layout
  import opened Blocks
  import opened Templates
  import opened GuestElf
  import opened SmpData
  import opened LoadedImage
  import opened Duo
  import opened DuoOps
  import opened DuoCode
  import opened PairImage
  import opened Calls
  import opened ProgressCalls
  import opened ProgressCode
  import opened ProgressRun
  import P = Progress

  // ----- the program -----

  /** `emit_smp_progress_loop`. */
  function LoopOp(mark: string, token: string, i: nat): Op
    requires i < 13
  {
    match i
    case 0 => Mark(mark)
    case 1 => Mov(0, 1)
    case 2 => Load(1, token)
    case 3 => Mov(2, 1)
    case 4 => Mov(8, SYSCALL_WRITE)
    case 5 => SVC
    case 6 => Load(0, "progress_delay")
    case 7 => Mov(1, 0)
    case 8 => Mov(8, NANOSLEEP)
    case 9 => SVC
    case 10 => Mov(8, YIELD)
    case 11 => SVC
    case _ => Jump(mark)
  }

  /** From the clone to the parent's loop. */
  function ParentOp(i: nat): Op
    requires 18 <= i < 41
  {
    match i
    case 18 => Code(MovImm(0, CLONE_FLAGS))
    case 19 => LoadAddress(1, "child_stack", STACK_SIZE)
    case 20 => Mov(2, 0)
    case 21 => Mov(3, 0)
    case 22 => Mov(4, 0)
    case 23 => Mov(8, SYSCALL_CLONE)
    case 24 => SVC
    case 25 => Code([CmpImm(0, 0)])
    case 26 => JumpIf("failure", MI)
    case 27 => JumpIf("child", EQ)
    case 28 => Mark(ParentWait())
    case 29 => Load(1, Cpu1Ready())
    case 30 => Code([Ldar32(0, 1)])
    case 31 => Code([CmpImm(0, 1)])
    case 32 => JumpIf(ParentWait(), NE)
    case 33 => Mov(0, 1)
    case 34 => Load(1, ReadyMarker())
    case 35 => Mov(2, READY_SIZE)
    case 36 => Mov(8, SYSCALL_WRITE)
    case 37 => SVC
    case 38 => Mov(0, 1)
    case 39 => Load(1, Start())
    case _ => Code([Stlr32(0, 1)])
  }

  /** From the child's store of `cpu1_ready` to its loop. */
  function ChildOp(i: nat): Op
    requires 73 <= i < 81
  {
    match i
    case 73 => Mov(0, 1)
    case 74 => Load(1, Cpu1Ready())
    case 75 => Code([Stlr32(0, 1)])
    case 76 => Mark(ChildWait())
    case 77 => Load(1, Start())
    case 78 => Code([Ldar32(0, 1)])
    case 79 => Code([CmpImm(0, 1)])
    case _ => JumpIf(ChildWait(), NE)
  }

  /** `build_smp_progress_init_code`. */
  function OpAt(k: nat): Op
    requires k < 99
  {
    if k < 18 then PinOp(Cpu0Mask(), Cpu0Observed(), 0, k)
    else if k < 41 then ParentOp(k)
    else if k < 54 then LoopOp(Cpu0Loop(), Cpu0Token(), k - 41)
    else if k < 55 then Mark("child")
    else if k < 73 then PinOp(Cpu1Mask(), Cpu1Observed(), 1, k - 55)
    else if k < 81 then ChildOp(k)
    else if k < 94 then LoopOp(Cpu1Loop(), Cpu1Token(), k - 81)
    else if k == 94 then Mark("failure")
    else if k == 95 then Mov(0, 1)
    else if k == 96 then Mov(8, EXIT)
    else if k == 97 then SVC
    else Code([B(0)])
  }

  function Ops(): (ops: seq<Op>)
    ensures |ops| == 99 && forall k | 0 <= k < 99 :: ops[k] == OpAt(k)
  {
    seq(99, k requires 0 <= k < 99 => OpAt(k))
  }

  // ----- the table is the program -----

  lemma Pins()
    ensures Pinning(Ops(), 0, Cpu0Mask(), Cpu0Observed(), 0) && Pinning(Ops(), 55, Cpu1Mask(), Cpu1Observed(), 1)
  {
    hide PinOp, ParentOp, ChildOp, LoopOp, Pinning, Ops, Cpu0Mask, Cpu1Mask, Cpu0Observed, Cpu1Observed;
    PinTable(Ops(), 0, Cpu0Mask(), Cpu0Observed(), 0);
    PinTable(Ops(), 55, Cpu1Mask(), Cpu1Observed(), 1);
  }

  lemma Clones()
    ensures Cloning(Ops(), 18)
  {
    hide MovImm, PinOp, LoopOp, ChildOp, Ops;
  }

  lemma Waits()
    ensures Waiting(Ops(), 28, ParentWait(), Cpu1Ready(), 1, NE)
  {
    hide MovImm, PinOp, LoopOp, ChildOp, Ops, ParentWait, Cpu1Ready;
  }

  lemma Announces()
    ensures Printing(Ops(), 33, ReadyMarker(), READY_SIZE)
  {
    hide MovImm, PinOp, LoopOp, ChildOp, Ops, ReadyMarker;
  }

  lemma Begins()
    ensures Storing(Ops(), 38, 1, Start())
  {
    hide MovImm, PinOp, LoopOp, ChildOp, Ops, Start;
  }

  lemma ChildPieces()
    ensures Storing(Ops(), 73, 1, Cpu1Ready()) && Waiting(Ops(), 76, ChildWait(), Start(), 1, NE)
    ensures Failing(Ops(), 94) && Ops()[54] == Mark("child")
  {
    hide MovImm, PinOp, LoopOp, ParentOp, Ops;
  }

  lemma LoopTable(ops: seq<Op>, b: nat, mark: string, token: string)
    requires b + 13 <= |ops| && forall i | 0 <= i < 13 :: ops[b + i] == LoopOp(mark, token, i)
    ensures Looping(ops, b, mark, token)
  {
    assert ops[b + 0] == LoopOp(mark, token, 0) && ops[b + 1] == LoopOp(mark, token, 1);
    assert ops[b + 2] == LoopOp(mark, token, 2) && ops[b + 3] == LoopOp(mark, token, 3);
    assert ops[b + 4] == LoopOp(mark, token, 4) && ops[b + 5] == LoopOp(mark, token, 5);
    assert ops[b + 6] == LoopOp(mark, token, 6) && ops[b + 7] == LoopOp(mark, token, 7);
    assert ops[b + 8] == LoopOp(mark, token, 8) && ops[b + 9] == LoopOp(mark, token, 9);
    assert ops[b + 10] == LoopOp(mark, token, 10) && ops[b + 11] == LoopOp(mark, token, 11);
    assert ops[b + 12] == LoopOp(mark, token, 12);
  }

  lemma Loops()
    ensures Looping(Ops(), 41, Cpu0Loop(), Cpu0Token()) && Looping(Ops(), 81, Cpu1Loop(), Cpu1Token())
  {
    hide PinOp, ParentOp, ChildOp, LoopOp, Looping, Ops, Cpu0Loop, Cpu1Loop, Cpu0Token, Cpu1Token;
    LoopTable(Ops(), 41, Cpu0Loop(), Cpu0Token());
    LoopTable(Ops(), 81, Cpu1Loop(), Cpu1Token());
  }

  lemma TableEmitted()
    ensures Emitted(Ops())
  {
    hide Ops, OpAt, Pinning, Cloning, Waiting, Printing, Storing, Looping, Failing;
    Pins();
    Clones();
    Waits();
    Announces();
    Begins();
    ChildPieces();
    Loops();
  }

  // ----- the template links -----

  lemma MarkOnly(k: nat)
    requires k < 99 && OpAt(k).Mark?
    ensures k == 28 || k == 41 || k == 54 || k == 76 || k == 81 || k == 94
  {
    hide MovImm;
  }

  lemma JumpOnly(k: nat)
    requires k < 99 && (OpAt(k).JumpIf? || OpAt(k).Jump?)
    ensures OpAt(k).mark in ["failure", "child", ParentWait(), ChildWait(), Cpu0Loop(), Cpu1Loop()]
  {
    hide MovImm, ParentWait, ChildWait, Cpu0Loop, Cpu1Loop;
  }

  lemma PieceShort(k: nat, mask: string, observed: string, cpu: imm12, mark: string, token: string)
    ensures k < 18 ==> Short(PinOp(mask, observed, cpu, k))
    ensures k < 13 ==> Short(LoopOp(mark, token, k))
  {
  }

  lemma BetweenShort(k: nat)
    ensures 18 <= k < 41 ==> Short(ParentOp(k))
    ensures 73 <= k < 81 ==> Short(ChildOp(k))
  {
    hide MovImm;
  }

  lemma ShortOnly(k: nat)
    requires k < 99
    ensures Short(OpAt(k))
  {
    hide PinOp, LoopOp, ParentOp, ChildOp;
    PieceShort(k, Cpu0Mask(), Cpu0Observed(), 0, "", "");
    BetweenShort(k);
    if 41 <= k < 54 {
      PieceShort(k - 41, "", "", 0, Cpu0Loop(), Cpu0Token());
    } else if 55 <= k < 73 {
      PieceShort(k - 55, Cpu1Mask(), Cpu1Observed(), 1, "", "");
    } else if 81 <= k < 94 {
      PieceShort(k - 81, "", "", 0, Cpu1Loop(), Cpu1Token());
    }
  }

  /** The six marks. */
  lemma SixMarks()
    ensures var ops := Ops();
            && ops[28] == Mark(ParentWait()) && ops[41] == Mark(Cpu0Loop()) && ops[54] == Mark("child")
            && ops[76] == Mark(ChildWait()) && ops[81] == Mark(Cpu1Loop()) && ops[94] == Mark("failure")
  {
    hide Ops, ParentWait, Cpu0Loop, ChildWait, Cpu1Loop, MovImm;
  }

  lemma MarksDiffer()
    ensures var m := [ParentWait(), Cpu0Loop(), "child", ChildWait(), Cpu1Loop(), "failure"];
            forall i, j | 0 <= i < j < 6 :: m[i] != m[j]
  {
    assert |ParentWait()| == 17 && |Cpu0Loop()| == 13 && |"child"| == 5 && |ChildWait()| == 16 && |Cpu1Loop()| == 13;
    assert |"failure"| == 7 && Cpu0Loop()[3] == '0' && Cpu1Loop()[3] == '1';
  }

  lemma Marks()
    ensures DistinctMarks(Ops()) && Targeted(Ops())
  {
    hide Ops, OpAt, ParentWait, Cpu0Loop, ChildWait, Cpu1Loop;
    var ops := Ops();
    SixMarks();
    MarksDiffer();
    var m := [ParentWait(), Cpu0Loop(), "child", ChildWait(), Cpu1Loop(), "failure"];
    forall i, j | 0 <= i < j < |ops| && ops[i].Mark? && ops[j].Mark? ensures ops[i].mark != ops[j].mark {
      MarkOnly(i);
      MarkOnly(j);
      assert ops[i].mark == m[Nth(i)] && ops[j].mark == m[Nth(j)];
    }
    forall k | 0 <= k < |ops| && (ops[k].JumpIf? || ops[k].Jump?)
      ensures exists m | 0 <= m < |ops| :: ops[m] == Mark(ops[k].mark)
    {
      JumpOnly(k);
    }
  }

  /** Which mark stands at this operation. */
  function Nth(k: nat): nat {
    if k == 28 then 0 else if k == 41 then 1 else if k == 54 then 2 else if k == 76 then 3 else if k == 81 then 4 else 5
  }

  lemma AlwaysLinks(a: map<string, int>)
    requires Names(Ops(), a)
    ensures Linked(Prog(Ops(), a)) && |Prog(Ops(), a).items| <= 396
  {
    hide OpAt, Ops, Prog, Linked, Names, DistinctMarks, Targeted, Short;
    Marks();
    forall k | 0 <= k < 99 ensures Short(Ops()[k]) {
      ShortOnly(k);
    }
    ShortLinks(Ops(), a);
  }

  // ----- the data -----

  const DATA: DataFor := (n: nat) => ProgressData(n)

  // The texts of the data are the bytes of the script.

  lemma Ascii()
    ensures Text("BBSMPREADY\n") == READY
  {
  }

  lemma Masks()
    ensures LittleEndian(1, 8) == MASK0 && LittleEndian(2, 8) == MASK1
  {
  }

  lemma Delays()
    ensures LittleEndian(0, 8) + LittleEndian(1_000_000, 8) == DELAY
  {
    hide LittleEndian;
    NoBytes(5);
    NoBytes(8);
    FirstByte(1_000_000, 8);
    FirstByte(3906, 7);
    FirstByte(15, 6);
    assert LittleEndian(15, 6) == [15] + Zeros(5);
    assert LittleEndian(1_000_000, 8) == [64, 66, 15] + Zeros(5);
  }

  lemma FirstByte(n: nat, width: nat)
    requires width > 0
    ensures LittleEndian(n, width) == [n % 256] + LittleEndian(n / 256, width - 1)
  {
  }

  lemma {:induction false} NoBytes(width: nat)
    ensures LittleEndian(0, width) == Zeros(width)
  {
    if width > 0 {
      NoBytes(width - 1);
    }
  }

  lemma DataTable(n: nat)
    ensures var d := ProgressData(n);
            && |d| == 12
            && d[0] == Datum(Cpu0Mask(), MASK0) && d[1] == Datum(Cpu1Mask(), MASK1)
            && d[2] == Datum(Cpu0Observed(), Zeros(4)) && d[3] == Datum(Cpu1Observed(), Zeros(4))
            && d[4] == Datum(Cpu1Ready(), Zeros(4)) && d[5] == Datum(Start(), Zeros(4))
            && d[6] == Datum("progress_delay", DELAY) && d[7] == Datum(ReadyMarker(), READY)
            && d[8] == Datum(Cpu0Token(), TOKEN0) && d[9] == Datum(Cpu1Token(), TOKEN1)
            && d[10].name == "stack_padding" && |d[10].value| < 16 && d[11] == Datum("child_stack", Zeros(4096))
  {
    hide Text, LittleEndian, Extent;
    Ascii();
    Masks();
    Delays();
    var d, w := ProgressData(n), ProgressWords();
    assert d[..10][0] == w[0] && d[..10][1] == w[1] && d[..10][2] == w[2] && d[..10][3] == w[3] && d[..10][4] == w[4];
    assert d[..10][5] == w[5] && d[..10][6] == w[6] && d[..10][7] == w[7] && d[..10][8] == w[8] && d[..10][9] == w[9];
  }

  lemma NamesDiffer(n: nat)
    ensures DistinctNames(ProgressData(n))
  {
    hide ProgressData;
    DataTable(n);
    var d := ProgressData(n);
    assert |d[0].name| == 18 && |d[1].name| == 18 && d[0].name[3] == '0' && d[1].name[3] == '1';
    assert |d[2].name| == 13 && |d[3].name| == 13 && |d[10].name| == 13;
    assert d[2].name[3] == '0' && d[3].name[3] == '1' && d[10].name[3] == 'c';
    assert |d[4].name| == 10 && |d[8].name| == 10 && |d[9].name| == 10;
    assert d[4].name[5] == 'r' && d[8].name[5] == 't' && d[9].name[5] == 't';
    assert d[8].name[3] == '0' && d[9].name[3] == '1';
    assert |d[5].name| == 5 && |d[6].name| == 14 && |d[7].name| == 12 && |d[11].name| == 11;
  }

  lemma WellNamedData()
    ensures WellNamed(DATA)
  {
    hide ProgressWords, WithStack;
    StackedWellNamed(ProgressWords());
    var other := (n: nat) => WithStack(ProgressWords(), n);
    assert forall n: nat :: DATA(n) == other(n);
  }

  lemma NameOnly(k: nat)
    requires k < 99 && OpAt(k).LoadAddress?
    ensures OpAt(k).name in [Cpu0Mask(), Cpu1Mask(), Cpu0Observed(), Cpu1Observed(), Cpu1Ready(), Start(),
                             "progress_delay", ReadyMarker(), Cpu0Token(), Cpu1Token(), "child_stack"]
  {
    hide Cpu0Mask, Cpu1Mask, Cpu0Observed, Cpu1Observed, Cpu1Ready, Start, ReadyMarker, Cpu0Token, Cpu1Token, MovImm;
  }

  lemma DataCovers()
    ensures Covers(DATA(0), Ops())
  {
    hide ProgressData, Ops, OpAt, Cpu0Mask, Cpu1Mask, Cpu0Observed, Cpu1Observed, Cpu1Ready, Start, ReadyMarker,
         Cpu0Token, Cpu1Token;
    DataTable(0);
    forall k | 0 <= k < 99 && (Ops()[k].LoadAddress? || Ops()[k].Print?) ensures HasName(DATA(0), Ops()[k].name) {
      ShortOnly(k);
      NameOnly(k);
    }
  }

  lemma DataExtent(n: nat)
    ensures |ProgressData(n)| == 12 && Extent(ProgressData(n), 12) < 0x2000
  {
    hide ProgressData, Zeros;
    DataTable(n);
    var d := ProgressData(n);
    assert Extent(d, 0) == 0;
    assert Extent(d, 2) == 16;
    assert Extent(d, 4) == 24;
    assert Extent(d, 6) == 32;
    assert Extent(d, 8) == 59;
    assert Extent(d, 10) == 61;
  }

  // ----- the shipped bytes -----

  /** The size found by the first pass. */
  function CodeSize(): nat {
    DataCovers();
    MeasuredSize(Ops(), DATA)
  }

  lemma SizeIsFixed()
    ensures FixedPoint(Ops(), DATA, CodeSize()) && Linked(FinalProgram(Ops(), DATA, CodeSize()))
    ensures FinalProgram(Ops(), DATA, CodeSize()) == Prog(Ops(), FinalAddresses(DATA, CodeSize()))
    ensures CodeSize() <= 1584 && CodeSize() % 4 == 0
  {
    hide Ops, OpAt, ProgressData, ProgramOf, Linked, Covers, WellNamed, Names;
    DataCovers();
    WellNamedData();
    SizingPassIsFixedPoint(Ops(), DATA, CodeSize());
    AlwaysLinks(FinalAddresses(DATA, CodeSize()));
  }

  function ProgressBytes(): (code: seq<byte>)
    ensures |code| == CodeSize()
  {
    SizeIsFixed();
    Assembled(FinalProgram(Ops(), DATA, CodeSize()))
  }

  function ProgressElf(): seq<byte> {
    Elf(ProgressBytes(), Join(ProgressData(CodeSize())))
  }

  /** `build_smp_progress_init_elf`: it never fails. */
  method BuildProgressElf() returns (image: seq<byte>)
    ensures image == ProgressElf()
  {
    hide Ops, OpAt, ProgressWords, WithStack, ProgramOf, Linked, Assembled, Elf, Join, DistinctMarks, Covers, WellNamed,
         AddressMap;
    DataCovers();
    WellNamedData();
    SizeIsFixed();
    Marks();
    StackCheckPasses(ProgressWords(), CodeSize());
    var r := BuildElf(Ops(), DATA);
    return r.bytes;
  }

  // ----- two CPUs on the shipped bytes -----

  function WorldOf(kernel: Kernel): World {
    World(Setting(Ops(), FinalAddresses(DATA, CodeSize()), kernel))
  }

  /** A datum's address, bytes and place among the others. */
  lemma DatumPlaced(mem: Memory, i: nat)
    requires i < 12 && Loaded(mem, ProgressElf())
    ensures var d := ProgressData(CodeSize());
            var a := FinalAddresses(DATA, CodeSize());
            && |d| == 12 && d[i].name in a && a[d[i].name] == Layout.Address(CodeSize(), d, i)
            && Holds(mem, a[d[i].name], d[i].value)
  {
    hide Ops, OpAt, ProgressData, ProgramOf, Assembled, Elf, Join, Holds, Loaded, DistinctNames, AddressMap, CodeSize,
         Layout.Address;
    NamesDiffer(CodeSize());
    DataExtent(CodeSize());
    DatumLoaded(ProgressBytes(), ProgressData(CodeSize()), mem, i);
  }

  /** The data lie one after the other, the words and the stack aligned. */
  lemma DataInRow(size: nat)
    requires size % 4 == 0
    ensures var d := ProgressData(size);
            && |d| == 12
            && var at := (i: nat) requires i < 12 => Layout.Address(size, d, i);
               && at(2) % 4 == 0 && at(3) % 4 == 0 && at(4) % 4 == 0 && at(5) % 4 == 0 && at(11) % 16 == 0
               && at(0) + 8 <= at(1) && at(1) + 8 <= at(2)
               && at(2) + 4 <= at(3) && at(3) + 4 <= at(4) && at(4) + 4 <= at(5) && at(5) + 4 <= at(6)
               && at(6) <= at(7) <= at(8) <= at(9) <= at(11)
  {
    hide ProgressData, Layout.Address;
    DataTable(size);
    ProgressWordsAligned(size, 2);
    ProgressWordsAligned(size, 3);
    ProgressWordsAligned(size, 4);
    ProgressWordsAligned(size, 5);
    assert ProgressData(size) == WithStack(ProgressWords(), size) by {
      StackedData(size);
    }
    StackAligned(ProgressWords(), size);
    var d := ProgressData(size);
    DataDisjoint(size, d, 0, 1);
    DataDisjoint(size, d, 1, 2);
    DataDisjoint(size, d, 2, 3);
    DataDisjoint(size, d, 3, 4);
    DataDisjoint(size, d, 4, 5);
    DataDisjoint(size, d, 5, 6);
    DataDisjoint(size, d, 6, 7);
    DataDisjoint(size, d, 7, 8);
    DataDisjoint(size, d, 8, 9);
    DataDisjoint(size, d, 9, 11);
  }

  lemma StackedData(size: nat)
    ensures ProgressData(size) == WithStack(ProgressWords(), size)
  {
  }

  lemma SettingOk(kernel: Kernel)
    requires Keeps2(kernel)
    ensures WorldOf(kernel).w.Ok()
  {
    hide Ops, OpAt, ProgressData, Keeps2, DistinctMarks, Names, AddressMap, CodeSize, DistinctNames, Extent, ProgramOf;
    SizeIsFixed();
    Marks();
    var d := ProgressData(CodeSize());
    DataExtent(CodeSize());
    NamesDiffer(CodeSize());
    AddressesFit(CodeSize(), d);
    assert FinalAddresses(DATA, CodeSize()) == AddressMap(CodeSize(), d, |d|);
  }

  /** A name is at its datum's address, with these bytes. */
  predicate Placed(mem: Memory, name: string, i: nat, value: seq<byte>) {
    var d, a := ProgressData(CodeSize()), FinalAddresses(DATA, CodeSize());
    i < |d| && name in a && a[name] == Layout.Address(CodeSize(), d, i) && Holds(mem, a[name], value)
  }

  lemma WordsPlaced(mem: Memory)
    requires Loaded(mem, ProgressElf())
    ensures Placed(mem, Cpu0Observed(), 2, Zeros(4)) && Placed(mem, Cpu1Observed(), 3, Zeros(4))
    ensures Placed(mem, Cpu1Ready(), 4, Zeros(4)) && Placed(mem, Start(), 5, Zeros(4))
  {
    hide Ops, ProgressData, ProgressElf, Holds, Loaded, FinalAddresses, CodeSize, Layout.Address;
    DataTable(CodeSize());
    DatumPlaced(mem, 2);
    DatumPlaced(mem, 3);
    DatumPlaced(mem, 4);
    DatumPlaced(mem, 5);
  }

  lemma TextsPlaced(mem: Memory)
    requires Loaded(mem, ProgressElf())
    ensures Placed(mem, Cpu0Mask(), 0, MASK0) && Placed(mem, Cpu1Mask(), 1, MASK1)
    ensures Placed(mem, "progress_delay", 6, DELAY) && Placed(mem, ReadyMarker(), 7, READY)
    ensures Placed(mem, Cpu0Token(), 8, TOKEN0) && Placed(mem, Cpu1Token(), 9, TOKEN1)
    ensures Placed(mem, "child_stack", 11, Zeros(4096))
  {
    hide Ops, ProgressData, ProgressElf, Holds, Loaded, FinalAddresses, CodeSize, Layout.Address;
    DataTable(CodeSize());
    DatumPlaced(mem, 0);
    DatumPlaced(mem, 1);
    DatumPlaced(mem, 6);
    DatumPlaced(mem, 7);
    DatumPlaced(mem, 8);
    DatumPlaced(mem, 9);
    DatumPlaced(mem, 11);
  }

  predicate Row(v: World)
    requires v.Named()
  {
    var a := v.w.a;
    && a[Cpu0Observed()] % 4 == 0 && a[Cpu1Observed()] % 4 == 0 && a[Cpu1Ready()] % 4 == 0 && a[Start()] % 4 == 0
    && a["child_stack"] % 16 == 0
    && a[Cpu0Mask()] + 8 <= a[Cpu0Observed()] && a[Cpu1Mask()] + 8 <= a[Cpu0Observed()]
    && a[Cpu0Observed()] + 4 <= a[Cpu1Observed()] && a[Cpu1Observed()] + 4 <= a[Cpu1Ready()]
    && a[Cpu1Ready()] + 4 <= a[Start()]
    && var end := a[Start()] + 4;
       && end <= a["progress_delay"] && end <= a[ReadyMarker()] && end <= a[Cpu0Token()] && end <= a[Cpu1Token()]
       && end <= a["child_stack"]
  }

  lemma RowLaid(v: World)
    requires v.Named() && Row(v)
    ensures Laid(v.Places(), v.Texts()) && v.w.a["child_stack"] % 16 == 0
  {
  }

  lemma WorldNamed(kernel: Kernel, mem: Memory)
    requires Loaded(mem, ProgressElf())
    ensures WorldOf(kernel).Named()
  {
    hide Ops, ProgressData, ProgressElf, Holds, Loaded, FinalAddresses, CodeSize, Layout.Address;
    WordsPlaced(mem);
    TextsPlaced(mem);
  }

  lemma WorldRow(kernel: Kernel, mem: Memory)
    requires Loaded(mem, ProgressElf())
    ensures WorldOf(kernel).Named() && Row(WorldOf(kernel))
  {
    hide Ops, ProgressData, ProgressElf, Holds, Loaded, FinalAddresses, CodeSize, Layout.Address;
    SizeIsFixed();
    WorldNamed(kernel, mem);
    WordsPlaced(mem);
    TextsPlaced(mem);
    DataInRow(CodeSize());
  }

  lemma WorldOk(kernel: Kernel, mem: Memory)
    requires Keeps2(kernel) && Loaded(mem, ProgressElf())
    ensures WorldOf(kernel).Ok()
  {
    hide Ops, ProgressElf, Loaded, FinalAddresses, CodeSize, Setting.Ok, Keeps2, Laid, World.Places, World.Texts, Row;
    SettingOk(kernel);
    WorldRow(kernel, mem);
    RowLaid(WorldOf(kernel));
  }

  lemma WorldLoaded(kernel: Kernel, mem: Memory)
    requires Loaded(mem, ProgressElf())
    ensures WorldOf(kernel).Named() && Stores(mem, WorldOf(kernel).Cells(P.Init()), WorldOf(kernel).Texts())
  {
    hide Ops, ProgressData, ProgressElf, Holds, Loaded, FinalAddresses, CodeSize, Layout.Address, Mapped, Load32;
    var v := WorldOf(kernel);
    WorldNamed(kernel, mem);
    WordsPlaced(mem);
    TextsPlaced(mem);
    ZeroWord(mem, v.w.a[Cpu0Observed()]);
    ZeroWord(mem, v.w.a[Cpu1Observed()]);
    ZeroWord(mem, v.w.a[Cpu1Ready()]);
    ZeroWord(mem, v.w.a[Start()]);
  }

  /** Assembled or labelled, the program runs the same. */
  lemma OnBytes(kernel: Kernel, s: Pair, schedule: seq<Who>)
    ensures Names(Ops(), FinalAddresses(DATA, CodeSize()))
    ensures CodeRun(ProgressBytes(), kernel, s, schedule)
            == PairRun(Prog(Ops(), FinalAddresses(DATA, CodeSize())), kernel, s, schedule)
  {
    hide Ops, ProgressData, FinalAddresses, CodeSize, CodeRun, PairRun, Prog, FinalProgram, Assembled, Linked, Names;
    SizeIsFixed();
    AssemblyPreservesPairs(Prog(Ops(), FinalAddresses(DATA, CodeSize())), kernel, s, schedule);
  }

  lemma SizeFits()
    ensures ProgressElf() == Elf(ProgressBytes(), Join(ProgressData(CodeSize())))
    ensures CODE_OFFSET + |ProgressBytes()| + |Join(ProgressData(CodeSize()))| < 0x1_0000_0000_0000_0000
  {
    hide Ops, ProgressData, CodeSize, Elf, ProgressBytes, Join, FinalProgram, Linked;
    SizeIsFixed();
    DataExtent(CodeSize());
    JoinSize(ProgressData(CodeSize()));
  }

  /** Two CPUs execute the shipped bytes as the loader enters them, interleaved
      in any way, under any kernel that keeps the conventions: nothing faults,
      no token is on the terminal before READY, READY is there only once each
      CPU's own reading, still in memory, says it runs where it was pinned, and
      every system call is the next of its CPU's script with the bytes it
      should have. */
  lemma ProgressBarrier(kernel: Kernel, cpu: Cpu, mem: Memory, traps: nat, schedule: seq<Who>)
    requires Keeps2(kernel) && Entered(ProgressElf(), cpu, mem)
    ensures WorldOf(kernel).Ok() && Holds(mem, CODE_ADDRESS, ProgressBytes())
    ensures var t := CodeRun(ProgressBytes(), kernel, Pair(cpu, None, mem, traps, [], []), schedule);
            Barred(WorldOf(kernel), t) && Asks(WorldOf(kernel), t)
  {
    hide Ops, ProgressData, ProgressElf, Loaded, FinalAddresses, CodeSize, World.Ok, World.Cells, World.Texts, Stores,
         Keeps2, Emitted, Barred, Asks, CodeRun, PairRun, Prog, ProgressBytes, Names, Entered, Elf, Join;
    var v := WorldOf(kernel);
    SizeFits();
    EntersCode(ProgressBytes(), Join(ProgressData(CodeSize())), cpu, mem);
    WorldOk(kernel, mem);
    WorldLoaded(kernel, mem);
    v.Means();
    TableEmitted();
    var s := Pair(cpu, None, mem, traps, [], []);
    OnBytes(kernel, s, schedule);
    StartBarrierRuns(v, s, schedule);
    ProgressAsks(v, s, schedule);
  }

  /** Such kernels, CPUs and memories exist. */
  lemma SettingExists() returns (kernel: Kernel, cpu: Cpu, mem: Memory)
    ensures Keeps2(kernel) && Entered(ProgressElf(), cpu, mem)
  {
    hide Entered, ProgressElf, Keeps2, ProgressBytes, Elf, Join, CodeSize, ProgressData;
    kernel := SomeKernel();
    SizeFits();
    cpu, mem := SomeEntry(ProgressBytes(), Join(ProgressData(CodeSize())));
  }
}
