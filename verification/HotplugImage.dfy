/** The hotplug program as shipped: the bytes `build_smp_hotplug_init_elf` lays
    out, loaded at their addresses and executed by two CPUs. */
module HotplugImage {
  import opened Bytes
  import opened A64
  import opened Machine
  import opened Assembler
  import opened Syscalls
  import opened Layout
  import opened Blocks
  import opened Templates
  import opened GuestElf
  import opened SmpData
  import opened LoadedImage
  import opened Duo
  import opened DuoOps
  import opened DuoCode
  import opened PairImage
  import opened HotplugPieces
  import opened Calls
  import opened HotplugCalls
  import opened HotplugCode
  import opened HotplugTable
  import opened HotplugRun
  import H = Hotplug

  // ----- the template links -----

  /** The marks, in program order. */
  function Targets(): (m: seq<string>)
    ensures |m| == 11
  {
    [WaitReady(), WaitProgress(), WaitQuiesced(), Work(), WaitReentry(), "child", DispatchMark(), Count(), Quiesce(),
     Reenter(), "failure"]
  }

  /** The data the code names. */
  function Labels(): seq<string> {
    [Cpu0Mask(), Cpu1Mask(), Cpu0Observed(), Cpu1Observed(), Cpu1Ready(), Quiesced(), Start(), Progress(), Baseline(),
     "sysfs", "sys", "cpu1_online", OfflineValue(), OnlineValue(), ReadyMarker(), OffMarker(), DoneMarker(),
     "child_stack"]
  }

  /** Short, branching to a mark, naming a datum. */
  predicate Fine(op: Op) {
    && Short(op) && (op.JumpIf? || op.Jump? ==> op.mark in Targets()) && (op.LoadAddress? ==> op.name in Labels())
  }

  /** Where the marks stand. */
  predicate MarkPlace(k: nat) {
    k == 37 || k == 45 || k == 78 || k == 93 || k == 128 || k == 147
    || k == 169 || k == 181 || k == 189 || k == 196 || k == 219
  }

  lemma TargetsAre()
    ensures WaitReady() in Targets() && WaitProgress() in Targets() && WaitQuiesced() in Targets()
    ensures Work() in Targets()
    ensures WaitReentry() in Targets() && "child" in Targets() && DispatchMark() in Targets() && Count() in Targets()
    ensures Quiesce() in Targets() && Reenter() in Targets() && "failure" in Targets()
  {
    assert Targets()[0] == WaitReady();
    assert Targets()[1] == WaitProgress();
    assert Targets()[2] == WaitQuiesced();
    assert Targets()[3] == Work();
    assert Targets()[4] == WaitReentry();
    assert Targets()[5] == "child";
    assert Targets()[6] == DispatchMark();
    assert Targets()[7] == Count();
    assert Targets()[8] == Quiesce();
    assert Targets()[9] == Reenter();
    assert Targets()[10] == "failure";
  }

  lemma LabelsAre()
    ensures Cpu0Mask() in Labels() && Cpu1Mask() in Labels() && Cpu0Observed() in Labels() && Cpu1Observed() in Labels()
    ensures Cpu1Ready() in Labels() && Quiesced() in Labels() && Start() in Labels() && Progress() in Labels()
    ensures Baseline() in Labels() && "sysfs" in Labels() && "sys" in Labels() && "cpu1_online" in Labels()
    ensures OfflineValue() in Labels() && OnlineValue() in Labels() && ReadyMarker() in Labels()
    ensures OffMarker() in Labels()
    ensures DoneMarker() in Labels() && "child_stack" in Labels()
  {
    assert Labels()[0] == Cpu0Mask();
    assert Labels()[1] == Cpu1Mask();
    assert Labels()[2] == Cpu0Observed();
    assert Labels()[3] == Cpu1Observed();
    assert Labels()[4] == Cpu1Ready();
    assert Labels()[5] == Quiesced();
    assert Labels()[6] == Start();
    assert Labels()[7] == Progress();
    assert Labels()[8] == Baseline();
    assert Labels()[9] == "sysfs";
    assert Labels()[10] == "sys";
    assert Labels()[11] == "cpu1_online";
    assert Labels()[12] == OfflineValue();
    assert Labels()[13] == OnlineValue();
    assert Labels()[14] == ReadyMarker();
    assert Labels()[15] == OffMarker();
    assert Labels()[16] == DoneMarker();
    assert Labels()[17] == "child_stack";
  }

  lemma MountOpFine(k: nat)
    requires 18 <= k < 37
    ensures Fine(MountOp(k)) && (MountOp(k).Mark? ==> MarkPlace(k))
  {
    hide Targets, Labels, MovImm;
    TargetsAre();
    LabelsAre();
  }

  lemma BeginOpFine(k: nat)
    requires 37 <= k < 55
    ensures Fine(BeginOp(k)) && (BeginOp(k).Mark? ==> MarkPlace(k))
  {
    hide Targets, Labels, MovImm;
    TargetsAre();
    LabelsAre();
  }

  lemma AskOpFine(k: nat)
    requires 75 <= k < 92
    ensures Fine(AskOp(k)) && (AskOp(k).Mark? ==> MarkPlace(k))
  {
    hide Targets, Labels, MovImm;
    TargetsAre();
    LabelsAre();
  }

  lemma FreezeOpFine(k: nat)
    requires 92 <= k < 105
    ensures Fine(FreezeOp(k)) && (FreezeOp(k).Mark? ==> MarkPlace(k))
  {
    hide Targets, Labels, MovImm;
    TargetsAre();
    LabelsAre();
  }

  lemma ReadmitOpFine(k: nat)
    requires 125 <= k < 135
    ensures Fine(ReadmitOp(k)) && (ReadmitOp(k).Mark? ==> MarkPlace(k))
  {
    hide Targets, Labels, MovImm;
    TargetsAre();
    LabelsAre();
  }

  lemma FinishOpFine(k: nat)
    requires 135 <= k < 147
    ensures Fine(FinishOp(k)) && (FinishOp(k).Mark? ==> MarkPlace(k))
  {
    hide Targets, Labels, MovImm;
    TargetsAre();
    LabelsAre();
  }

  lemma DispatchOpFine(k: nat)
    requires 166 <= k < 181
    ensures Fine(DispatchOp(k)) && (DispatchOp(k).Mark? ==> MarkPlace(k))
  {
    hide Targets, Labels, MovImm;
    TargetsAre();
    LabelsAre();
  }

  lemma CountOpFine(k: nat)
    requires 181 <= k < 197
    ensures Fine(CountOp(k)) && (CountOp(k).Mark? ==> MarkPlace(k))
  {
    hide Targets, Labels, MovImm;
    TargetsAre();
    LabelsAre();
  }

  lemma RejoinOpFine(k: nat)
    requires 215 <= k < 224
    ensures Fine(RejoinOp(k)) && (RejoinOp(k).Mark? ==> MarkPlace(k))
  {
    hide Targets, Labels, MovImm;
    TargetsAre();
    LabelsAre();
  }

  lemma PinOpFine(mask: string, observed: string, cpu: imm12, i: nat)
    requires i < 18 && mask in Labels() && observed in Labels()
    ensures Fine(PinOp(mask, observed, cpu, i)) && !PinOp(mask, observed, cpu, i).Mark?
  {
    hide Targets, Labels;
    TargetsAre();
  }

  lemma OnlineOpFine(value: string, i: nat)
    requires i < 20 && value in Labels()
    ensures Fine(OnlineOp(value, i)) && !OnlineOp(value, i).Mark?
  {
    hide Targets, Labels, MovImm;
    TargetsAre();
    LabelsAre();
  }

  lemma AllFine(k: nat)
    requires k < 224
    ensures Fine(Ops()[k]) && (Ops()[k].Mark? ==> MarkPlace(k))
  {
    hide Ops, Fine, PinOp, OnlineOp, MountOp, BeginOp, AskOp, FreezeOp, ReadmitOp, FinishOp, DispatchOp, CountOp,
         RejoinOp, Labels;
    LabelsAre();
    if k < 18 {
      PinOpFine(Cpu0Mask(), Cpu0Observed(), 0, k);
    } else if k < 37 {
      MountOpFine(k);
    } else if k < 55 {
      BeginOpFine(k);
    } else if k < 75 {
      OnlineOpFine(OfflineValue(), k - 55);
    } else if k < 92 {
      AskOpFine(k);
    } else if k < 105 {
      FreezeOpFine(k);
    } else if k < 125 {
      OnlineOpFine(OnlineValue(), k - 105);
    } else if k < 135 {
      ReadmitOpFine(k);
    } else if k < 147 {
      FinishOpFine(k);
    } else if k < 148 {
      MarkFine("child");
    } else if k < 166 {
      PinOpFine(Cpu1Mask(), Cpu1Observed(), 1, k - 148);
    } else if k < 181 {
      DispatchOpFine(k);
    } else if k < 197 {
      CountOpFine(k);
    } else if k < 215 {
      PinOpFine(Cpu1Mask(), Cpu1Observed(), 1, k - 197);
    } else {
      RejoinOpFine(k);
    }
  }

  lemma MarkFine(mark: string)
    ensures Fine(Mark(mark))
  {
  }

  /** Which of the marks stands at this operation. */
  function Nth(k: nat): (n: nat)
    requires MarkPlace(k)
    ensures n < 11
  {
    if k == 37 then 0 else if k == 45 then 1 else if k == 78 then 2 else if k == 93 then 3
    else if k == 128 then 4 else if k == 147 then 5 else if k == 169 then 6 else if k == 181 then 7
    else if k == 189 then 8 else if k == 196 then 9
    else 10
  }

  /** The mark at each of the eleven places. */
  lemma MarksPlaced(k: nat)
    requires MarkPlace(k)
    ensures k < 224 && Ops()[k] == Mark(Targets()[Nth(k)])
  {
    hide Ops, MovImm, PinOp, OnlineOp;
  }

  lemma MarksDiffer(i: nat, j: nat)
    requires i < j < 11
    ensures Targets()[i] != Targets()[j]
  {
    var m := Targets();
    assert |m[0]| == 17 && |m[1]| == 29 && |m[2]| == 26 && |m[3]| == 23 && |m[4]| == 19 && |m[5]| == 5;
    assert |m[6]| == 14 && |m[7]| == 14 && |m[8]| == 13 && |m[9]| == 13 && |m[10]| == 7;
    assert m[6][6] == 'd' && m[7][6] == 'p' && m[8][6] == 'q' && m[9][6] == 'r';
  }

  function Place(i: nat): (k: nat)
    requires i < 11
    ensures MarkPlace(k) && Nth(k) == i
  {
    [37, 45, 78, 93, 128, 147, 169, 181, 189, 196, 219][i]
  }

  lemma Marks()
    ensures DistinctMarks(Ops()) && Targeted(Ops())
  {
    hide Ops, OpAt, Targets, MarkPlace, Nth, Place, Short, Labels;
    var ops := Ops();
    forall i, j | 0 <= i < j < |ops| && ops[i].Mark? && ops[j].Mark? ensures ops[i].mark != ops[j].mark {
      AllFine(i);
      AllFine(j);
      MarksPlaced(i);
      MarksPlaced(j);
      NthOrdered(i, j);
      MarksDiffer(Nth(i), Nth(j));
    }
    forall k | 0 <= k < |ops| && (ops[k].JumpIf? || ops[k].Jump?)
      ensures exists m | 0 <= m < |ops| :: ops[m] == Mark(ops[k].mark)
    {
      AllFine(k);
      var i :| 0 <= i < |Targets()| && Targets()[i] == ops[k].mark;
      MarksPlaced(Place(i));
    }
  }

  lemma NthOrdered(i: nat, j: nat)
    requires i < j && MarkPlace(i) && MarkPlace(j)
    ensures Nth(i) < Nth(j)
  {
  }

  lemma AlwaysLinks(a: map<string, int>)
    requires Names(Ops(), a)
    ensures Linked(Prog(Ops(), a)) && |Prog(Ops(), a).items| <= 896
  {
    hide OpAt, Ops, Prog, Linked, Names, DistinctMarks, Targeted, Short, Targets, Labels, MarkPlace;
    Marks();
    forall k | 0 <= k < 224 ensures Short(Ops()[k]) {
      AllFine(k);
    }
    ShortLinks(Ops(), a);
  }

  // ----- the data -----

  const DATA: DataFor := (n: nat) => HotplugData(n)

  // The texts of the data are the bytes of the script.

  lemma Ascii()
    ensures Text("0") == ZERO && Text("1") == ONE && Text("BBHOTREADY\n") == READY && Text("BBHOTOFF\n") == OFF
    ensures Text("BBHOTDONE\n") == DONE
  {
  }

  lemma AsciiPaths()
    ensures Path("sysfs") == SYSFS && Path("/sys") == SYS
  {
  }

  lemma AsciiOnline()
    ensures Path("/sys/devices/system/cpu/cpu1/online") == ONLINE_FILE
  {
  }

  lemma Masks()
    ensures LittleEndian(1, 8) == MASK0 && LittleEndian(2, 8) == MASK1
  {
  }

  lemma DataTable(n: nat)
    ensures var d := HotplugData(n);
            && |d| == 19
            && d[0] == Datum(Cpu0Mask(), MASK0) && d[1] == Datum(Cpu1Mask(), MASK1)
            && d[2] == Datum(Cpu0Observed(), Zeros(4)) && d[3] == Datum(Cpu1Observed(), Zeros(4))
            && d[4] == Datum(Cpu1Ready(), Zeros(4)) && d[5] == Datum(Quiesced(), Zeros(4))
            && d[6] == Datum(Start(), Zeros(4)) && d[7] == Datum(Progress(), Zeros(4))
            && d[8] == Datum(Baseline(), Zeros(4)) && d[9] == Datum("sysfs", SYSFS) && d[10] == Datum("sys", SYS)
            && d[11] == Datum("cpu1_online", ONLINE_FILE) && d[12] == Datum(OfflineValue(), ZERO)
            && d[13] == Datum(OnlineValue(), ONE) && d[14] == Datum(ReadyMarker(), READY)
            && d[15] == Datum(OffMarker(), OFF) && d[16] == Datum(DoneMarker(), DONE)
            && d[17].name == "stack_padding" && |d[17].value| < 16 && d[18] == Datum("child_stack", Zeros(4096))
  {
    hide Text, LittleEndian, Extent, Path;
    Ascii();
    AsciiPaths();
    AsciiOnline();
    Masks();
    var d, w := HotplugData(n), HotplugWords();
    assert d[..17][0] == w[0] && d[..17][1] == w[1] && d[..17][2] == w[2] && d[..17][3] == w[3] && d[..17][4] == w[4];
    assert d[..17][5] == w[5] && d[..17][6] == w[6] && d[..17][7] == w[7] && d[..17][8] == w[8] && d[..17][9] == w[9];
    assert d[..17][10] == w[10] && d[..17][11] == w[11] && d[..17][12] == w[12] && d[..17][13] == w[13];
    assert d[..17][14] == w[14] && d[..17][15] == w[15] && d[..17][16] == w[16];
  }

  /** The length and two characters tell the labels apart. */
  function Key(s: string): int {
    1000 * |s| + (if |s| > 3 then s[3] as int else 0) + (if |s| > 6 then s[6] as int else 0)
  }

  function KeyAt(i: nat): int
    requires i < 19
  {
    [18150, 18151, 13146, 13147, 11222, 14221, 5114, 13163, 16209, 5102, 3000, 11159, 13209, 12200, 12209, 10209, 11198,
     13211, 11223][i]
  }

  lemma KeysAre(n: nat, i: nat)
    requires i < 19
    ensures |HotplugData(n)| == 19 && Key(HotplugData(n)[i].name) == KeyAt(i)
  {
    hide HotplugData;
    DataTable(n);
  }

  lemma KeysDiffer(i: nat, j: nat)
    requires i < j < 19
    ensures KeyAt(i) != KeyAt(j)
  {
  }

  lemma NamesDiffer(n: nat)
    ensures DistinctNames(HotplugData(n))
  {
    hide HotplugData, Key, KeyAt;
    forall i, j | 0 <= i < j < |HotplugData(n)| ensures HotplugData(n)[i].name != HotplugData(n)[j].name {
      KeysAre(n, 0);
      KeysAre(n, i);
      KeysAre(n, j);
      KeysDiffer(i, j);
    }
  }

  lemma WellNamedData()
    ensures WellNamed(DATA)
  {
    hide HotplugWords, WithStack;
    StackedWellNamed(HotplugWords());
    var other := (n: nat) => WithStack(HotplugWords(), n);
    assert forall n: nat :: DATA(n) == other(n);
  }

  lemma DataCovers()
    ensures Covers(DATA(0), Ops())
  {
    hide HotplugData, Ops, OpAt, Labels, Targets, MarkPlace;
    forall k | 0 <= k < 224 && (Ops()[k].LoadAddress? || Ops()[k].Print?) ensures HasName(DATA(0), Ops()[k].name) {
      AllFine(k);
      LabelCovered(Ops()[k].name);
    }
  }

  lemma LabelCovered(name: string)
    requires name in Labels()
    ensures HasName(DATA(0), name)
  {
    hide HotplugData;
    DataTable(0);
  }

  lemma DataExtent(n: nat)
    ensures |HotplugData(n)| == 19 && Extent(HotplugData(n), 19) < 0x2000
  {
    hide HotplugData, Zeros;
    DataTable(n);
    var d := HotplugData(n);
    assert Extent(d, 0) == 0;
    assert Extent(d, 2) == 16;
    assert Extent(d, 4) == 24;
    assert Extent(d, 6) == 32;
    assert Extent(d, 8) == 40;
    assert Extent(d, 10) == 50;
    assert Extent(d, 12) == 91;
    assert Extent(d, 14) == 93;
    assert Extent(d, 16) == 113;
    assert Extent(d, 17) == 123;
  }

  // ----- the shipped bytes -----

  /** The size found by the first pass. */
  function CodeSize(): nat {
    DataCovers();
    MeasuredSize(Ops(), DATA)
  }

  lemma SizeIsFixed()
    ensures FixedPoint(Ops(), DATA, CodeSize()) && Linked(FinalProgram(Ops(), DATA, CodeSize()))
    ensures FinalProgram(Ops(), DATA, CodeSize()) == Prog(Ops(), FinalAddresses(DATA, CodeSize()))
    ensures CodeSize() <= 3584 && CodeSize() % 4 == 0
  {
    hide Ops, OpAt, HotplugData, ProgramOf, Linked, Covers, WellNamed, Names;
    DataCovers();
    WellNamedData();
    SizingPassIsFixedPoint(Ops(), DATA, CodeSize());
    AlwaysLinks(FinalAddresses(DATA, CodeSize()));
  }

  function HotplugBytes(): (code: seq<byte>)
    ensures |code| == CodeSize()
  {
    SizeIsFixed();
    Assembled(FinalProgram(Ops(), DATA, CodeSize()))
  }

  function HotplugElf(): seq<byte> {
    Elf(HotplugBytes(), Join(HotplugData(CodeSize())))
  }

  /** `build_smp_hotplug_init_elf`: it never fails. */
  method BuildHotplugElf() returns (image: seq<byte>)
    ensures image == HotplugElf()
  {
    hide Ops, OpAt, HotplugWords, WithStack, ProgramOf, Linked, Assembled, Elf, Join, DistinctMarks, Covers, WellNamed,
         AddressMap;
    DataCovers();
    WellNamedData();
    SizeIsFixed();
    Marks();
    StackCheckPasses(HotplugWords(), CodeSize());
    var r := BuildElf(Ops(), DATA);
    return r.bytes;
  }

  // ----- two CPUs on the shipped bytes -----

  function WorldOf(kernel: Kernel): World {
    World(Setting(Ops(), FinalAddresses(DATA, CodeSize()), kernel))
  }

  /** A datum's address and bytes. */
  lemma DatumPlaced(mem: Memory, i: nat)
    requires i < 19 && Loaded(mem, HotplugElf())
    ensures var d := HotplugData(CodeSize());
            var a := FinalAddresses(DATA, CodeSize());
            && |d| == 19 && d[i].name in a && a[d[i].name] == Layout.Address(CodeSize(), d, i)
            && Holds(mem, a[d[i].name], d[i].value)
  {
    hide Ops, OpAt, HotplugData, ProgramOf, Assembled, Elf, Join, Holds, Loaded, DistinctNames, AddressMap, CodeSize,
         Layout.Address;
    NamesDiffer(CodeSize());
    DataExtent(CodeSize());
    DatumLoaded(HotplugBytes(), HotplugData(CodeSize()), mem, i);
  }

  /** The data lie one after the other, the words and the stack aligned. */
  lemma DataInRow(size: nat)
    requires size % 4 == 0
    ensures var d := HotplugData(size);
            && |d| == 19
            && var at := (i: nat) requires i < 19 => Layout.Address(size, d, i);
               && at(2) % 4 == 0 && at(3) % 4 == 0 && at(4) % 4 == 0 && at(5) % 4 == 0 && at(6) % 4 == 0
               && at(7) % 4 == 0 && at(8) % 4 == 0 && at(18) % 16 == 0
               && at(1) + 8 <= at(2) && at(0) + 8 <= at(1)
               && at(2) + 4 <= at(3) && at(3) + 4 <= at(4) && at(4) + 4 <= at(5) && at(5) + 4 <= at(6)
               && at(6) + 4 <= at(7) && at(7) + 4 <= at(8) && at(8) + 4 <= at(9)
               && at(9) <= at(10) <= at(11) <= at(12) <= at(13) <= at(14) <= at(15) <= at(16) <= at(18)
  {
    hide HotplugData, Layout.Address;
    DataTable(size);
    HotplugWordsAligned(size, 2);
    HotplugWordsAligned(size, 3);
    HotplugWordsAligned(size, 4);
    HotplugWordsAligned(size, 5);
    HotplugWordsAligned(size, 6);
    HotplugWordsAligned(size, 7);
    HotplugWordsAligned(size, 8);
    assert HotplugData(size) == WithStack(HotplugWords(), size) by {
      StackedData(size);
    }
    StackAligned(HotplugWords(), size);
    var d := HotplugData(size);
    DataDisjoint(size, d, 0, 1);
    DataDisjoint(size, d, 1, 2);
    DataDisjoint(size, d, 2, 3);
    DataDisjoint(size, d, 3, 4);
    DataDisjoint(size, d, 4, 5);
    DataDisjoint(size, d, 5, 6);
    DataDisjoint(size, d, 6, 7);
    DataDisjoint(size, d, 7, 8);
    DataDisjoint(size, d, 8, 9);
    DataDisjoint(size, d, 9, 10);
    DataDisjoint(size, d, 10, 11);
    DataDisjoint(size, d, 11, 12);
    DataDisjoint(size, d, 12, 13);
    DataDisjoint(size, d, 13, 14);
    DataDisjoint(size, d, 14, 15);
    DataDisjoint(size, d, 15, 16);
    DataDisjoint(size, d, 16, 18);
  }

  lemma StackedData(size: nat)
    ensures HotplugData(size) == WithStack(HotplugWords(), size)
  {
  }

  lemma SettingOk(kernel: Kernel)
    requires Keeps2(kernel)
    ensures WorldOf(kernel).w.Ok()
  {
    hide Ops, OpAt, HotplugData, Keeps2, DistinctMarks, Names, AddressMap, CodeSize, DistinctNames, Extent, ProgramOf;
    SizeIsFixed();
    Marks();
    var d := HotplugData(CodeSize());
    DataExtent(CodeSize());
    NamesDiffer(CodeSize());
    AddressesFit(CodeSize(), d);
    assert FinalAddresses(DATA, CodeSize()) == AddressMap(CodeSize(), d, |d|);
  }

  /** A name is at its datum's address, with these bytes. */
  predicate Placed(mem: Memory, name: string, i: nat, value: seq<byte>) {
    var d, a := HotplugData(CodeSize()), FinalAddresses(DATA, CodeSize());
    i < |d| && name in a && a[name] == Layout.Address(CodeSize(), d, i) && Holds(mem, a[name], value)
  }

  lemma WordsPlaced(mem: Memory)
    requires Loaded(mem, HotplugElf())
    ensures Placed(mem, Cpu0Observed(), 2, Zeros(4)) && Placed(mem, Cpu1Observed(), 3, Zeros(4))
    ensures Placed(mem, Cpu1Ready(), 4, Zeros(4)) && Placed(mem, Quiesced(), 5, Zeros(4))
    ensures Placed(mem, Start(), 6, Zeros(4)) && Placed(mem, Progress(), 7, Zeros(4))
    ensures Placed(mem, Baseline(), 8, Zeros(4))
  {
    hide Ops, HotplugData, HotplugElf, Holds, Loaded, FinalAddresses, CodeSize, Layout.Address;
    DataTable(CodeSize());
    DatumPlaced(mem, 2);
    DatumPlaced(mem, 3);
    DatumPlaced(mem, 4);
    DatumPlaced(mem, 5);
    DatumPlaced(mem, 6);
    DatumPlaced(mem, 7);
    DatumPlaced(mem, 8);
  }

  lemma ArgumentsPlaced(mem: Memory)
    requires Loaded(mem, HotplugElf())
    ensures Placed(mem, Cpu0Mask(), 0, MASK0) && Placed(mem, Cpu1Mask(), 1, MASK1)
    ensures Placed(mem, "sysfs", 9, SYSFS) && Placed(mem, "sys", 10, SYS)
    ensures Placed(mem, "cpu1_online", 11, ONLINE_FILE) && Placed(mem, OfflineValue(), 12, ZERO)
    ensures Placed(mem, OnlineValue(), 13, ONE)
  {
    hide Ops, HotplugData, HotplugElf, Holds, Loaded, FinalAddresses, CodeSize, Layout.Address;
    DataTable(CodeSize());
    DatumPlaced(mem, 0);
    DatumPlaced(mem, 1);
    DatumPlaced(mem, 9);
    DatumPlaced(mem, 10);
    DatumPlaced(mem, 11);
    DatumPlaced(mem, 12);
    DatumPlaced(mem, 13);
  }

  lemma TextsPlaced(mem: Memory)
    requires Loaded(mem, HotplugElf())
    ensures Placed(mem, ReadyMarker(), 14, READY) && Placed(mem, OffMarker(), 15, OFF)
    ensures Placed(mem, DoneMarker(), 16, DONE) && Placed(mem, "child_stack", 18, Zeros(4096))
  {
    hide Ops, HotplugData, HotplugElf, Holds, Loaded, FinalAddresses, CodeSize, Layout.Address;
    DataTable(CodeSize());
    DatumPlaced(mem, 14);
    DatumPlaced(mem, 15);
    DatumPlaced(mem, 16);
    DatumPlaced(mem, 18);
  }

  predicate Row(v: World)
    requires v.Named()
  {
    var a := v.w.a;
    && a[Cpu0Observed()] % 4 == 0 && a[Cpu1Observed()] % 4 == 0 && a[Cpu1Ready()] % 4 == 0 && a[Quiesced()] % 4 == 0
    && a[Start()] % 4 == 0 && a[Progress()] % 4 == 0 && a[Baseline()] % 4 == 0 && a["child_stack"] % 16 == 0
    && a[Cpu0Mask()] + 8 <= a[Cpu0Observed()] && a[Cpu1Mask()] + 8 <= a[Cpu0Observed()]
    && a[Cpu0Observed()] + 4 <= a[Cpu1Observed()] && a[Cpu1Observed()] + 4 <= a[Cpu1Ready()]
    && a[Cpu1Ready()] + 4 <= a[Quiesced()] && a[Quiesced()] + 4 <= a[Start()] && a[Start()] + 4 <= a[Progress()]
    && a[Progress()] + 4 <= a[Baseline()] && RowAfter(v, a[Baseline()] + 4)
  }

  /** The texts behind the words. */
  predicate RowAfter(v: World, end: int)
    requires v.Named()
  {
    var a := v.w.a;
    && end <= a["sysfs"] && end <= a["sys"] && end <= a["cpu1_online"] && end <= a[OfflineValue()]
    && end <= a[OnlineValue()] && end <= a[ReadyMarker()] && end <= a[OffMarker()] && end <= a[DoneMarker()]
    && end <= a["child_stack"]
  }

  lemma RowLaid(v: World)
    requires v.Named() && Row(v)
    ensures Laid(v.Places(), v.Texts()) && v.w.a["child_stack"] % 16 == 0
  {
    var p, t := v.Places(), v.Texts();
    forall i, j | 0 <= i < 7 && 0 <= j < 11
      ensures p[i] + 4 <= t[j].address || t[j].address + |t[j].bytes| <= p[i]
    {
    }
  }

  lemma WorldNamed(kernel: Kernel, mem: Memory)
    requires Loaded(mem, HotplugElf())
    ensures WorldOf(kernel).Named()
  {
    hide Ops, HotplugData, HotplugElf, Holds, Loaded, FinalAddresses, CodeSize, Layout.Address;
    WordsPlaced(mem);
    ArgumentsPlaced(mem);
    TextsPlaced(mem);
  }

  lemma WorldRow(kernel: Kernel, mem: Memory)
    requires Loaded(mem, HotplugElf())
    ensures WorldOf(kernel).Named() && Row(WorldOf(kernel))
  {
    hide Ops, HotplugData, HotplugElf, Holds, Loaded, FinalAddresses, CodeSize, Layout.Address;
    SizeIsFixed();
    WorldNamed(kernel, mem);
    WordsPlaced(mem);
    ArgumentsPlaced(mem);
    TextsPlaced(mem);
    DataInRow(CodeSize());
  }

  lemma WorldOk(kernel: Kernel, mem: Memory)
    requires Keeps2(kernel) && Loaded(mem, HotplugElf())
    ensures WorldOf(kernel).Ok()
  {
    hide Ops, HotplugElf, Loaded, FinalAddresses, CodeSize, Setting.Ok, Keeps2, Laid, World.Places, World.Texts, Row;
    SettingOk(kernel);
    WorldRow(kernel, mem);
    RowLaid(WorldOf(kernel));
  }

  lemma WorldLoaded(kernel: Kernel, mem: Memory)
    requires Loaded(mem, HotplugElf())
    ensures WorldOf(kernel).Named() && Stores(mem, WorldOf(kernel).Cells(H.Init()), WorldOf(kernel).Texts())
  {
    hide Ops, HotplugData, HotplugElf, Holds, Loaded, FinalAddresses, CodeSize, Layout.Address, Mapped, Load32;
    var v := WorldOf(kernel);
    WorldNamed(kernel, mem);
    WordsPlaced(mem);
    ArgumentsPlaced(mem);
    TextsPlaced(mem);
    ZeroWord(mem, v.w.a[Cpu0Observed()]);
    ZeroWord(mem, v.w.a[Cpu1Observed()]);
    ZeroWord(mem, v.w.a[Cpu1Ready()]);
    ZeroWord(mem, v.w.a[Quiesced()]);
    ZeroWord(mem, v.w.a[Start()]);
    ZeroWord(mem, v.w.a[Progress()]);
    ZeroWord(mem, v.w.a[Baseline()]);
  }

  /** Assembled or labelled, the program runs the same. */
  lemma OnBytes(kernel: Kernel, s: Pair, schedule: seq<Who>)
    ensures Names(Ops(), FinalAddresses(DATA, CodeSize()))
    ensures CodeRun(HotplugBytes(), kernel, s, schedule)
            == PairRun(Prog(Ops(), FinalAddresses(DATA, CodeSize())), kernel, s, schedule)
  {
    hide Ops, HotplugData, FinalAddresses, CodeSize, CodeRun, PairRun, Prog, FinalProgram, Assembled, Linked, Names;
    SizeIsFixed();
    AssemblyPreservesPairs(Prog(Ops(), FinalAddresses(DATA, CodeSize())), kernel, s, schedule);
  }

  lemma SizeFits()
    ensures HotplugElf() == Elf(HotplugBytes(), Join(HotplugData(CodeSize())))
    ensures CODE_OFFSET + |HotplugBytes()| + |Join(HotplugData(CodeSize()))| < 0x1_0000_0000_0000_0000
  {
    hide Ops, HotplugData, CodeSize, Elf, HotplugBytes, Join, FinalProgram, Linked;
    SizeIsFixed();
    DataExtent(CodeSize());
    JoinSize(HotplugData(CodeSize()));
  }

  /** Two CPUs execute the shipped bytes as the loader enters them, interleaved
      in any way, under any kernel that keeps the conventions: nothing faults,
      the terminal shows the first `n` markers, the shared words are what the
      markers stand for, and every system call is the next of its CPU's script
      with the bytes it should have. */
  lemma HotplugBarrier(kernel: Kernel, cpu: Cpu, mem: Memory, traps: nat, schedule: seq<Who>)
    returns (n: nat, baseline: word)
    requires Keeps2(kernel) && Entered(HotplugElf(), cpu, mem)
    ensures WorldOf(kernel).Ok() && Holds(mem, CODE_ADDRESS, HotplugBytes())
    ensures var t := CodeRun(HotplugBytes(), kernel, Pair(cpu, None, mem, traps, [], []), schedule);
            Says(WorldOf(kernel), t, n, baseline) && Asks(WorldOf(kernel), t)
  {
    hide Ops, HotplugData, HotplugElf, Loaded, FinalAddresses, CodeSize, World.Ok, World.Cells, World.Texts, Stores,
         Keeps2, Says, Asks, CodeRun, PairRun, Prog, HotplugBytes, Names, Entered, Elf, Join;
    var v := WorldOf(kernel);
    SizeFits();
    EntersCode(HotplugBytes(), Join(HotplugData(CodeSize())), cpu, mem);
    WorldOk(kernel, mem);
    WorldLoaded(kernel, mem);
    v.Means();
    var s := Pair(cpu, None, mem, traps, [], []);
    OnBytes(kernel, s, schedule);
    n, baseline := HotplugRuns(v, s, schedule);
    HotplugAsks(v, s, schedule);
  }

  /** Such kernels, CPUs and memories exist. */
  lemma SettingExists() returns (kernel: Kernel, cpu: Cpu, mem: Memory)
    ensures Keeps2(kernel) && Entered(HotplugElf(), cpu, mem)
  {
    hide Entered, HotplugElf, Keeps2, HotplugBytes, Elf, Join, CodeSize, HotplugData;
    kernel := SomeKernel();
    SizeFits();
    cpu, mem := SomeEntry(HotplugBytes(), Join(HotplugData(CodeSize())));
  }
}
