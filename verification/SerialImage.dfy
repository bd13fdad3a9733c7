/** The serial receive program as shipped: the bytes `build_serial_rx_init_elf`
    lays out, loaded at their addresses and executed. */
module SerialImage {
  import opened Bytes
  import opened A64
  import opened Machine
  import opened Assembler
  import opened Syscalls
  import opened Layout
  import opened Blocks
  import opened Templates
  import opened SerialRx
  import opened SerialRun
  import opened GuestElf
  import opened LoadedImage

  function DataOf(t: Texts): DataFor { (_: nat) => Data(t) }

  // ----- the template always links -----

  lemma {:induction false} ChunkCallsLength(buffer: int, offset: nat, size: nat)
    ensures forall c | c in Chunks(offset, size) :: c.size <= SERIAL_CHUNK
    ensures offset <= size ==> 2 * |ChunkCalls(1, buffer, Chunks(offset, size))| <= size - offset + 16
    decreases size - offset
  {
    ChunksCover(if offset <= size then offset else size, size, Zeros(size));
    if offset < size {
      var n := if size - offset < SERIAL_CHUNK then size - offset else SERIAL_CHUNK;
      ChunkCallsLength(buffer, offset + n, size);
      assert Chunks(offset, size)[1..] == Chunks(offset + n, size);
    }
  }

  lemma ShortOps(t: Texts, k: nat)
    requires t.Valid() && k < 32
    ensures var op := OpAt(t, k);
            && (op.Code? ==> |op.instrs| <= 6)
            && (op.Print? ==> op.fd == 1 && op.size < 4096)
  {
  }

  lemma ItemsShort(t: Texts, a: map<string, int>, k: nat)
    requires t.Valid() && k < 32 && Names(Ops(t), a)
    ensures var op := Ops(t)[k]; (op.LoadAddress? || op.Print? ==> op.name in a) && |Items(op, a)| <= 2056
  {
    hide OpAt, Ops;
    ShortOps(t, k);
    var op := Ops(t)[k];
    if op.Print? {
      ChunkCallsLength(a[op.name], 0, op.size);
    }
  }

  lemma {:induction false} PosShort(t: Texts, a: map<string, int>, k: nat)
    requires t.Valid() && k <= 32 && Names(Ops(t), a)
    ensures Pos(Ops(t), k, a) <= 2056 * k
  {
    hide OpAt, Ops, Items;
    if k > 0 {
      PosShort(t, a, k - 1);
      PosNext(Ops(t), k - 1, a);
      ItemsShort(t, a, k - 1);
    }
  }

  lemma AlwaysLinks(t: Texts, a: map<string, int>)
    requires t.Valid() && Names(Ops(t), a)
    ensures Linked(Prog(Ops(t), a)) && |Prog(Ops(t), a).items| <= 65792
  {
    hide OpAt, Ops;
    PosShort(t, a, 32);
    Marks(t);
    TemplateLinked(Ops(t), a);
  }

  // ----- data in the loaded image -----

  lemma DataNames(t: Texts)
    requires t.Valid()
    ensures DistinctNames(Data(t)) && WellNamed(DataOf(t))
  {
    var d := Data(t);
    assert |"serial_tty"| == 10 && |"raw_termios"| == 11 && |"expected_input"| == 14 && |"input_buffer"| == 12;
    assert |"ready_marker"| == 12 && |"success_marker"| == 14 && |"failure_marker"| == 14;
    assert "expected_input"[0] == 'e' && "success_marker"[0] == 's' && "failure_marker"[0] == 'f';
    assert "input_buffer"[0] == 'i' && "ready_marker"[0] == 'r';
  }

  lemma DataExtents(t: Texts)
    requires t.Valid()
    ensures Extent(Data(t), 7) < 0x10_0000
  {
    var d := Data(t);
    assert Extent(d, 0) == 0;
    assert Extent(d, 1) < 4096;
    assert Extent(d, 2) < 0x1_0000;
    assert Extent(d, 4) < 0x4_0000;
    assert Extent(d, 6) < 0x5_0000;
  }

  lemma TextLoaded(t: Texts, code: seq<byte>, mem: Memory, i: nat)
    requires t.Valid() && i < 7 && Loaded(mem, Elf(code, Join(Data(t))))
    ensures var a := AddressMap(|code|, Data(t), 7);
            && Data(t)[i].name in a && a[Data(t)[i].name] == Layout.Address(|code|, Data(t), i)
            && Holds(mem, a[Data(t)[i].name], Data(t)[i].value)
  {
    hide Elf, Data, Join, AddressMap, Holds, Extent, Loaded;
    DataNames(t);
    DatumLoaded(code, Data(t), mem, i);
  }

  lemma DatumApart(t: Texts, size: nat, i: nat)
    requires t.Valid() && i < 7
    ensures Layout.Address(size, Data(t), i) >= 0
    ensures Layout.Address(size, Data(t), i) + |Data(t)[i].value| <= BASE + CODE_OFFSET + size + 0x10_0000
    ensures i != 3 ==> Apart(Layout.Address(size, Data(t), 3), |Data(t)[3].value|,
                             Layout.Address(size, Data(t), i), |Data(t)[i].value|)
  {
    hide Data;
    DataExtents(t);
    ExtentMonotone(Data(t), i + 1, 7);
    if i < 3 {
      DataDisjoint(size, Data(t), i, 3);
    } else if i > 3 {
      DataDisjoint(size, Data(t), 3, i);
    }
  }

  lemma DataTable(t: Texts)
    requires t.Valid()
    ensures var d := Data(t);
            && d[0] == Datum("serial_tty", t.tty) && d[1] == Datum("raw_termios", t.termios)
            && d[2] == Datum("expected_input", t.input) && d[3] == Datum("input_buffer", Zeros(|t.input|))
            && d[4] == Datum("ready_marker", t.ready) && d[5] == Datum("success_marker", t.success)
            && d[6] == Datum("failure_marker", t.failure)
  {
  }

  function WorldOf(t: Texts, kernel: Kernel, size: nat): World {
    World(t, AddressMap(size, Data(t), 7), kernel)
  }

  /** Loading the image puts the program in the setting its proof needs. */
  lemma WorldLoaded(t: Texts, kernel: Kernel, code: seq<byte>, mem: Memory)
    requires t.Valid() && Obeys(kernel) && |code| < 0x10_0000 && Loaded(mem, Elf(code, Join(Data(t))))
    ensures var w := WorldOf(t, kernel, |code|); w.Ok() && w.MemOk(mem)
  {
    hide Data, Elf, Join, AddressMap, Obeys, Holds, Layout.Address, Loaded;
    DataTable(t);
    TextLoaded(t, code, mem, 0);
    TextLoaded(t, code, mem, 1);
    TextLoaded(t, code, mem, 2);
    TextLoaded(t, code, mem, 3);
    TextLoaded(t, code, mem, 4);
    TextLoaded(t, code, mem, 5);
    TextLoaded(t, code, mem, 6);
    DatumApart(t, |code|, 0);
    DatumApart(t, |code|, 1);
    DatumApart(t, |code|, 2);
    DatumApart(t, |code|, 3);
    DatumApart(t, |code|, 4);
    DatumApart(t, |code|, 5);
    DatumApart(t, |code|, 6);
    HoldsMapped(mem, WorldOf(t, kernel, |code|).a["input_buffer"], Zeros(|t.input|));
  }

  lemma HoldsMapped(mem: Memory, a: int, s: seq<byte>)
    requires Holds(mem, a, s)
    ensures forall b | a <= b < a + |s| :: b in mem
  {
  }

  // ----- the shipped bytes -----

  lemma NameOnly(t: Texts, k: nat)
    requires t.Valid() && k < 32 && (OpAt(t, k).LoadAddress? || OpAt(t, k).Print?)
    ensures OpAt(t, k).name in ["serial_tty", "raw_termios", "expected_input", "input_buffer",
                                "ready_marker", "success_marker", "failure_marker"]
  {
  }

  lemma DataCovers(t: Texts)
    requires t.Valid()
    ensures Covers(Data(t), Ops(t))
  {
    hide Data, Ops, OpAt;
    DataTable(t);
    forall k | 0 <= k < 32 && (Ops(t)[k].LoadAddress? || Ops(t)[k].Print?) ensures HasName(Data(t), Ops(t)[k].name) {
      NameOnly(t, k);
    }
  }

  /** The size found by the first pass. */
  function CodeSize(t: Texts): nat
    requires t.Valid()
  {
    DataCovers(t);
    MeasuredSize(Ops(t), DataOf(t))
  }

  lemma SizeIsFixed(t: Texts)
    requires t.Valid()
    ensures FixedPoint(Ops(t), DataOf(t), CodeSize(t)) && Linked(FinalProgram(Ops(t), DataOf(t), CodeSize(t)))
    ensures FinalAddresses(DataOf(t), CodeSize(t)) == AddressMap(CodeSize(t), Data(t), 7)
    ensures CodeSize(t) < 0x10_0000
  {
    hide Ops, OpAt, Data, ProgramOf, Linked;
    DataCovers(t);
    DataNames(t);
    SizingPassIsFixedPoint(Ops(t), DataOf(t), CodeSize(t));
    AlwaysLinks(t, FinalAddresses(DataOf(t), CodeSize(t)));
  }

  function SerialCode(t: Texts): (code: seq<byte>)
    requires t.Valid()
    ensures |code| == CodeSize(t)
  {
    SizeIsFixed(t);
    Assembled(FinalProgram(Ops(t), DataOf(t), CodeSize(t)))
  }

  function SerialElf(t: Texts): seq<byte>
    requires t.Valid()
  {
    Elf(SerialCode(t), Join(Data(t)))
  }

  /** `build_serial_rx_init_elf`: it never fails. */
  method BuildSerialElf(t: Texts) returns (image: seq<byte>)
    requires t.Valid()
    ensures image == SerialElf(t)
  {
    hide Ops, OpAt, Data, ProgramOf, Linked, Assembled, Elf, Join, DistinctMarks;
    DataCovers(t);
    DataNames(t);
    SizeIsFixed(t);
    Marks(t);
    NoStack(t);
    var r := BuildElf(Ops(t), DataOf(t));
    return r.bytes;
  }

  lemma NoStack(t: Texts)
    requires t.Valid()
    ensures !HasName(Data(t), "child_stack")
  {
    DataTable(t);
    assert |"child_stack"| == 11 && |"raw_termios"| == 11 && "child_stack"[0] == 'c' && "raw_termios"[0] == 'r';
    assert |"serial_tty"| == 10 && |"expected_input"| == 14 && |"input_buffer"| == 12;
    assert |"ready_marker"| == 12 && |"success_marker"| == 14 && |"failure_marker"| == 14;
  }

  // ----- the theorem -----

  /** Where the path, the settings and the buffer are. */
  datatype Places = Places(tty: nat, termios: nat, buffer: nat)

  function PlacesOf(t: Texts): Places
    requires t.Valid()
  {
    Places(Layout.Address(CodeSize(t), Data(t), 0), Layout.Address(CodeSize(t), Data(t), 1),
           Layout.Address(CodeSize(t), Data(t), 3))
  }

  /** `openat(AT_FDCWD, tty, O_RDWR, 0)`. */
  predicate OpensTerminal(e: Event, tty: nat) {
    && e.call.number == 56 && e.call.arg0 == 0x1_0000_0000_0000_0000 - 100 && e.call.arg1 == tty && e.call.arg2 == 2
    && e.extra == 0
  }

  /** `ioctl(fd, TCSETS, termios)`. */
  predicate SetsTerminal(e: Event, fd: u64, termios: nat) {
    e.call.number == 29 && e.call.arg0 == fd && e.call.arg1 == 0x5402 && e.call.arg2 == termios
  }

  /** What the log of a run says was sent and asked, in terms of how the kernel
      answered `openat`, `ioctl` and up to `k` reads. The two calls of setup
      come first and are followed only by reads and short writes to the
      terminal; the ready marker is out before the first read; the success
      marker is sent exactly when no read failed and the bytes delivered are
      the input. */
  ghost predicate Conforms(t: Texts, at: Places, log: seq<Event>, k: nat) {
    && log != [] && OpensTerminal(log[0], at.tty)
    && (log[0].result < SIGN ==> |log| > 1 && SetsTerminal(log[1], log[0].result, at.termios))
    && InChunks(log[if log[0].result < SIGN then 2 else 1..])
    && var answers := ReadsOf(log);
       if log[0].result >= SIGN || log[1].result != 0 then answers == [] && Sent(log) == t.failure
       else
         && AnnouncedFirst(t, log)
         && Proper(log[0].result, at.buffer, t.input, answers, [])
         && |answers| <= k && (Missing(t, answers) ==> |answers| == k)
         && Sent(log) == t.ready + (if Missing(t, answers) then []
                                    else if NoErrors(answers) && Collected(answers) == t.input then t.success
                                    else t.failure)
  }

  /** No read has failed and not everything has arrived. */
  predicate Missing(t: Texts, answers: seq<Event>) {
    NoErrors(answers) && |Collected(answers)| < |t.input|
  }

  /** The run is over: setup failed, or the reads have been judged. */
  predicate Over(t: Texts, log: seq<Event>)
    requires log != [] && (log[0].result < SIGN ==> |log| > 1)
  {
    log[0].result >= SIGN || log[1].result != 0 || !Missing(t, ReadsOf(log))
  }

  lemma SizeFits(t: Texts)
    requires t.Valid()
    ensures CODE_OFFSET + |SerialCode(t)| + |Join(Data(t))| < 0x1_0000_0000_0000_0000
  {
    hide Ops, OpAt, Data, Join, FinalProgram, Linked, CodeSize;
    SizeIsFixed(t);
    DataExtents(t);
    JoinSize(Data(t));
  }

  /** What loading and the addresses come to. */
  lemma Prepared(t: Texts, kernel: Kernel, cpu: Cpu, mem: Memory)
    requires t.Valid() && Obeys(kernel) && Entered(SerialElf(t), cpu, mem)
    ensures var w := WorldOf(t, kernel, CodeSize(t));
            && w.Ok() && w.MemOk(mem) && cpu.Valid() && cpu.pc == 0
            && w.a["serial_tty"] == PlacesOf(t).tty && w.a["raw_termios"] == PlacesOf(t).termios
            && w.Buffer() == PlacesOf(t).buffer
    ensures Holds(mem, PlacesOf(t).tty, t.tty) && Holds(mem, PlacesOf(t).termios, t.termios)
    ensures Holds(mem, CODE_ADDRESS, SerialCode(t))
  {
    hide Ops, OpAt, Obeys, Elf, Join, Data, Loaded, Entered, Layout.Address, AddressMap, CodeSize, Holds, World.Ok,
         World.MemOk, FinalProgram, Assembled, Linked;
    SizeIsFixed(t);
    SizeFits(t);
    var code := SerialCode(t);
    EntersCode(code, Join(Data(t)), cpu, mem);
    WorldLoaded(t, kernel, code, mem);
    DataTable(t);
    TextLoaded(t, code, mem, 0);
    TextLoaded(t, code, mem, 1);
    TextLoaded(t, code, mem, 3);
  }

  /** Executing the shipped bytes as the loader enters them, under any kernel
      that keeps the system call convention: after setup and up to `k` reads
      the log conforms, the buffer holds the bytes delivered and no other byte
      of memory has changed, and once the run is over nothing is ever added. */
  lemma SerialReceive(t: Texts, kernel: Kernel, cpu: Cpu, mem: Memory, traps: nat, k: nat)
    returns (n: nat, log: seq<Event>)
    requires t.Valid() && Obeys(kernel) && Entered(SerialElf(t), cpu, mem)
    ensures Holds(mem, CODE_ADDRESS, SerialCode(t))
    ensures Holds(mem, PlacesOf(t).tty, t.tty) && Holds(mem, PlacesOf(t).termios, t.termios)
    ensures CodeLog(SerialCode(t), kernel, Assembler.At(cpu, mem, traps), n) == log
    ensures Conforms(t, PlacesOf(t), log, k)
    ensures var last := RunCode(SerialCode(t), kernel, Assembler.At(cpu, mem, traps), n);
            && last.At? && Holds(last.mem, PlacesOf(t).buffer, Collected(ReadsOf(log)))
            && ChangedOnlyIn(mem, last.mem, PlacesOf(t).buffer, |t.input|)
    ensures Over(t, log) ==>
              forall m | m >= n :: CodeLog(SerialCode(t), kernel, Assembler.At(cpu, mem, traps), m) == log
  {
    hide Ops, OpAt, Obeys, Assembled, Linked, ProgramOf, Elf, Join, Log, CodeLog, Sent, ReadsOf, InChunks, Proper,
         Judge, Data, RunLabelled, RunCode, Entered, World.Ok, World.MemOk, Layout.Address, Extent, AddressMap,
         CodeSize, Holds, Collected, NoErrors, AnnouncedFirst;
    var size := CodeSize(t);
    SizeIsFixed(t);
    var p := FinalProgram(Ops(t), DataOf(t), size);
    var code := SerialCode(t);
    var w := WorldOf(t, kernel, size);
    Prepared(t, kernel, cpu, mem);
    w.OkNamed();
    var r := Assembler.At(cpu, mem, traps);
    AlwaysLinks(t, w.a);
    assert w.Here(r, 0) by {
      EntryIsFirst(w, r);
    }
    var s: Run;
    s, log := FromEntry(w, r, k);
    n :| After(p, kernel, r, s, log, n);
    AssemblyPreservesLogs(p, kernel, r, n);
    AssemblyPreservesRuns(p, kernel, r, n);
    if log[0].result < SIGN && log[1].result == 0 {
      JudgeExactly(log[0].result, w.Buffer(), t.input, ReadsOf(log), []);
      assert [] + Collected(ReadsOf(log)) == Collected(ReadsOf(log));
    }
    if Over(t, log) {
      forall m | m >= n ensures CodeLog(code, kernel, r, m) == log {
        EndIsFinal(w, s, m - n);
        RunAppend(p, kernel, r, n, m - n);
        AssemblyPreservesLogs(p, kernel, r, m);
        assert log + [] == log;
      }
    }
  }

  /** Some kernel keeps the convention and some CPU and memory are as the loader
      leaves them, so the theorem speaks of real runs. */
  lemma SettingExists(t: Texts) returns (kernel: Kernel, cpu: Cpu, mem: Memory)
    requires t.Valid()
    ensures Obeys(kernel) && Entered(SerialElf(t), cpu, mem)
  {
    hide SerialCode, Join, Elf, Data, Obeys, Entered;
    SomeKernelObeys();
    kernel :| Obeys(kernel);
    SizeFits(t);
    cpu, mem := SomeEntry(SerialCode(t), Join(Data(t)));
  }

  lemma EntryIsFirst(w: World, r: Run)
    requires w.Named() && w.t.Valid() && r.At? && r.cpu.Valid() && r.cpu.pc == 0
    ensures w.Here(r, 0)
  {
    w.NamesOps();
  }

  // ----- the shipped texts -----

  /** The texts of the shipped program: `/dev/ttyS0`, raw mode at 9600 baud with
      at least one byte a read, and the markers in ASCII. */
  const SHIPPED: Texts := Texts(
    [0x2F, 0x64, 0x65, 0x76, 0x2F, 0x74, 0x74, 0x79, 0x53, 0x30, 0],
    [0, 0, 0, 0, 0, 0, 0, 0, 0xBF, 8, 0, 0, 0, 0, 0, 0, 0]
    + [0, 0, 0, 0, 0, 0, 1, 0, 0, 0, 0, 0, 0, 0, 0, 0, 0, 0, 0],
    Ascii("BANGBANG_SERIAL_RX_") + seq(80, _ => 0x41) + Ascii("_END\n"),
    Ascii("BANGBANG_SERIAL_RX_READY\n"), Ascii("BANGBANG_SERIAL_RX_OK\n"), Ascii("BANGBANG_SERIAL_RX_FAIL\n"))

  function Ascii(s: string): (b: seq<byte>)
    ensures |b| == |s|
  {
    seq(|s|, i requires 0 <= i < |s| => s[i] as int % 256)
  }

  /** The shipped program is one of those the theorem covers. */
  lemma ShippedIsValid()
    ensures SHIPPED.Valid() && |SHIPPED.input| == 104 && |SHIPPED.termios| == 36
  {
  }
}
