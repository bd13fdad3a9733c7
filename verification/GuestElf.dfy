/** Guest program images: the two passes that give every datum its address,
    and what executing the finished image finds there. */
module GuestElf {
  import opened Bytes
  import opened A64
  import opened Machine
  import opened Assembler
  import opened Syscalls
  import opened Layout

  /** Data may depend on the code size (stack padding), their names may not. */
  type DataFor = nat -> seq<Datum>

  ghost predicate WellNamed(data: DataFor) {
    forall n: nat :: |data(n)| == |data(0)|
                     && forall i | 0 <= i < |data(0)| :: data(n)[i].name == data(0)[i].name
  }

  predicate HasName(d: seq<Datum>, name: string) {
    exists i | 0 <= i < |d| :: d[i].name == name
  }

  predicate Covers(d: seq<Datum>, ops: seq<Op>) {
    forall k | 0 <= k < |ops| && (ops[k].LoadAddress? || ops[k].Print?) :: HasName(d, ops[k].name)
  }

  function FinalAddresses(data: DataFor, size: nat): map<string, int> {
    AddressMap(size, data(size), |data(size)|)
  }

  lemma AddressesNamed(data: DataFor, ops: seq<Op>, size: nat)
    requires WellNamed(data) && Covers(data(0), ops)
    ensures Names(ops, FinalAddresses(data, size))
  {
    forall k | 0 <= k < |ops| && (ops[k].LoadAddress? || ops[k].Print?)
      ensures ops[k].name in FinalAddresses(data, size)
    {
      assert HasName(data(0), ops[k].name);
      var i :| 0 <= i < |data(0)| && data(0)[i].name == ops[k].name;
      assert data(size)[i].name == ops[k].name;
    }
  }

  /** Every name at the base address, as the sizing pass uses. */
  function Placeholders(d: seq<Datum>, k: nat): (a: map<string, int>)
    requires k <= |d|
    ensures forall i | 0 <= i < k :: d[i].name in a
  {
    if k == 0 then map[] else Placeholders(d, k - 1)[d[k - 1].name := BASE]
  }

  lemma PlaceholdersNamed(d: seq<Datum>, ops: seq<Op>)
    requires Covers(d, ops)
    ensures Names(ops, Placeholders(d, |d|))
  {
    forall k | 0 <= k < |ops| && (ops[k].LoadAddress? || ops[k].Print?)
      ensures ops[k].name in Placeholders(d, |d|)
    {
      assert HasName(d, ops[k].name);
      var i :| 0 <= i < |d| && d[i].name == ops[k].name;
    }
  }

  datatype ElfError = BuildFailed(error: Error) | SizeChanged | StackMisaligned

  datatype ElfResult = Image(bytes: seq<byte>) | Failed(why: ElfError)

  /** The program both passes agree on. */
  function FinalProgram(ops: seq<Op>, data: DataFor, size: nat): Program
    requires Names(ops, FinalAddresses(data, size))
  {
    ProgramOf(ops, |ops|, FinalAddresses(data, size))
  }

  /** Laid out for this code size, the code has this size. */
  predicate FixedPoint(ops: seq<Op>, data: DataFor, size: nat) {
    Names(ops, FinalAddresses(data, size)) && 4 * |FinalProgram(ops, data, size).items| == size
  }

  /** The size found with placeholder addresses is a fixed point, the only one. */
  lemma SizingPassIsFixedPoint(ops: seq<Op>, data: DataFor, size: nat)
    requires WellNamed(data) && Covers(data(0), ops)
    ensures Names(ops, Placeholders(data(0), |data(0)|))
    ensures FixedPoint(ops, data, size) <==>
            size == 4 * |ProgramOf(ops, |ops|, Placeholders(data(0), |data(0)|)).items|
  {
    PlaceholdersNamed(data(0), ops);
    AddressesNamed(data, ops, size);
    ShapeIndependent(ops, |ops|, Placeholders(data(0), |data(0)|), FinalAddresses(data, size));
  }

  /** The code size the first pass measures. */
  function MeasuredSize(ops: seq<Op>, data: DataFor): nat
    requires Covers(data(0), ops)
  {
    PlaceholdersNamed(data(0), ops);
    4 * |ProgramOf(ops, |ops|, Placeholders(data(0), |data(0)|)).items|
  }

  /** The `build_*_init_elf` functions. The size check never fires. */
  method BuildElf(ops: seq<Op>, data: DataFor) returns (r: ElfResult)
    requires WellNamed(data) && Covers(data(0), ops)
    ensures FixedPoint(ops, data, MeasuredSize(ops, data))
    ensures r.Image? ==> Linked(FinalProgram(ops, data, MeasuredSize(ops, data)))
    ensures r.Image? ==> r.bytes == Elf(Assembled(FinalProgram(ops, data, MeasuredSize(ops, data))),
                                        Join(data(MeasuredSize(ops, data))))
    ensures r.Failed? ==>
              || (r.why.BuildFailed?
                  && !(DistinctMarks(ops) && Linked(FinalProgram(ops, data, MeasuredSize(ops, data)))))
              || (r.why.StackMisaligned? && HasName(data(0), "child_stack")
                  && FinalAddresses(data, MeasuredSize(ops, data))["child_stack"] % 16 != 0)
  {
    hide Assembled, Linked, ProgramOf, Elf, DistinctMarks;
    var first := data(0);
    PlaceholdersNamed(first, ops);
    var placeholders := Placeholders(first, |first|);
    ghost var size := MeasuredSize(ops, data);
    SizingPassIsFixedPoint(ops, data, size);
    ShapeIndependent(ops, |ops|, placeholders, FinalAddresses(data, size));
    ShapeIndependent(ops, |ops|, FinalAddresses(data, size), placeholders);
    var sized := BuildCode(ops, placeholders);
    if sized.Err? {
      if Linked(FinalProgram(ops, data, size)) {
        SameShapeLinked(FinalProgram(ops, data, size), ProgramOf(ops, |ops|, placeholders));
      }
      return Failed(BuildFailed(sized.error));
    }
    var final := data(|sized.value|);
    var addresses := Addresses(|sized.value|, final);
    var code := BuildCode(ops, addresses);
    SameShapeLinked(ProgramOf(ops, |ops|, placeholders), FinalProgram(ops, data, size));
    if |code.value| != |sized.value| {
      return Failed(SizeChanged);
    }
    if "child_stack" in addresses && addresses["child_stack"] % 16 != 0 {
      AddressMapNames(data, size, "child_stack");
      return Failed(StackMisaligned);
    }
    return Image(Elf(code.value, Join(final)));
  }

  lemma {:induction false} AddressMapOnly(codeSize: nat, d: seq<Datum>, k: nat, name: string)
    requires k <= |d| && name in AddressMap(codeSize, d, k)
    ensures exists i | 0 <= i < k :: d[i].name == name
  {
    if d[k - 1].name != name {
      AddressMapOnly(codeSize, d, k - 1, name);
    }
  }

  lemma AddressMapNames(data: DataFor, size: nat, name: string)
    requires WellNamed(data) && name in FinalAddresses(data, size)
    ensures HasName(data(0), name)
  {
    AddressMapOnly(size, data(size), |data(size)|, name);
    var i :| 0 <= i < |data(size)| && data(size)[i].name == name;
    assert data(0)[i].name == name;
  }

  // ----- executing the image -----

  /** No branch and no trap: execution falls through. */
  predicate Plain(i: Instr) { !i.B? && !i.BCond? && !i.Svc? }

  lemma PlainFallsThrough(i: Instr, cpu: Cpu, mem: Memory)
    requires cpu.Valid() && Plain(i)
    ensures !Exec(i, cpu, mem).Trapped?
    ensures Exec(i, cpu, mem).Running? ==> Exec(i, cpu, mem).cpu.Valid() && Exec(i, cpu, mem).cpu.pc == cpu.pc + 4
  {
  }

  /** Straight-line code in a program runs as its instructions do. */
  lemma {:induction false} RunStraight(p: Program, kernel: Kernel, instrs: seq<Instr>, cpu: Cpu, mem: Memory,
                                       traps: nat)
    requires cpu.Valid() && cpu.pc >= 0 && cpu.pc % 4 == 0
    requires cpu.pc / 4 + |instrs| <= |p.items|
    requires p.items[cpu.pc / 4..cpu.pc / 4 + |instrs|] == Encoded(instrs)
    requires forall k | 0 <= k < |instrs| :: Plain(instrs[k])
    requires ExecAll(instrs, cpu, mem).Running?
    ensures var e := ExecAll(instrs, cpu, mem);
            RunLabelled(p, kernel, Assembler.At(cpu, mem, traps), |instrs|) == Assembler.At(e.cpu, e.mem, traps)
    decreases |instrs|
  {
    hide Exec, Encode, Decode;
    if instrs != [] {
      var w := p.items[cpu.pc / 4];
      assert w == Encoded(instrs)[0];
      DecodeEncode(instrs[0]);
      PlainFallsThrough(instrs[0], cpu, mem);
      var e := Exec(instrs[0], cpu, mem);
      assert e.cpu.pc / 4 == cpu.pc / 4 + 1;
      assert p.items[e.cpu.pc / 4..e.cpu.pc / 4 + |instrs| - 1] == Encoded(instrs)[1..];
      assert Encoded(instrs)[1..] == Encoded(instrs[1..]);
      RunStraight(p, kernel, instrs[1..], e.cpu, e.mem, traps);
    }
  }

  lemma {:induction false} OpPlaced(ops: seq<Op>, k: nat, n: nat, a: map<string, int>)
    requires k < n <= |ops| && Names(ops, a)
    ensures var start := |ProgramOf(ops, k, a).items|;
            var p := ProgramOf(ops, n, a);
            && start + |Items(ops[k], a)| <= |p.items|
            && p.items[start..start + |Items(ops[k], a)|] == Items(ops[k], a)
  {
    hide Items;
    if k < n - 1 {
      OpPlaced(ops, k, n - 1, a);
      var start, m := |ProgramOf(ops, k, a).items|, |Items(ops[k], a)|;
      assert ProgramOf(ops, n, a).items[start..start + m] == ProgramOf(ops, n - 1, a).items[start..start + m];
    }
  }

  /** Running the final code bytes from any address load leaves in the register
      the address at which the final image holds that datum's bytes. */
  lemma LoadedAddressHoldsDatum(ops: seq<Op>, data: DataFor, size: nat, k: nat, i: nat,
                                kernel: Kernel, cpu: Cpu, mem: Memory, traps: nat)
    requires WellNamed(data) && Covers(data(0), ops) && FixedPoint(ops, data, size)
    requires Linked(FinalProgram(ops, data, size))
    requires DistinctNames(data(size))
    requires k < |ops| && i < |data(size)| && ops[k].LoadAddress? && ops[k].name == data(size)[i].name
    requires cpu.Valid() && cpu.pc == 4 * |ProgramOf(ops, k, FinalAddresses(data, size)).items|
    ensures var code := Assembled(FinalProgram(ops, data, size));
            var image := Elf(code, Join(data(size)));
            var a := Layout.Address(size, data(size), i);
            && RunCode(code, kernel, Assembler.At(cpu, mem, traps), 4)
               == Assembler.At(cpu.(pc := cpu.pc + 16).Set(ops[k].rd, a + ops[k].plus), mem, traps)
            && a - BASE + |data(size)[i].value| <= |image|
            && Layout.At(image, a, |data(size)[i].value|) == data(size)[i].value
  {
    hide Exec, ExecAll, MovImm, RunCode, RunLabelled, Linked, Elf, Encoded, Assembled, Cpu.Set, ProgramOf, Plain;
    var p := FinalProgram(ops, data, size);
    var addresses := FinalAddresses(data, size);
    var op := ops[k];
    AddressMapAt(size, data(size), |data(size)|, i);
    ImageHolds(Assembled(p), data(size), i);
    AssemblyPreservesRuns(p, kernel, Assembler.At(cpu, mem, traps), 4);
    OpPlaced(ops, k, |ops|, addresses);
    var instrs := MovImm(op.rd, addresses[op.name] + op.plus);
    MovImmPlain(op.rd, addresses[op.name] + op.plus);
    MovImmLoads(op.rd, addresses[op.name] + op.plus, cpu, mem);
    RunStraight(p, kernel, instrs, cpu, mem, traps);
  }

  lemma MovImmPlain(rd: reg, value: int)
    ensures |MovImm(rd, value)| == 4 && forall k | 0 <= k < 4 :: Plain(MovImm(rd, value)[k])
  {
  }
}
