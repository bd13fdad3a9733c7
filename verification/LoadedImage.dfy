/** An image as the loader leaves it: entered at its code, every datum in memory
    where the address map says. */
module LoadedImage {
  import opened Bytes
  import opened Machine
  import opened Layout
  import opened Blocks
  import opened ElfLoader

  predicate Loaded(mem: Memory, image: seq<byte>) { Holds(mem, BASE, image) }

  lemma SliceLoaded(mem: Memory, image: seq<byte>, a: int, v: seq<byte>)
    requires Loaded(mem, image) && BASE <= a && a - BASE + |v| <= |image| && At(image, a, |v|) == v
    ensures Holds(mem, a, v)
  {
    forall b | a <= b < a + |v| ensures b in mem && mem[b] == v[b - a] {
      assert At(image, a, |v|)[b - a] == image[b - BASE];
    }
  }

  lemma DatumLoaded(code: seq<byte>, d: seq<Datum>, mem: Memory, i: nat)
    requires i < |d| && DistinctNames(d) && Loaded(mem, Elf(code, Join(d)))
    ensures var a := AddressMap(|code|, d, |d|);
            && d[i].name in a && a[d[i].name] == Address(|code|, d, i) && Holds(mem, a[d[i].name], d[i].value)
  {
    hide Elf, Join, AddressMap, Holds, Extent, Loaded, At, DistinctNames;
    AddressMapAt(|code|, d, |d|, i);
    ImageHolds(code, d, i);
    SliceLoaded(mem, Elf(code, Join(d)), Address(|code|, d, i), d[i].value);
  }

  predicate InImage(image: seq<byte>, b: int) { BASE <= b < BASE + |image| }

  /** Some memory holds an image. */
  lemma SomeMemory(image: seq<byte>) returns (mem: Memory)
    ensures Loaded(mem, image)
  {
    mem := map b | BASE <= b < BASE + |image| && InImage(image, b) :: image[b - BASE];
  }

  lemma {:induction false} JoinSize(d: seq<Datum>)
    ensures |Join(d)| == Extent(d, |d|)
    decreases |d|
  {
    if d != [] {
      JoinSize(d[1..]);
      ExtentShift(d, |d|);
    }
  }

  // ----- what the loader leaves -----

  /** The machine's program counter counts from here. */
  const CODE_ADDRESS: int := 0x40_0100

  predicate Maps(mem: Memory, s: Segment) {
    && |s.bytes| <= s.size && Holds(mem, s.address, s.bytes)
    && Holds(mem, s.address + |s.bytes|, Zeros(s.size - |s.bytes|))
  }

  /** The loader accepts the image, memory holds what it maps, readable,
      writable and executable, and the CPU is at the entry it names. */
  predicate Entered(image: seq<byte>, cpu: Cpu, mem: Memory) {
    && LoadElf(image).Some?
    && var p := LoadElf(image).value;
       && p.segment.readable && p.segment.writable && p.segment.executable && Maps(mem, p.segment)
       && cpu.Valid() && CODE_ADDRESS + cpu.pc == p.entry
  }

  /** So the CPU is at the first instruction, which lies where it counts from. */
  lemma EntersCode(code: seq<byte>, data: seq<byte>, cpu: Cpu, mem: Memory)
    requires CODE_OFFSET + |code| + |data| < 0x1_0000_0000_0000_0000 && Entered(Elf(code, data), cpu, mem)
    ensures cpu.Valid() && cpu.pc == 0 && Loaded(mem, Elf(code, data)) && Holds(mem, CODE_ADDRESS, code)
  {
    hide Elf, LoadElf;
    ElfLoads(code, data);
    var image := Elf(code, data);
    forall b | CODE_ADDRESS <= b < CODE_ADDRESS + |code| ensures b in mem && mem[b] == code[b - CODE_ADDRESS] {
      assert image[0x100..0x100 + |code|][b - CODE_ADDRESS] == image[b - BASE];
    }
  }

  lemma SomeEntry(code: seq<byte>, data: seq<byte>) returns (cpu: Cpu, mem: Memory)
    requires CODE_OFFSET + |code| + |data| < 0x1_0000_0000_0000_0000
    ensures Entered(Elf(code, data), cpu, mem)
  {
    hide Elf, LoadElf;
    ElfLoads(code, data);
    mem := SomeMemory(Elf(code, data));
    cpu := Cpu(seq(31, _ => 0), Flags(false, false, false, false), 0);
  }
}
