/** What the two-CPU images share: data and a stack behind assembled code, loaded
    at their addresses. */
module PairImage {
  import opened Bytes
  import opened A64
  import opened Machine
  import opened Assembler
  import opened Syscalls
  import opened Layout
  import opened Blocks
  import opened Templates
  import opened GuestElf
  import opened SmpData
  import opened LoadedImage
  import opened Duo
  import opened DuoOps

  // ----- the code -----

  predicate Short(op: Op) { !op.Print? && (op.Code? ==> |op.instrs| <= 4) }

  lemma {:induction false} PosShort(ops: seq<Op>, a: map<string, int>, k: nat)
    requires k <= |ops| && Names(ops, a) && forall j | 0 <= j < |ops| :: Short(ops[j])
    ensures Pos(ops, k, a) <= 4 * k
  {
    if k > 0 {
      PosShort(ops, a, k - 1);
      PosNext(ops, k - 1, a);
    }
  }

  /** A short template links for every address map. */
  lemma ShortLinks(ops: seq<Op>, a: map<string, int>)
    requires Names(ops, a) && Targeted(ops) && DistinctMarks(ops) && |ops| < 0x1_0000
    requires forall j | 0 <= j < |ops| :: Short(ops[j])
    ensures Linked(Prog(ops, a)) && |Prog(ops, a).items| <= 4 * |ops|
  {
    hide Targeted, DistinctMarks, Names, ProgramOf, Short, Linked;
    PosShort(ops, a, |ops|);
    TemplateLinked(ops, a);
  }

  // ----- the data -----

  /** All addresses are small. */
  lemma AddressesFit(size: nat, d: seq<Datum>)
    requires size + Extent(d, |d|) < 0x1000_0000 && DistinctNames(d)
    ensures var a := AddressMap(size, d, |d|); forall n | n in a :: 0 <= a[n] && a[n] + 0x1_0000 < TWO64
  {
    hide Extent, AddressMap, DistinctNames;
    var a := AddressMap(size, d, |d|);
    forall n | n in a ensures 0 <= a[n] && a[n] + 0x1_0000 < TWO64 {
      AddressMapOnly(size, d, |d|, n);
      var i :| 0 <= i < |d| && d[i].name == n;
      AddressMapAt(size, d, |d|, i);
      ExtentMonotone(d, i, |d|);
    }
  }

  /** A zero word. */
  lemma ZeroWord(mem: Memory, a: int)
    requires Holds(mem, a, Zeros(4))
    ensures Mapped(mem, a) && Load32(mem, a) == 0
  {
    assert Zeros(4)[0] == 0 && Zeros(4)[1] == 0 && Zeros(4)[2] == 0 && Zeros(4)[3] == 0;
  }

  /** Some kernel keeps the conventions: one that refuses every call. */
  lemma SomeKernel() returns (kernel: Kernel)
    ensures Keeps2(kernel)
  {
    kernel := (_: nat, c: Cpu, m: Memory) => (if c.Valid() then c.(x := c.x[0 := 2]) else c, m);
  }
}
