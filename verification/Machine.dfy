/** What executing one A64 instruction of the subset does to a CPU and its
    memory. */
module Machine {
  import opened Bytes
  import opened A64

  // ----- execution -----

  type u64 = x: int | 0 <= x < 0x1_0000_0000_0000_0000

  datatype Flags = Flags(n: bool, z: bool, c: bool, v: bool)

  /** `pc` is the byte offset of the next instruction in the code. */
  datatype Cpu = Cpu(x: seq<u64>, flags: Flags, pc: int) {
    predicate Valid() { |x| == 31 }

    function Get(r: reg): u64 requires Valid() { x[r] }

    function Set(r: reg, value: int): (cpu: Cpu)
      requires Valid()
      ensures cpu.Valid()
    {
      this.(x := x[r := value % 0x1_0000_0000_0000_0000])
    }

    function Next(): Cpu { this.(pc := pc + 4) }
  }

  type Memory = map<int, byte>

  datatype Effect =
    | Running(cpu: Cpu, mem: Memory)
    | Trapped(cpu: Cpu, mem: Memory)
    | Fault

  /** Flags of `left - right` on operands of the given width. */
  function SubtractFlags(left: int, right: int, modulus: nat): Flags
    requires modulus > 1
    requires 0 <= left < modulus && 0 <= right < modulus
  {
    var diff := (left - right) % modulus;
    var negative := 2 * diff >= modulus;
    Flags(negative, left == right, left >= right,
          (2 * left >= modulus) != (2 * right >= modulus) && (2 * left >= modulus) != negative)
  }

  predicate ConditionHolds(c: cond, f: Flags) {
    var even :=
      match c / 2
      case 0 => f.z
      case 1 => f.c
      case 2 => f.n
      case 3 => f.v
      case 4 => f.c && !f.z
      case 5 => f.n == f.v
      case 6 => f.n == f.v && !f.z
      case _ => true;
    if c % 2 == 0 || c == 15 then even else !even
  }

  /** The value of an operand below `2 * half` in two's complement. */
  function Signed(x: int, half: nat): int { if x < half then x else x - 2 * half }

  /** The flags of a comparison: equal, unsigned not below, the sign of the
      difference, and whether the signed difference does not fit. */
  lemma FlagsMean(left: int, right: int, half: nat)
    requires half > 0 && 0 <= left < 2 * half && 0 <= right < 2 * half
    ensures var f, d := SubtractFlags(left, right, 2 * half), Signed(left, half) - Signed(right, half);
            && (f.z <==> left == right) && (f.c <==> left >= right)
            && (f.v <==> d < 0 - half || d >= half)
            && (f.n <==> if f.v then d >= 0 else d < 0)
  {
    var d := left - right;
    if d >= 0 {
      SmallRemainder(d, 2 * half);
    } else {
      SmallRemainder(d + 2 * half, 2 * half);
      WrappedRemainder(d, 2 * half);
    }
  }

  lemma SmallRemainder(x: int, m: int)
    requires 0 <= x < m
    ensures x % m == x
  {
  }

  lemma WrappedRemainder(x: int, m: int)
    requires m > 0
    ensures x % m == (x + m) % m
  {
    var q := x / m;
    assert x + m == m * (q + 1) + x % m;
    Remainder(x + m, m, q + 1, x % m);
  }

  lemma Remainder(x: int, m: int, q: int, r: int)
    requires m > 0 && x == m * q + r && 0 <= r < m
    ensures x % m == r
  {
    assert m * (x / m - q) == r - x % m;
    SmallMultiple(m, x / m - q);
  }

  /** What each condition means after a comparison, in unsigned and in signed
      terms. */
  lemma ConditionsMean(left: int, right: int, half: nat, c: cond)
    requires half > 0 && 0 <= left < 2 * half && 0 <= right < 2 * half
    ensures var f, l, r := SubtractFlags(left, right, 2 * half), Signed(left, half), Signed(right, half);
            && (c == 0 ==> (ConditionHolds(c, f) <==> left == right))
            && (c == 1 ==> (ConditionHolds(c, f) <==> left != right))
            && (c == 2 ==> (ConditionHolds(c, f) <==> left >= right))
            && (c == 3 ==> (ConditionHolds(c, f) <==> left < right))
            && (c == 4 && 0 - half <= l - r < half ==> (ConditionHolds(c, f) <==> l < r))
            && (c == 5 && 0 - half <= l - r < half ==> (ConditionHolds(c, f) <==> l >= r))
            && (c == 6 ==> (ConditionHolds(c, f) <==> !(0 - half <= l - r < half)))
            && (c == 7 ==> (ConditionHolds(c, f) <==> 0 - half <= l - r < half))
            && (c == 8 ==> (ConditionHolds(c, f) <==> left > right))
            && (c == 9 ==> (ConditionHolds(c, f) <==> left <= right))
            && (c == 10 ==> (ConditionHolds(c, f) <==> l >= r))
            && (c == 11 ==> (ConditionHolds(c, f) <==> l < r))
            && (c == 12 ==> (ConditionHolds(c, f) <==> l > r))
            && (c == 13 ==> (ConditionHolds(c, f) <==> l <= r))
            && (c >= 14 ==> ConditionHolds(c, f))
  {
    hide SubtractFlags;
    FlagsMean(left, right, half);
  }

  predicate Mapped(mem: Memory, a: int) {
    a in mem && a + 1 in mem && a + 2 in mem && a + 3 in mem
  }

  function Load32(mem: Memory, a: int): word
    requires Mapped(mem, a)
  {
    Unpack([mem[a], mem[a + 1], mem[a + 2], mem[a + 3]])
  }

  function Store32(mem: Memory, a: int, w: word): Memory {
    var s := Pack(w);
    mem[a := s[0]][a + 1 := s[1]][a + 2 := s[2]][a + 3 := s[3]]
  }

  /** `hw` selects which 16-bit lane MOVK replaces. */
  function Lane(hw: half): (p: nat)
    ensures p > 0
  {
    if hw == 0 then 1 else if hw == 1 then 0x1_0000
    else if hw == 2 then 0x1_0000_0000 else 0x1_0000_0000_0000
  }

  function InsertLane(old_: u64, imm: imm16, hw: half): int {
    var p := Lane(hw);
    old_ - (old_ / p % 0x1_0000) * p + imm * p
  }

  /** One instruction. LDAR and STLR fault on a misaligned word; every load
      and store faults outside mapped memory. */
  function Exec(i: Instr, cpu: Cpu, mem: Memory): Effect
    requires cpu.Valid()
  {
    var next := cpu.Next();
    match i
    case Movz(rd, imm, hw) => Running(next.Set(rd, imm * Lane(hw)), mem)
    case Movk(rd, imm, hw) => Running(next.Set(rd, InsertLane(cpu.Get(rd), imm, hw)), mem)
    case MovReg(rd, rm) => Running(next.Set(rd, cpu.Get(rm)), mem)
    case Svc => Trapped(next, mem)
    case CmpImm(rn, u) =>
      Running(next.(flags := SubtractFlags(cpu.Get(rn), u, 0x1_0000_0000_0000_0000)), mem)
    case AddImm32(rd, rn, u) =>
      var value: int := cpu.Get(rn);
      Running(next.Set(rd, (value % 0x1_0000_0000 + u) % 0x1_0000_0000), mem)
    case AddImm64(rd, rn, u) =>
      var value: int := cpu.Get(rn);
      Running(next.Set(rd, value + u), mem)
    case SubImm64(rd, rn, u) =>
      var value: int := cpu.Get(rn);
      Running(next.Set(rd, value - u), mem)
    case AddReg64(rd, rn, rm) =>
      var left: int, right: int := cpu.Get(rn), cpu.Get(rm);
      Running(next.Set(rd, left + right), mem)
    case SubReg64(rd, rn, rm) =>
      var left: int, right: int := cpu.Get(rn), cpu.Get(rm);
      Running(next.Set(rd, left - right), mem)
    case CmpReg32(rn, rm) =>
      var left: int, right: int := cpu.Get(rn), cpu.Get(rm);
      Running(next.(flags := SubtractFlags(left % 0x1_0000_0000, right % 0x1_0000_0000, 0x1_0000_0000)), mem)
    case CmpReg64(rn, rm) =>
      Running(next.(flags := SubtractFlags(cpu.Get(rn), cpu.Get(rm), 0x1_0000_0000_0000_0000)), mem)
    case Ldr32(rd, rn) =>
      var a := cpu.Get(rn);
      if Mapped(mem, a) then Running(next.Set(rd, Load32(mem, a)), mem) else Fault
    case Ldrb(rd, rn) =>
      var a := cpu.Get(rn);
      if a in mem then Running(next.Set(rd, mem[a]), mem) else Fault
    case Ldar32(rd, rn) =>
      var a := cpu.Get(rn);
      if a % 4 == 0 && Mapped(mem, a) then Running(next.Set(rd, Load32(mem, a)), mem) else Fault
    case Stlr32(rs, rn) =>
      var a := cpu.Get(rn);
      if a % 4 == 0 && Mapped(mem, a) then Running(next, Store32(mem, a, cpu.Get(rs) % 0x1_0000_0000)) else Fault
    case B(disp) => Running(cpu.(pc := cpu.pc + 4 * disp), mem)
    case BCond(c, disp) =>
      Running(if ConditionHolds(c, cpu.flags) then cpu.(pc := cpu.pc + 4 * disp) else next, mem)
  }

  /** A word outside the subset faults. */
  function ExecWord(w: word, cpu: Cpu, mem: Memory): Effect
    requires cpu.Valid()
  {
    match Decode(w)
    case Known(i) => Exec(i, cpu, mem)
    case Unknown => Fault
  }
}
