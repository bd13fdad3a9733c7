/** Straight-line instruction sequences: loading a 64-bit constant, and the
    chunked `write` calls that print a marker. */
module Syscalls {
  import opened Bytes
  import opened A64
  import opened Machine
  import opened Assembler

  const TWO16: nat := 0x1_0000
  const TWO64: nat := 0x1_0000_0000_0000_0000

  const SYSCALL_WRITE: imm16 := 64
  const SERIAL_CHUNK: nat := 16

  /** `mov_imm_64`: one MOVZ and three MOVKs, whatever the value. */
  function MovImm(rd: reg, value: int): (ws: seq<Instr>)
    ensures |ws| == 4
  {
    [Movz(rd, value % TWO16, 0),
     Movk(rd, value / TWO16 % TWO16, 1),
     Movk(rd, value / 0x1_0000_0000 % TWO16, 2),
     Movk(rd, value / 0x1_0000_0000_0000 % TWO16, 3)]
  }

  /** Executing instructions one after the other, up to the first trap. */
  function ExecAll(ws: seq<Instr>, cpu: Cpu, mem: Memory): Effect
    requires cpu.Valid()
  {
    if ws == [] then Running(cpu, mem)
    else
      var e := Exec(ws[0], cpu, mem);
      if e.Running? && e.cpu.Valid() then ExecAll(ws[1..], e.cpu, e.mem) else e
  }

  lemma Lanes(value: int)
    ensures var v0, v1, v2, v3 := value % TWO16, value / TWO16 % TWO16,
                                  value / 0x1_0000_0000 % TWO16, value / 0x1_0000_0000_0000 % TWO16;
            value % TWO64 == v0 + v1 * TWO16 + v2 * 0x1_0000_0000 + v3 * 0x1_0000_0000_0000
  {
    var q1, q2, q3 := value / TWO16, value / 0x1_0000_0000, value / 0x1_0000_0000_0000;
    assert q1 / TWO16 == q2 && q2 / TWO16 == q3;
    assert value == value % TWO16 + TWO16 * q1;
    assert q1 == q1 % TWO16 + TWO16 * q2;
    assert q2 == q2 % TWO16 + TWO16 * q3;
    var q4 := q3 / TWO16;
    assert q3 == q3 % TWO16 + TWO16 * q4;
  }

  lemma MovzLoads(rd: reg, imm: imm16, cpu: Cpu, mem: Memory)
    requires cpu.Valid()
    ensures Exec(Movz(rd, imm, 0), cpu, mem) == Running(cpu.(pc := cpu.pc + 4).Set(rd, imm), mem)
  {
  }

  lemma MovkLoads(rd: reg, low: int, imm: imm16, hw: half, cpu: Cpu, pc: int, mem: Memory)
    requires cpu.Valid() && 0 <= low < Lane(hw)
    ensures Exec(Movk(rd, imm, hw), cpu.(pc := pc).Set(rd, low), mem)
         == Running(cpu.(pc := pc + 4).Set(rd, low + imm * Lane(hw)), mem)
  {
    var c := cpu.(pc := pc).Set(rd, low);
    assert c.Get(rd) == low && low / Lane(hw) == 0;
    assert c.Next().Set(rd, low + imm * Lane(hw)).x == cpu.Set(rd, low + imm * Lane(hw)).x;
  }

  lemma ExecCons(i: Instr, rest: seq<Instr>, cpu: Cpu, mem: Memory, cpu': Cpu, mem': Memory)
    requires cpu.Valid() && cpu'.Valid() && Exec(i, cpu, mem) == Running(cpu', mem')
    ensures ExecAll([i] + rest, cpu, mem) == ExecAll(rest, cpu', mem')
  {
    assert ([i] + rest)[1..] == rest;
  }

  /** The four instructions leave exactly the constant, modulo 2^64, in the
      register and touch nothing else. */
  lemma MovImmLoads(rd: reg, value: int, cpu: Cpu, mem: Memory)
    requires cpu.Valid()
    ensures ExecAll(MovImm(rd, value), cpu, mem) == Running(cpu.(pc := cpu.pc + 16).Set(rd, value), mem)
  {
    hide Exec, ExecAll, Cpu.Set;
    var ws := MovImm(rd, value);
    var w1 := ws[0].imm + ws[1].imm * TWO16;
    var w2 := w1 + ws[2].imm * 0x1_0000_0000;
    var w3 := w2 + ws[3].imm * 0x1_0000_0000_0000;
    MovzLoads(rd, ws[0].imm, cpu, mem);
    MovkLoads(rd, ws[0].imm, ws[1].imm, 1, cpu, cpu.pc + 4, mem);
    MovkLoads(rd, w1, ws[2].imm, 2, cpu, cpu.pc + 8, mem);
    MovkLoads(rd, w2, ws[3].imm, 3, cpu, cpu.pc + 12, mem);
    var c1 := cpu.(pc := cpu.pc + 4).Set(rd, ws[0].imm);
    var c2 := cpu.(pc := cpu.pc + 8).Set(rd, w1);
    var c3 := cpu.(pc := cpu.pc + 12).Set(rd, w2);
    var c4 := cpu.(pc := cpu.pc + 16).Set(rd, w3);
    ExecCons(ws[0], ws[1..], cpu, mem, c1, mem);
    ExecCons(ws[1], ws[2..], c1, mem, c2, mem);
    ExecCons(ws[2], ws[3..], c2, mem, c3, mem);
    ExecCons(ws[3], [], c3, mem, c4, mem);
    assert ws == [ws[0]] + ws[1..] && ws[1..] == [ws[1]] + ws[2..];
    assert ws[2..] == [ws[2]] + ws[3..] && ws[3..] == [ws[3]] + [];
    ExecNil(c4, mem);
    SetModulo(rd, value, w3, cpu.(pc := cpu.pc + 16));
  }

  lemma SetModulo(rd: reg, value: int, w3: int, cpu: Cpu)
    requires cpu.Valid()
    requires var ws := MovImm(rd, value);
             w3 == ws[0].imm + ws[1].imm * TWO16 + ws[2].imm * 0x1_0000_0000 + ws[3].imm * 0x1_0000_0000_0000
    ensures cpu.Set(rd, w3) == cpu.Set(rd, value)
  {
    Lanes(value);
  }

  lemma ExecNil(cpu: Cpu, mem: Memory)
    requires cpu.Valid()
    ensures ExecAll([], cpu, mem) == Running(cpu, mem)
  {
  }

  // ----- write(2) calls -----

  /** `write_syscall`. */
  function WriteSyscall(fd: imm16, buffer: int, size: imm16): (ws: seq<Instr>)
    ensures |ws| == 8
  {
    [Movz(0, fd, 0)] + MovImm(1, buffer) + [Movz(2, size, 0), Movz(8, SYSCALL_WRITE, 0), Svc]
  }

  lemma {:induction false} ExecAppend(a: seq<Instr>, b: seq<Instr>, cpu: Cpu, mem: Memory, cpu': Cpu, mem': Memory)
    requires cpu.Valid() && cpu'.Valid() && ExecAll(a, cpu, mem) == Running(cpu', mem')
    ensures ExecAll(a + b, cpu, mem) == ExecAll(b, cpu', mem')
  {
    hide Exec;
    if a == [] {
      assert a + b == b;
    } else {
      var e := Exec(a[0], cpu, mem);
      ExecAppend(a[1..], b, e.cpu, e.mem, cpu', mem');
      assert (a + b)[1..] == a[1..] + b;
    }
  }

  /** What the kernel sees: the call number and its first three arguments. */
  datatype Call = Call(number: u64, arg0: u64, arg1: u64, arg2: u64)

  function CallOf(cpu: Cpu): Call
    requires cpu.Valid()
  {
    Call(cpu.Get(8), cpu.Get(0), cpu.Get(1), cpu.Get(2))
  }

  /** Registers x0, x1, x2 and x8 set for one `write`. */
  function WriteRegisters(cpu: Cpu, fd: imm16, buffer: int, size: imm16): (c: Cpu)
    requires cpu.Valid()
    ensures c.Valid() && CallOf(c) == Call(SYSCALL_WRITE, fd, buffer % TWO64, size)
  {
    cpu.(pc := cpu.pc + 32).Set(0, fd).Set(1, buffer).Set(2, size).Set(8, SYSCALL_WRITE)
  }

  lemma MovzChain(cpu: Cpu, pc: int, rd: reg, imm: imm16, mem: Memory)
    requires cpu.Valid()
    ensures Exec(Movz(rd, imm, 0), cpu.(pc := pc), mem) == Running(cpu.Set(rd, imm).(pc := pc + 4), mem)
  {
  }

  /** One `write_syscall` traps exactly once, with its arguments in place. */
  lemma WriteSyscallTraps(fd: imm16, buffer: int, size: imm16, cpu: Cpu, mem: Memory)
    requires cpu.Valid()
    ensures ExecAll(WriteSyscall(fd, buffer, size), cpu, mem)
         == Trapped(WriteRegisters(cpu, fd, buffer, size), mem)
  {
    hide Exec, ExecAll, Cpu.Set, MovImm;
    var c0 := cpu.Set(0, fd);
    var c1 := c0.Set(1, buffer);
    var c2 := c1.Set(2, size);
    var c3 := c2.Set(8, SYSCALL_WRITE);
    var p := cpu.pc;
    var tail := [Movz(2, size, 0), Movz(8, SYSCALL_WRITE, 0), Svc];
    MovzChain(cpu, p, 0, fd, mem);
    assert cpu.(pc := p) == cpu;
    ExecCons(Movz(0, fd, 0), MovImm(1, buffer) + tail, cpu, mem, c0.(pc := p + 4), mem);
    assert WriteSyscall(fd, buffer, size) == [Movz(0, fd, 0)] + (MovImm(1, buffer) + tail);
    MovImmLoads(1, buffer, c0.(pc := p + 4), mem);
    SetPc(c0, p + 20, 1, buffer);
    ExecAppend(MovImm(1, buffer), tail, c0.(pc := p + 4), mem, c1.(pc := p + 20), mem);
    MovzChain(c1, p + 20, 2, size, mem);
    ExecCons(tail[0], tail[1..], c1.(pc := p + 20), mem, c2.(pc := p + 24), mem);
    assert tail == [tail[0]] + tail[1..];
    MovzChain(c2, p + 24, 8, SYSCALL_WRITE, mem);
    ExecCons(tail[1], [Svc], c2.(pc := p + 24), mem, c3.(pc := p + 28), mem);
    assert tail[1..] == [tail[1]] + [Svc];
    SvcTraps(c3.(pc := p + 28), mem);
    WriteRegistersPc(cpu, fd, buffer, size);
  }

  lemma SetPc(cpu: Cpu, pc: int, rd: reg, value: int)
    requires cpu.Valid()
    ensures cpu.(pc := pc).Set(rd, value) == cpu.Set(rd, value).(pc := pc)
  {
  }

  lemma WriteRegistersPc(cpu: Cpu, fd: imm16, buffer: int, size: imm16)
    requires cpu.Valid()
    ensures WriteRegisters(cpu, fd, buffer, size)
         == cpu.Set(0, fd).Set(1, buffer).Set(2, size).Set(8, SYSCALL_WRITE).(pc := cpu.pc + 32)
  {
  }

  lemma SvcTraps(cpu: Cpu, mem: Memory)
    requires cpu.Valid()
    ensures ExecAll([Svc], cpu, mem) == Trapped(cpu.(pc := cpu.pc + 4), mem)
  {
  }

  // ----- a whole marker, chunk by chunk -----

  datatype Chunk = Chunk(offset: nat, size: nat)

  /** How the rest of a marker is cut, from `offset` on. */
  function Chunks(offset: nat, size: nat): seq<Chunk>
    decreases size - offset
  {
    if offset >= size then []
    else
      var n := if size - offset < SERIAL_CHUNK then size - offset else SERIAL_CHUNK;
      [Chunk(offset, n)] + Chunks(offset + n, size)
  }

  function ChunkCalls(fd: imm16, buffer: int, chunks: seq<Chunk>): seq<Instr>
    requires forall c | c in chunks :: c.size <= SERIAL_CHUNK
  {
    if chunks == [] then []
    else WriteSyscall(fd, buffer + chunks[0].offset, chunks[0].size) + ChunkCalls(fd, buffer, chunks[1..])
  }

  /** Chunks follow one another without gap or overlap, none empty, none over
      the serial FIFO depth. */
  lemma {:induction false} ChunksCover(offset: nat, size: nat, data: seq<byte>)
    requires offset <= size == |data|
    ensures forall c | c in Chunks(offset, size) ::
              1 <= c.size <= SERIAL_CHUNK && offset <= c.offset && c.offset + c.size <= size
    ensures Written(data, Chunks(offset, size)) == data[offset..]
    decreases size - offset
  {
    if offset < size {
      var n := if size - offset < SERIAL_CHUNK then size - offset else SERIAL_CHUNK;
      ChunksCover(offset + n, size, data);
      assert Chunks(offset, size)[1..] == Chunks(offset + n, size);
      assert data[offset..] == data[offset..offset + n] + data[offset + n..];
    }
  }

  /** What reaches the terminal when each chunk of `data` is written. */
  function Written(data: seq<byte>, chunks: seq<Chunk>): seq<byte>
    requires forall c | c in chunks :: c.offset + c.size <= |data|
  {
    if chunks == [] then []
    else data[chunks[0].offset..chunks[0].offset + chunks[0].size] + Written(data, chunks[1..])
  }

  /** The calls from `offset` on are one call and the rest. */
  lemma ChunkCallsStep(fd: imm16, buffer: int, offset: nat, size: nat)
    requires offset <= size
    ensures forall c | c in Chunks(offset, size) :: c.size <= SERIAL_CHUNK
    ensures offset < size ==>
              var n := if size - offset < SERIAL_CHUNK then size - offset else SERIAL_CHUNK;
              && (forall c | c in Chunks(offset + n, size) :: c.size <= SERIAL_CHUNK)
              && ChunkCalls(fd, buffer, Chunks(offset, size))
                 == WriteSyscall(fd, buffer + offset, n) + ChunkCalls(fd, buffer, Chunks(offset + n, size))
    ensures offset == size ==> ChunkCalls(fd, buffer, Chunks(offset, size)) == []
  {
    hide WriteSyscall;
    ChunksCover(offset, size, Zeros(size));
    if offset < size {
      var n := if size - offset < SERIAL_CHUNK then size - offset else SERIAL_CHUNK;
      ChunksCover(offset + n, size, Zeros(size));
      assert Chunks(offset, size)[1..] == Chunks(offset + n, size);
    }
  }

  /** `write_syscalls`. */
  method WriteSyscalls(fd: imm16, buffer: int, size: nat) returns (code: seq<Instr>)
    ensures forall c | c in Chunks(0, size) :: c.size <= SERIAL_CHUNK
    ensures code == ChunkCalls(fd, buffer, Chunks(0, size))
  {
    hide WriteSyscall, Chunks, ChunkCalls;
    code := [];
    var offset := 0;
    ChunkCallsStep(fd, buffer, 0, size);
    ghost var whole := ChunkCalls(fd, buffer, Chunks(0, size));
    while offset < size
      invariant offset <= size
      invariant forall c | c in Chunks(offset, size) :: c.size <= SERIAL_CHUNK
      invariant code + ChunkCalls(fd, buffer, Chunks(offset, size)) == whole
    {
      var n := if size - offset < SERIAL_CHUNK then size - offset else SERIAL_CHUNK;
      ChunkCallsStep(fd, buffer, offset, size);
      var call := WriteSyscall(fd, buffer + offset, n);
      ghost var rest := ChunkCalls(fd, buffer, Chunks(offset + n, size));
      assert code + (call + rest) == code + call + rest;
      code := code + call;
      offset := offset + n;
    }
    ChunkCallsStep(fd, buffer, size, size);
  }

  /** The system calls made by instructions executed in order under a kernel. */
  function Trace(ws: seq<Instr>, cpu: Cpu, mem: Memory, kernel: Kernel, traps: nat): seq<Call>
    requires cpu.Valid()
  {
    if ws == [] then []
    else
      match Exec(ws[0], cpu, mem)
      case Running(c, m) => if c.Valid() then Trace(ws[1..], c, m, kernel, traps) else []
      case Trapped(c, m) =>
        var (c', m') := kernel(traps, c, m);
        if c.Valid() then [CallOf(c)] + (if c'.Valid() then Trace(ws[1..], c', m', kernel, traps + 1) else [])
        else []
      case Fault => []
  }

  ghost predicate KeepsCpus(kernel: Kernel) {
    forall n: nat, c: Cpu, m: Memory :: c.Valid() ==> kernel(n, c, m).0.Valid()
  }

  /** Up to the first trap, the trace follows ExecAll. */
  lemma {:induction false} TraceToTrap(a: seq<Instr>, b: seq<Instr>, cpu: Cpu, mem: Memory, kernel: Kernel, traps: nat)
    requires cpu.Valid() && KeepsCpus(kernel)
    requires ExecAll(a, cpu, mem).Trapped? && ExecAll(a, cpu, mem).cpu.Valid()
    requires a != [] && a[|a| - 1] == Svc && forall k | 0 <= k < |a| - 1 :: a[k] != Svc
    ensures var t := ExecAll(a, cpu, mem);
            var (c', m') := kernel(traps, t.cpu, t.mem);
            Trace(a + b, cpu, mem, kernel, traps) == [CallOf(t.cpu)] + Trace(b, c', m', kernel, traps + 1)
  {
    assert (a + b)[0] == a[0] && (a + b)[1..] == a[1..] + b;
    if |a| == 1 {
      assert a[1..] + b == b;
    } else {
      var e := Exec(a[0], cpu, mem);
      assert a[0] != Svc;
      TraceToTrap(a[1..], b, e.cpu, e.mem, kernel, traps);
    }
  }

  function CallsFor(fd: imm16, buffer: int, chunks: seq<Chunk>): seq<Call>
    requires forall c | c in chunks :: c.size <= SERIAL_CHUNK
  {
    if chunks == [] then []
    else [Call(SYSCALL_WRITE, fd, (buffer + chunks[0].offset) % TWO64, chunks[0].size)]
         + CallsFor(fd, buffer, chunks[1..])
  }

  /** Executing the emitted code makes exactly one `write` per chunk, in
      order, whatever the kernel answers. */
  lemma {:induction false} ChunkCallsTrace(fd: imm16, buffer: int, chunks: seq<Chunk>,
                                           cpu: Cpu, mem: Memory, kernel: Kernel, traps: nat)
    requires cpu.Valid() && KeepsCpus(kernel)
    requires forall c | c in chunks :: c.size <= SERIAL_CHUNK
    ensures Trace(ChunkCalls(fd, buffer, chunks), cpu, mem, kernel, traps) == CallsFor(fd, buffer, chunks)
    decreases |chunks|
  {
    hide Exec, ExecAll, Cpu.Set, Trace;
    if chunks == [] {
      TraceNil(cpu, mem, kernel, traps);
    } else {
      var a := WriteSyscall(fd, buffer + chunks[0].offset, chunks[0].size);
      WriteSyscallTraps(fd, buffer + chunks[0].offset, chunks[0].size, cpu, mem);
      var t := ExecAll(a, cpu, mem);
      var (c', m') := kernel(traps, t.cpu, t.mem);
      TraceToTrap(a, ChunkCalls(fd, buffer, chunks[1..]), cpu, mem, kernel, traps);
      ChunkCallsTrace(fd, buffer, chunks[1..], c', m', kernel, traps + 1);
    }
  }

  lemma TraceNil(cpu: Cpu, mem: Memory, kernel: Kernel, traps: nat)
    requires cpu.Valid()
    ensures Trace([], cpu, mem, kernel, traps) == []
  {
  }
}
