/** The one-pass label assembler: branches are emitted as four zero bytes and
    patched once every label is known. */
module Assembler {
  import opened Bytes
  import opened A64
  import opened Machine

  /** What one emitted word stands for. */
  datatype Item =
    | Raw(w: word)
    | ToIf(name: string, c: cond)
    | To(name: string)

  /** The labelled program a sequence of builder calls describes. Labels are
      word indices; a label may stand after the last word. */
  datatype Program = Program(items: seq<Item>, labels: map<string, nat>) {
    predicate Valid() {
      forall l | l in labels :: labels[l] <= |items|
    }
  }

  datatype Error =
    | MisalignedEmission
    | DuplicateLabel
    | InvalidCondition
    | UnknownLabel
    | MisalignedTarget
    | OutOfRange

  datatype Result<T> = Ok(value: T) | Err(error: Error)

  // ----- what a program assembles to -----

  /** Word displacement from item `i` to its label. */
  function Displacement(p: Program, i: nat, name: string): int
    requires name in p.labels
  {
    p.labels[name] - i
  }

  predicate Resolves(p: Program, i: nat)
    requires i < |p.items|
  {
    match p.items[i]
    case Raw(_) => true
    case ToIf(l, _) => l in p.labels && -0x4_0000 <= Displacement(p, i, l) < 0x4_0000
    case To(l) => l in p.labels && -0x200_0000 <= Displacement(p, i, l) < 0x200_0000
  }

  /** Every branch names a known label within its reach. */
  predicate Linked(p: Program) {
    forall i | 0 <= i < |p.items| :: Resolves(p, i)
  }

  function LinkedWord(p: Program, i: nat): word
    requires i < |p.items| && Resolves(p, i)
  {
    match p.items[i]
    case Raw(w) => w
    case ToIf(l, c) => EncodeCondBranch(Displacement(p, i, l), c)
    case To(l) => EncodeBranch(Displacement(p, i, l))
  }

  function Words(s: seq<word>): (b: seq<byte>)
    ensures |b| == 4 * |s|
  {
    if s == [] then [] else Words(s[..|s| - 1]) + Pack(s[|s| - 1])
  }

  /** The four bytes of word `i`. */
  function WordAt(b: seq<byte>, i: nat): word
    requires 4 * i + 4 <= |b|
  {
    Unpack(b[4 * i..4 * i + 4])
  }

  function Assembled(p: Program): (b: seq<byte>)
    requires Linked(p)
    ensures |b| == 4 * |p.items|
  {
    Words(seq(|p.items|, i requires 0 <= i < |p.items| => LinkedWord(p, i)))
  }

  lemma {:induction false} WordsAt(s: seq<word>, i: nat)
    requires i < |s|
    ensures WordAt(Words(s), i) == s[i]
  {
    var init := s[..|s| - 1];
    if i == |s| - 1 {
      assert Words(s)[4 * i..4 * i + 4] == Pack(s[i]);
    } else {
      WordsAt(init, i);
      assert Words(s)[4 * i..4 * i + 4] == Words(init)[4 * i..4 * i + 4];
    }
  }

  lemma AssembledAt(p: Program, i: nat)
    requires Linked(p) && i < |p.items|
    ensures WordAt(Assembled(p), i) == LinkedWord(p, i)
  {
    WordsAt(seq(|p.items|, j requires 0 <= j < |p.items| => LinkedWord(p, j)), i);
  }

  /** Byte strings of whole words are equal when their words are. */
  lemma EqualWords(a: seq<byte>, b: seq<byte>, n: nat)
    requires |a| == |b| == 4 * n
    requires forall i | 0 <= i < n :: WordAt(a, i) == WordAt(b, i)
    ensures a == b
  {
    forall k | 0 <= k < |a| ensures a[k] == b[k] {
      var i := k / 4;
      assert WordAt(a, i) == WordAt(b, i);
      UnpackPack(a[4 * i..4 * i + 4]);
      UnpackPack(b[4 * i..4 * i + 4]);
      assert a[4 * i..4 * i + 4][k - 4 * i] == b[4 * i..4 * i + 4][k - 4 * i];
    }
  }

  // ----- the machine on the bytes, and the labelled program -----

  function Step(code: seq<byte>, cpu: Cpu, mem: Memory): Effect
    requires cpu.Valid()
  {
    if cpu.pc % 4 != 0 || cpu.pc < 0 || cpu.pc + 4 > |code| then Fault
    else ExecWord(WordAt(code, cpu.pc / 4), cpu, mem)
  }

  /** A branch to a label continues at the label, whatever its distance. */
  function LabelledStep(p: Program, cpu: Cpu, mem: Memory): Effect
    requires cpu.Valid()
  {
    if cpu.pc % 4 != 0 || cpu.pc < 0 || cpu.pc + 4 > 4 * |p.items| then Fault
    else
      match p.items[cpu.pc / 4]
      case Raw(w) => ExecWord(w, cpu, mem)
      case ToIf(l, c) =>
        if !ConditionHolds(c, cpu.flags) then Running(cpu.Next(), mem)
        else if l in p.labels then Running(cpu.(pc := 4 * p.labels[l]), mem)
        else Fault
      case To(l) =>
        if l in p.labels then Running(cpu.(pc := 4 * p.labels[l]), mem) else Fault
  }

  /** What the kernel does at a trap: any function of the state and of how
      many traps came before. */
  type Kernel = (nat, Cpu, Memory) -> (Cpu, Memory)

  datatype Run = At(cpu: Cpu, mem: Memory, traps: nat) | Stopped

  function Settle(e: Effect, kernel: Kernel, traps: nat): Run {
    match e
    case Running(cpu, mem) => At(cpu, mem, traps)
    case Trapped(cpu, mem) => var (c, m) := kernel(traps, cpu, mem); At(c, m, traps + 1)
    case Fault => Stopped
  }

  function RunCode(code: seq<byte>, kernel: Kernel, r: Run, n: nat): Run
    decreases n
  {
    if n == 0 || r.Stopped? || !r.cpu.Valid() then r
    else RunCode(code, kernel, Settle(Step(code, r.cpu, r.mem), kernel, r.traps), n - 1)
  }

  function RunLabelled(p: Program, kernel: Kernel, r: Run, n: nat): Run
    decreases n
  {
    if n == 0 || r.Stopped? || !r.cpu.Valid() then r
    else RunLabelled(p, kernel, Settle(LabelledStep(p, r.cpu, r.mem), kernel, r.traps), n - 1)
  }

  /** One machine step on the assembled bytes is one step of the labelled
      program: immediates land on their labels, other words are untouched. */
  lemma StepAgrees(p: Program, cpu: Cpu, mem: Memory)
    requires Linked(p) && cpu.Valid()
    ensures Step(Assembled(p), cpu, mem) == LabelledStep(p, cpu, mem)
  {
    hide Decode;
    if cpu.pc % 4 == 0 && 0 <= cpu.pc && cpu.pc + 4 <= 4 * |p.items| {
      var i := cpu.pc / 4;
      AssembledAt(p, i);
      assert Resolves(p, i);
      match p.items[i]
      case Raw(_) =>
      case ToIf(l, c) => DecodeEncode(BCond(c, Displacement(p, i, l)));
      case To(l) => DecodeEncode(B(Displacement(p, i, l)));
    }
  }

  /** Assembling preserves meaning: from every state, under every kernel, the
      bytes and the labelled program go through the same states. */
  lemma {:induction false} AssemblyPreservesRuns(p: Program, kernel: Kernel, r: Run, n: nat)
    requires Linked(p)
    ensures RunCode(Assembled(p), kernel, r, n) == RunLabelled(p, kernel, r, n)
    decreases n
  {
    hide Step, LabelledStep, Assembled;
    if n > 0 && r.At? && r.cpu.Valid() {
      StepAgrees(p, r.cpu, r.mem);
      AssemblyPreservesRuns(p, kernel, Settle(LabelledStep(p, r.cpu, r.mem), kernel, r.traps), n - 1);
    }
  }

  // ----- the builder -----

  datatype CondBranch = CondBranch(offset: nat, name: string, c: cond)

  datatype UncondBranch = UncondBranch(offset: nat, name: string)

  /** Branch records, in emission order, of a program's first items. */
  function CondBranches(items: seq<Item>): seq<CondBranch> {
    if items == [] then [] else
    var last := items[|items| - 1];
    CondBranches(items[..|items| - 1])
    + if last.ToIf? then [CondBranch(4 * (|items| - 1), last.name, last.c)] else []
  }

  function UncondBranches(items: seq<Item>): seq<UncondBranch> {
    if items == [] then [] else
    var last := items[|items| - 1];
    UncondBranches(items[..|items| - 1])
    + if last.To? then [UncondBranch(4 * (|items| - 1), last.name)] else []
  }

  /** The bytes before patching. */
  function Placeholder(item: Item): word { if item.Raw? then item.w else 0 }

  function Unpatched(items: seq<Item>): (b: seq<byte>)
    ensures |b| == 4 * |items|
  {
    Words(seq(|items|, i requires 0 <= i < |items| => Placeholder(items[i])))
  }

  function Raws(data: seq<byte>): (items: seq<Item>)
    requires |data| % 4 == 0
    ensures |items| == |data| / 4
  {
    seq(|data| / 4, i requires 0 <= i < |data| / 4 => Raw(WordAt(data, i)))
  }

  // ----- patching -----

  /** `data[offset : offset + 4] = pack(w)`. */
  function Patch(b: seq<byte>, offset: nat, w: word): (r: seq<byte>)
    requires offset + 4 <= |b|
    ensures |r| == |b|
  {
    b[..offset] + Pack(w) + b[offset + 4..]
  }

  lemma PatchAt(b: seq<byte>, i: nat, w: word, k: nat)
    requires |b| % 4 == 0 && 4 * i + 4 <= |b| && 4 * k + 4 <= |b|
    ensures WordAt(Patch(b, 4 * i, w), k) == if k == i then w else WordAt(b, k)
  {
    if k == i {
      assert Patch(b, 4 * i, w)[4 * k..4 * k + 4] == Pack(w);
    } else {
      assert Patch(b, 4 * i, w)[4 * k..4 * k + 4] == b[4 * k..4 * k + 4];
    }
  }

  /** Branch records name exactly the branch items, each once, in order. */
  lemma {:induction false} CondBranchAt(items: seq<Item>, k: nat)
    requires k < |CondBranches(items)|
    ensures var b := CondBranches(items)[k];
            b.offset % 4 == 0 && b.offset / 4 < |items| && items[b.offset / 4] == ToIf(b.name, b.c)
  {
    var init := items[..|items| - 1];
    if k < |CondBranches(init)| {
      CondBranchAt(init, k);
    }
  }

  lemma {:induction false} UncondBranchAt(items: seq<Item>, k: nat)
    requires k < |UncondBranches(items)|
    ensures var b := UncondBranches(items)[k];
            b.offset % 4 == 0 && b.offset / 4 < |items| && items[b.offset / 4] == To(b.name)
  {
    var init := items[..|items| - 1];
    if k < |UncondBranches(init)| {
      UncondBranchAt(init, k);
    }
  }

  lemma {:induction false} CondBranchListed(items: seq<Item>, i: nat)
    requires i < |items| && items[i].ToIf?
    ensures CondBranch(4 * i, items[i].name, items[i].c) in CondBranches(items)
  {
    if i < |items| - 1 {
      CondBranchListed(items[..|items| - 1], i);
    }
  }

  lemma {:induction false} UncondBranchListed(items: seq<Item>, i: nat)
    requires i < |items| && items[i].To?
    ensures UncondBranch(4 * i, items[i].name) in UncondBranches(items)
  {
    if i < |items| - 1 {
      UncondBranchListed(items[..|items| - 1], i);
    }
  }

  lemma {:induction false} WordsAppend(s: seq<word>, t: seq<word>)
    ensures Words(s + t) == Words(s) + Words(t)
  {
    if t == [] {
      assert s + t == s;
    } else {
      WordsAppend(s, t[..|t| - 1]);
      assert (s + t)[..|s + t| - 1] == s + t[..|t| - 1];
    }
  }

  lemma UnpatchedAppend(items: seq<Item>, more: seq<Item>)
    ensures Unpatched(items + more) == Unpatched(items) + Unpatched(more)
  {
    var f := (s: seq<Item>) => seq(|s|, i requires 0 <= i < |s| => Placeholder(s[i]));
    assert f(items + more) == f(items) + f(more);
    WordsAppend(f(items), f(more));
  }

  /** Splitting emitted bytes into words loses nothing. */
  lemma UnpatchedRaws(data: seq<byte>)
    requires |data| % 4 == 0
    ensures Unpatched(Raws(data)) == data
  {
    var items := Raws(data);
    var ws := seq(|items|, i requires 0 <= i < |items| => Placeholder(items[i]));
    forall i | 0 <= i < |items| ensures WordAt(Unpatched(items), i) == WordAt(data, i) {
      WordsAt(ws, i);
    }
    EqualWords(Unpatched(items), data, |items|);
  }

  lemma {:induction false} RawsHaveNoBranches(items: seq<Item>, raws: seq<Item>)
    requires forall i | 0 <= i < |raws| :: raws[i].Raw?
    ensures CondBranches(items + raws) == CondBranches(items)
    ensures UncondBranches(items + raws) == UncondBranches(items)
  {
    if raws == [] {
      assert items + raws == items;
    } else {
      RawsHaveNoBranches(items, raws[..|raws| - 1]);
      assert (items + raws)[..|items + raws| - 1] == items + raws[..|raws| - 1];
    }
  }

  /** `build` on one branch record: its displacement in words, or the error it
      raises. The alignment check is kept as the source has it. */
  function ResolveBranch(labels: map<string, nat>, offset: nat, name: string, reach: int): (e: Result<int>)
  {
    if name !in labels then Err(UnknownLabel)
    else
      var delta := labels[name] - offset;
      if delta % 4 != 0 then Err(MisalignedTarget)
      else if -reach <= delta / 4 < reach then Ok(delta / 4)
      else Err(OutOfRange)
  }

  /** The item the k-th branch record of a kind stands for. */
  function CondIndex(items: seq<Item>, k: nat): (i: nat)
    requires k < |CondBranches(items)|
    ensures i < |items| && CondBranches(items)[k].offset == 4 * i
    ensures items[i] == ToIf(CondBranches(items)[k].name, CondBranches(items)[k].c)
  {
    CondBranchAt(items, k);
    CondBranches(items)[k].offset / 4
  }

  function UncondIndex(items: seq<Item>, k: nat): (i: nat)
    requires k < |UncondBranches(items)|
    ensures i < |items| && UncondBranches(items)[k].offset == 4 * i
    ensures items[i] == To(UncondBranches(items)[k].name)
  {
    UncondBranchAt(items, k);
    UncondBranches(items)[k].offset / 4
  }

  const COND_REACH := 0x4_0000
  const REACH := 0x200_0000

  /** Why item `i` does not resolve. */
  function Defect(p: Program, i: nat): Error
    requires i < |p.items| && !Resolves(p, i)
  {
    if p.items[i].name in p.labels then OutOfRange else UnknownLabel
  }

  predicate CondResolves(p: Program, k: nat)
    requires k < |CondBranches(p.items)|
  {
    Resolves(p, CondIndex(p.items, k))
  }

  predicate UncondResolves(p: Program, k: nat)
    requires k < |UncondBranches(p.items)|
  {
    Resolves(p, UncondIndex(p.items, k))
  }

  predicate AllCondResolve(p: Program) {
    forall i | 0 <= i < |p.items| && p.items[i].ToIf? :: Resolves(p, i)
  }

  /** `e` is the defect of the first broken branch: conditional branches are
      resolved before unconditional ones, each kind in emission order. */
  ghost predicate FirstDefect(p: Program, e: Error) {
    || (exists k ::
          && 0 <= k < |CondBranches(p.items)| && !CondResolves(p, k)
          && (forall j | 0 <= j < k :: CondResolves(p, j))
          && e == Defect(p, CondIndex(p.items, k)))
    || (AllCondResolve(p) &&
        exists k ::
          && 0 <= k < |UncondBranches(p.items)| && !UncondResolves(p, k)
          && (forall j | 0 <= j < k :: UncondResolves(p, j))
          && e == Defect(p, UncondIndex(p.items, k)))
  }

  /** `Aarch64CodeBuilder`. `program` is the labelled program described so far. */
  class CodeBuilder {
    var data: seq<byte>
    var labels: map<string, nat>
    var conditional: seq<CondBranch>
    var unconditional: seq<UncondBranch>
    ghost var program: Program

    ghost predicate Valid()
      reads this
    {
      && program.Valid()
      && data == Unpatched(program.items)
      && labels.Keys == program.labels.Keys
      && (forall l | l in labels :: labels[l] == 4 * program.labels[l])
      && conditional == CondBranches(program.items)
      && unconditional == UncondBranches(program.items)
    }

    constructor ()
      ensures Valid() && program == Program([], map[])
    {
      data, labels, conditional, unconditional := [], map[], [], [];
      program := Program([], map[]);
    }

    method Emit(code: seq<byte>) returns (r: Result<()>)
      requires Valid()
      modifies this
      ensures Valid()
      ensures r == if |code| % 4 != 0 then Err(MisalignedEmission) else Ok(())
      ensures program == if r.Ok? then old(program).(items := old(program).items + Raws(code)) else old(program)
    {
      if |code| % 4 != 0 {
        return Err(MisalignedEmission);
      }
      UnpatchedAppend(program.items, Raws(code));
      UnpatchedRaws(code);
      RawsHaveNoBranches(program.items, Raws(code));
      data := data + code;
      program := program.(items := program.items + Raws(code));
      return Ok(());
    }

    method Label(name: string) returns (r: Result<()>)
      requires Valid()
      modifies this
      ensures Valid()
      ensures r == if name in old(program).labels then Err(DuplicateLabel) else Ok(())
      ensures program == if r.Ok? then old(program).(labels := old(program).labels[name := |old(program).items|])
                         else old(program)
    {
      if name in labels {
        return Err(DuplicateLabel);
      }
      labels := labels[name := |data|];
      program := program.(labels := program.labels[name := |program.items|]);
      return Ok(());
    }

    method BranchCond(name: string, condition: int) returns (r: Result<()>)
      requires Valid()
      modifies this
      ensures Valid()
      ensures r == if 0 <= condition <= 0xF then Ok(()) else Err(InvalidCondition)
      ensures program == if r.Ok? then old(program).(items := old(program).items + [ToIf(name, condition)])
                         else old(program)
    {
      if !(0 <= condition <= 0xF) {
        return Err(InvalidCondition);
      }
      var item := ToIf(name, condition);
      UnpatchedAppend(program.items, [item]);
      PlaceholderBytes(item);
      assert (program.items + [item])[..|program.items|] == program.items;
      conditional := conditional + [CondBranch(|data|, name, condition)];
      data := data + Zeros(4);
      program := program.(items := program.items + [item]);
      return Ok(());
    }

    method Branch(name: string)
      requires Valid()
      modifies this
      ensures Valid()
      ensures program == old(program).(items := old(program).items + [To(name)])
    {
      var item := To(name);
      UnpatchedAppend(program.items, [item]);
      PlaceholderBytes(item);
      assert (program.items + [item])[..|program.items|] == program.items;
      unconditional := unconditional + [UncondBranch(|data|, name)];
      data := data + Zeros(4);
      program := program.(items := program.items + [item]);
    }

    /** Two patching passes over a copy of the emitted bytes. The result is the
        assembled program exactly when every branch resolves; otherwise the
        first broken branch's defect, which is never a misaligned target. */
    method Build() returns (r: Result<seq<byte>>)
      requires Valid()
      ensures Linked(program) ==> r == Ok(Assembled(program))
      ensures !Linked(program) ==> r.Err? && FirstDefect(program, r.error)
    {
      var emitted := data;
      var out := new byte[|emitted|](i requires 0 <= i < |emitted| => emitted[i]);
      assert out[..] == data;
      UnpatchedWords(program.items);
      var e := PatchConditional(out);
      if e.Err? {
        return Err(e.error);
      }
      e := PatchUnconditional(out);
      if e.Err? {
        return Err(e.error);
      }
      AllPatched(program, out[..]);
      return Ok(out[..]);
    }

    /** The first loop of `build`. */
    method PatchConditional(out: array<byte>) returns (e: Result<()>)
      requires Valid() && CondPatched(program, out[..], 0)
      modifies out
      ensures e.Ok? ==> AllCondResolve(program) && UncondPatched(program, out[..], 0)
      ensures e.Err? ==> !Linked(program) && FirstDefect(program, e.error)
    {
      hide WordAt, Patch, LinkedWord, Unpatched, CondBranches, UncondBranches, EncodeCondBranch;
      var k := 0;
      while k < |conditional|
        invariant k <= |conditional| == |CondBranches(program.items)|
        invariant forall j | 0 <= j < k :: CondResolves(program, j)
        invariant CondPatched(program, out[..], k)
      {
        var b := conditional[k];
        ghost var i := CondIndex(program.items, k);
        ResolveItem(program, labels, i, b.name, COND_REACH);
        match ResolveBranch(labels, b.offset, b.name, COND_REACH)
        case Err(error) =>
          assert !CondResolves(program, k);
          return Err(error);
        case Ok(immediate) =>
          assert CondResolves(program, k);
          CondWord(program, i);
          PatchCond(program, out[..], k);
          PatchWord(out, b.offset, EncodeCondBranch(immediate, b.c));
          k := k + 1;
      }
      AllCondPatched(program, out[..]);
      return Ok(());
    }

    /** The second loop of `build`. */
    method PatchUnconditional(out: array<byte>) returns (e: Result<()>)
      requires Valid() && AllCondResolve(program) && UncondPatched(program, out[..], 0)
      modifies out
      ensures e.Ok? ==> UncondPatched(program, out[..], |UncondBranches(program.items)|)
      ensures e.Err? ==> !Linked(program) && FirstDefect(program, e.error)
    {
      hide WordAt, Patch, LinkedWord, Unpatched, CondBranches, UncondBranches, EncodeBranch;
      var k := 0;
      while k < |unconditional|
        invariant k <= |unconditional| == |UncondBranches(program.items)|
        invariant forall j | 0 <= j < k :: UncondResolves(program, j)
        invariant UncondPatched(program, out[..], k)
      {
        var b := unconditional[k];
        ghost var i := UncondIndex(program.items, k);
        ResolveItem(program, labels, i, b.name, REACH);
        match ResolveBranch(labels, b.offset, b.name, REACH)
        case Err(error) =>
          assert !UncondResolves(program, k);
          return Err(error);
        case Ok(immediate) =>
          assert UncondResolves(program, k);
          UncondWord(program, i);
          PatchUncond(program, out[..], k);
          PatchWord(out, b.offset, EncodeBranch(immediate));
          k := k + 1;
      }
      return Ok(());
    }
  }

  /** Byte labels are four times word labels, so targets are always aligned:
      one branch fails exactly when its item does not resolve. */
  lemma ResolveItem(p: Program, labels: map<string, nat>, i: nat, name: string, reach: int)
    requires i < |p.items| && labels.Keys == p.labels.Keys
    requires forall l | l in labels :: labels[l] == 4 * p.labels[l]
    requires (p.items[i].ToIf? && reach == COND_REACH) || (p.items[i].To? && reach == REACH)
    requires name == p.items[i].name
    ensures ResolveBranch(labels, 4 * i, name, reach)
         == if Resolves(p, i) then Ok(Displacement(p, i, name)) else Err(Defect(p, i))
  {
    if name in labels {
      var d := p.labels[name] - i;
      assert labels[name] - 4 * i == 4 * d;
      assert 4 * d % 4 == 0 && 4 * d / 4 == d;
    }
  }

  lemma CondWord(p: Program, i: nat)
    requires i < |p.items| && p.items[i].ToIf? && Resolves(p, i)
    ensures LinkedWord(p, i) == EncodeCondBranch(Displacement(p, i, p.items[i].name), p.items[i].c)
  {
  }

  lemma UncondWord(p: Program, i: nat)
    requires i < |p.items| && p.items[i].To? && Resolves(p, i)
    ensures LinkedWord(p, i) == EncodeBranch(Displacement(p, i, p.items[i].name))
  {
  }

  method PatchWord(out: array<byte>, offset: nat, w: word)
    requires offset + 4 <= out.Length
    modifies out
    ensures out[..] == Patch(old(out[..]), offset, w)
  {
    var s := Pack(w);
    out[offset], out[offset + 1], out[offset + 2], out[offset + 3] := s[0], s[1], s[2], s[3];
  }

  // ----- what the two passes have done -----

  /** The first `k` conditional branches are patched; nothing else changed. */
  ghost predicate CondPatched(p: Program, b: seq<byte>, k: nat)
    requires k <= |CondBranches(p.items)|
  {
    && |b| == 4 * |p.items|
    && (forall i | 0 <= i < |p.items| && !p.items[i].ToIf? :: WordAt(b, i) == Placeholder(p.items[i]))
    && (forall j | 0 <= j < k :: CondLinked(p, b, j))
  }

  ghost predicate CondLinked(p: Program, b: seq<byte>, j: nat)
    requires |b| == 4 * |p.items| && j < |CondBranches(p.items)|
  {
    var i := CondIndex(p.items, j);
    Resolves(p, i) && WordAt(b, i) == LinkedWord(p, i)
  }

  ghost predicate UncondPatched(p: Program, b: seq<byte>, k: nat)
    requires k <= |UncondBranches(p.items)|
  {
    && |b| == 4 * |p.items|
    && (forall i | 0 <= i < |p.items| && !p.items[i].To? :: Resolves(p, i) && WordAt(b, i) == LinkedWord(p, i))
    && (forall j | 0 <= j < k :: UncondLinked(p, b, j))
  }

  ghost predicate UncondLinked(p: Program, b: seq<byte>, j: nat)
    requires |b| == 4 * |p.items| && j < |UncondBranches(p.items)|
  {
    var i := UncondIndex(p.items, j);
    Resolves(p, i) && WordAt(b, i) == LinkedWord(p, i)
  }

  lemma UnpatchedWords(items: seq<Item>)
    ensures forall i | 0 <= i < |items| :: WordAt(Unpatched(items), i) == Placeholder(items[i])
  {
    forall i | 0 <= i < |items| ensures WordAt(Unpatched(items), i) == Placeholder(items[i]) {
      WordsAt(seq(|items|, j requires 0 <= j < |items| => Placeholder(items[j])), i);
    }
  }

  lemma PatchCond(p: Program, b: seq<byte>, k: nat)
    requires k < |CondBranches(p.items)| && CondResolves(p, k) && CondPatched(p, b, k)
    ensures var i := CondIndex(p.items, k);
            4 * i + 4 <= |b| && CondPatched(p, Patch(b, 4 * i, LinkedWord(p, i)), k + 1)
  {
    hide WordAt, Patch, LinkedWord, CondBranches;
    var i := CondIndex(p.items, k);
    var b' := Patch(b, 4 * i, LinkedWord(p, i));
    forall m | 0 <= m < |p.items| && !p.items[m].ToIf? ensures WordAt(b', m) == Placeholder(p.items[m]) {
      PatchAt(b, i, LinkedWord(p, i), m);
    }
    forall j | 0 <= j < k + 1 ensures CondLinked(p, b', j) {
      PatchAt(b, i, LinkedWord(p, i), CondIndex(p.items, j));
      assert j < k ==> CondLinked(p, b, j);
    }
  }

  lemma PatchUncond(p: Program, b: seq<byte>, k: nat)
    requires k < |UncondBranches(p.items)| && UncondResolves(p, k) && UncondPatched(p, b, k)
    ensures var i := UncondIndex(p.items, k);
            4 * i + 4 <= |b| && UncondPatched(p, Patch(b, 4 * i, LinkedWord(p, i)), k + 1)
  {
    hide WordAt, Patch, LinkedWord, UncondBranches;
    var i := UncondIndex(p.items, k);
    var b' := Patch(b, 4 * i, LinkedWord(p, i));
    forall m | 0 <= m < |p.items| && !p.items[m].To? ensures WordAt(b', m) == LinkedWord(p, m) {
      PatchAt(b, i, LinkedWord(p, i), m);
    }
    forall j | 0 <= j < k + 1 ensures UncondLinked(p, b', j) {
      PatchAt(b, i, LinkedWord(p, i), UncondIndex(p.items, j));
      assert j < k ==> UncondLinked(p, b, j);
    }
  }

  lemma AllCondPatched(p: Program, b: seq<byte>)
    requires CondPatched(p, b, |CondBranches(p.items)|)
    ensures AllCondResolve(p) && UncondPatched(p, b, 0)
  {
    forall i | 0 <= i < |p.items| && p.items[i].ToIf?
      ensures Resolves(p, i) && WordAt(b, i) == LinkedWord(p, i)
    {
      CondBranchListed(p.items, i);
      var record := CondBranch(4 * i, p.items[i].name, p.items[i].c);
      var j :| 0 <= j < |CondBranches(p.items)| && CondBranches(p.items)[j] == record;
      assert CondLinked(p, b, j);
    }
  }

  lemma AllPatched(p: Program, b: seq<byte>)
    requires UncondPatched(p, b, |UncondBranches(p.items)|)
    ensures Linked(p) && b == Assembled(p)
  {
    forall i | 0 <= i < |p.items| ensures Resolves(p, i) && WordAt(b, i) == LinkedWord(p, i) {
      if p.items[i].To? {
        UncondBranchListed(p.items, i);
        var record := UncondBranch(4 * i, p.items[i].name);
        var j :| 0 <= j < |UncondBranches(p.items)| && UncondBranches(p.items)[j] == record;
        assert UncondLinked(p, b, j);
      }
    }
    forall i | 0 <= i < |p.items| ensures WordAt(b, i) == WordAt(Assembled(p), i) {
      AssembledAt(p, i);
    }
    EqualWords(b, Assembled(p), |p.items|);
  }

  lemma PlaceholderBytes(item: Item)
    requires !item.Raw?
    ensures Unpatched([item]) == Zeros(4)
  {
    assert seq(1, i requires 0 <= i < 1 => Placeholder([item][i])) == [0];
    assert Words([0]) == Words([]) + Pack(0);
    assert [0][..0] == [];
  }
}
