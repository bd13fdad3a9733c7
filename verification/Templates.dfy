/** Running a program template operation by operation: where each operation
    lies in the code, what falling through or branching from it leads to, and
    when the whole template links. */
module Templates {
  import opened Bytes
  import opened A64
  import opened Machine
  import opened Assembler
  import opened Syscalls
  import opened Layout
  import opened Blocks
  import GuestElf

  /** Word index of operation `k`. */
  function Pos(ops: seq<Op>, k: nat, a: map<string, int>): nat
    requires k <= |ops| && Names(ops, a)
  {
    |ProgramOf(ops, k, a).items|
  }

  function Prog(ops: seq<Op>, a: map<string, int>): Program
    requires Names(ops, a)
  {
    ProgramOf(ops, |ops|, a)
  }

  /** Running, and about to execute operation `k`. */
  predicate AtOp(ops: seq<Op>, a: map<string, int>, r: Run, k: nat)
    requires k <= |ops| && Names(ops, a)
  {
    r.At? && r.cpu.Valid() && r.cpu.pc == 4 * Pos(ops, k, a)
  }

  lemma PosNext(ops: seq<Op>, k: nat, a: map<string, int>)
    requires k < |ops| && Names(ops, a)
    ensures Pos(ops, k + 1, a) == Pos(ops, k, a) + |Items(ops[k], a)|
  {
    hide Items;
  }

  lemma MarkIsFree(ops: seq<Op>, k: nat, a: map<string, int>)
    requires k < |ops| && Names(ops, a) && ops[k].Mark?
    ensures Pos(ops, k + 1, a) == Pos(ops, k, a)
  {
  }

  lemma {:induction false} LabelAt(ops: seq<Op>, n: nat, m: nat, a: map<string, int>)
    requires m < n <= |ops| && Names(ops, a) && DistinctMarks(ops) && ops[m].Mark?
    ensures ops[m].mark in ProgramOf(ops, n, a).labels
    ensures ProgramOf(ops, n, a).labels[ops[m].mark] == Pos(ops, m, a)
    decreases n
  {
    hide Items;
    if m < n - 1 {
      LabelAt(ops, n - 1, m, a);
    }
  }

  /** Straight-line operations run to the next operation. */
  lemma OpRuns(ops: seq<Op>, k: nat, a: map<string, int>, kernel: Kernel, r: Run, instrs: seq<Instr>)
    requires k < |ops| && Names(ops, a) && Obeys(kernel) && AtOp(ops, a, r, k)
    requires Items(ops[k], a) == Encoded(instrs)
    requires forall j | 0 <= j < |instrs| :: NoBranch(instrs[j])
    ensures var s := Straight(instrs, kernel, r);
            && Leads(Prog(ops, a), kernel, r, s, StraightLog(instrs, kernel, r))
            && (s.At? ==> AtOp(ops, a, s, k + 1))
  {
    hide Items, Encoded, Obeys, ProgramOf, After, NoBranch, Straight, StraightLog;
    GuestElf.OpPlaced(ops, k, |ops|, a);
    PosNext(ops, k, a);
    var p, start := Prog(ops, a), Pos(ops, k, a);
    assert r.cpu.pc / 4 == start;
    EncodedSize(instrs);
    StraightRuns(p, kernel, instrs, r);
    assert After(p, kernel, r, Straight(instrs, kernel, r), StraightLog(instrs, kernel, r), |instrs|);
  }

  lemma EncodedSize(instrs: seq<Instr>)
    ensures |Encoded(instrs)| == |instrs|
  {
  }

  lemma BranchPlaced(ops: seq<Op>, k: nat, a: map<string, int>)
    requires k < |ops| && Names(ops, a) && (ops[k].JumpIf? || ops[k].Jump?)
    ensures var p, i := Prog(ops, a), Pos(ops, k, a);
            && i < |p.items| && Pos(ops, k + 1, a) == i + 1
            && p.items[i] == if ops[k].JumpIf? then ToIf(ops[k].mark, ops[k].c) else To(ops[k].mark)
  {
    hide ProgramOf;
    GuestElf.OpPlaced(ops, k, |ops|, a);
    PosNext(ops, k, a);
    var p, i := Prog(ops, a), Pos(ops, k, a);
    assert p.items[i..i + 1][0] == p.items[i];
  }

  /** A branch leads to its mark or to the next operation. */
  lemma JumpRuns(ops: seq<Op>, k: nat, m: nat, a: map<string, int>, kernel: Kernel, r: Run)
    requires k < |ops| && m < |ops| && Names(ops, a) && DistinctMarks(ops) && AtOp(ops, a, r, k)
    requires (ops[k].JumpIf? || ops[k].Jump?) && ops[m] == Mark(ops[k].mark)
    ensures var taken := ops[k].Jump? || ConditionHolds(ops[k].c, r.cpu.flags);
            var s := Assembler.At(r.cpu.(pc := 4 * Pos(ops, if taken then m else k + 1, a)), r.mem, r.traps);
            && Leads(Prog(ops, a), kernel, r, s, [])
            && AtOp(ops, a, s, if taken then m else k + 1)
  {
    hide ProgramOf, ConditionHolds, DistinctMarks, Names;
    BranchPlaced(ops, k, a);
    LabelAt(ops, |ops|, m, a);
    var p := Prog(ops, a);
    var taken := ops[k].Jump? || ConditionHolds(ops[k].c, r.cpu.flags);
    var s := Assembler.At(r.cpu.(pc := 4 * Pos(ops, if taken then m else k + 1, a)), r.mem, r.traps);
    assert LabelledStep(p, r.cpu, r.mem) == Running(s.cpu, s.mem);
    assert After(p, kernel, r, s, [], 1) by {
      OneStep(p, kernel, r, s.cpu);
    }
  }

  lemma OneStep(p: Program, kernel: Kernel, r: Run, cpu': Cpu)
    requires r.At? && r.cpu.Valid() && LabelledStep(p, r.cpu, r.mem) == Running(cpu', r.mem)
    ensures After(p, kernel, r, Assembler.At(cpu', r.mem, r.traps), [], 1)
  {
    hide LabelledStep;
    var s := Assembler.At(cpu', r.mem, r.traps);
    assert RunLabelled(p, kernel, s, 0) == s && Log(p, kernel, s, 0) == [];
  }

  /** Every branch names a mark of the template. */
  predicate Targeted(ops: seq<Op>) {
    forall k | 0 <= k < |ops| && (ops[k].JumpIf? || ops[k].Jump?) ::
      exists m | 0 <= m < |ops| :: ops[m] == Mark(ops[k].mark)
  }

  lemma {:induction false} TemplateItems(ops: seq<Op>, n: nat, a: map<string, int>)
    requires n <= |ops| && Names(ops, a)
    ensures var p := ProgramOf(ops, n, a);
            && p.Valid()
            && forall i | 0 <= i < |p.items| && !p.items[i].Raw? ::
                 exists k | 0 <= k < n :: (ops[k].JumpIf? || ops[k].Jump?) && ops[k].mark == p.items[i].name
    decreases n
  {
    hide Encoded, PrintCalls, MovImm;
    if n > 0 {
      TemplateItems(ops, n - 1, a);
      var p, q := ProgramOf(ops, n, a), ProgramOf(ops, n - 1, a);
      ItemsAreRaw(ops[n - 1], a);
      forall i | 0 <= i < |p.items| && !p.items[i].Raw?
        ensures exists k | 0 <= k < n :: (ops[k].JumpIf? || ops[k].Jump?) && ops[k].mark == p.items[i].name
      {
        if i < |q.items| {
          assert p.items[i] == q.items[i];
        } else {
          assert p.items[i] == Items(ops[n - 1], a)[i - |q.items|];
        }
      }
    }
  }

  lemma ItemsAreRaw(op: Op, a: map<string, int>)
    requires op.LoadAddress? || op.Print? ==> op.name in a
    ensures forall i | 0 <= i < |Items(op, a)| && !Items(op, a)[i].Raw? ::
              (op.JumpIf? || op.Jump?) && op.mark == Items(op, a)[i].name
  {
  }

  /** A template of fewer than 2^18 words whose branches name its marks
      always links. */
  lemma TemplateLinked(ops: seq<Op>, a: map<string, int>)
    requires Names(ops, a) && Targeted(ops) && DistinctMarks(ops)
    requires |Prog(ops, a).items| < 0x4_0000
    ensures Linked(Prog(ops, a))
  {
    hide ProgramOf;
    var p := Prog(ops, a);
    TemplateItems(ops, |ops|, a);
    forall i | 0 <= i < |p.items| ensures Resolves(p, i) {
      if !p.items[i].Raw? {
        var k :| 0 <= k < |ops| && (ops[k].JumpIf? || ops[k].Jump?) && ops[k].mark == p.items[i].name;
        var m :| 0 <= m < |ops| && ops[m] == Mark(ops[k].mark);
        LabelAt(ops, |ops|, m, a);
      }
    }
  }
}
