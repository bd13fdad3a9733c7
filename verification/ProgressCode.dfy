/** The two-CPU progress program as emitted: executed by two CPUs an instruction
    at a time, it does what its transition system does. */
module ProgressCode {
  import opened Bytes
  import opened A64
  import opened Machine
  import opened Assembler
  import opened Syscalls
  import opened Layout
  import opened Blocks
  import opened Templates
  import opened SmpData
  import opened Duo
  import opened DuoOps
  import opened DuoCode
  import opened Calls
  import opened ProgressCalls
  import P = Progress

  const NANOSLEEP: imm16 := 101
  const READY_SIZE: imm16 := 11

  // Labels of its data and marks of its code.
  function Cpu1Ready(): string { "cpu1_ready" }
  function Cpu0Token(): string { "cpu0_token" }
  function Cpu1Token(): string { "cpu1_token" }
  function ParentWait(): string { "parent_wait_ready" }
  function ChildWait(): string { "child_wait_start" }
  function Cpu0Loop(): string { "cpu0_progress" }
  function Cpu1Loop(): string { "cpu1_progress" }

  // ----- the program -----

  /** `emit_smp_progress_loop`. */
  predicate Looping(ops: seq<Op>, b: nat, mark: string, token: string) {
    && b + 13 <= |ops| && ops[b] == Mark(mark) && Printing(ops, b + 1, token, 1)
    && ops[b + 6] == Load(0, "progress_delay") && ops[b + 7] == Mov(1, 0) && ops[b + 8] == Mov(8, NANOSLEEP)
    && ops[b + 9] == SVC && ops[b + 10] == Mov(8, YIELD) && ops[b + 11] == SVC && ops[b + 12] == Jump(mark)
  }

  /** `build_smp_progress_init_code`, piece by piece. */
  predicate Emitted(ops: seq<Op>) {
    && |ops| == 99
    && Pinning(ops, 0, Cpu0Mask(), Cpu0Observed(), 0)
    && Cloning(ops, 18)
    && Waiting(ops, 28, ParentWait(), Cpu1Ready(), 1, NE)
    && Printing(ops, 33, ReadyMarker(), READY_SIZE)
    && Storing(ops, 38, 1, Start())
    && Looping(ops, 41, Cpu0Loop(), Cpu0Token())
    && ops[54] == Mark("child")
    && Pinning(ops, 55, Cpu1Mask(), Cpu1Observed(), 1)
    && Storing(ops, 73, 1, Cpu1Ready())
    && Waiting(ops, 76, ChildWait(), Start(), 1, NE)
    && Looping(ops, 81, Cpu1Loop(), Cpu1Token())
    && Failing(ops, 94)
  }

  /** The setting of a run. */
  datatype World = World(w: Setting) {
    predicate Named() {
      && Cpu0Observed() in w.a && Cpu1Observed() in w.a && Cpu1Ready() in w.a && Start() in w.a && TextsNamed()
    }

    predicate TextsNamed() {
      && Cpu0Mask() in w.a && Cpu1Mask() in w.a && "progress_delay" in w.a && ReadyMarker() in w.a
      && Cpu0Token() in w.a && Cpu1Token() in w.a && "child_stack" in w.a
    }

    /** The addresses of the shared words. */
    function Places(): (p: seq<int>)
      requires Named()
      ensures |p| == 4
    {
      [w.a[Cpu0Observed()], w.a[Cpu1Observed()], w.a[Cpu1Ready()], w.a[Start()]]
    }

    function Cells(a: P.State): (c: seq<Cell>)
      requires Named()
      ensures |c| == 4 && PlacesOf(c) == Places()
    {
      [Cell(w.a[Cpu0Observed()], a.cpu0Observed), Cell(w.a[Cpu1Observed()], a.cpu1Observed),
       Cell(w.a[Cpu1Ready()], a.ready), Cell(w.a[Start()], a.start)]
    }

    /** The bytes that never change. */
    function Texts(): (t: seq<Message>)
      requires TextsNamed()
      ensures |t| == 7
    {
      [Message(w.a[Cpu0Mask()], MASK0), Message(w.a[Cpu1Mask()], MASK1), Message(w.a["progress_delay"], DELAY),
       Message(w.a[ReadyMarker()], READY), Message(w.a[Cpu0Token()], TOKEN0), Message(w.a[Cpu1Token()], TOKEN1),
       Message(w.a["child_stack"], Zeros(4096))]
    }

    ghost predicate Ok() {
      w.Ok() && |w.ops| == 99 && Named() && Laid(Places(), Texts()) && w.a["child_stack"] % 16 == 0
    }

    lemma Means()
      requires Ok()
      ensures w.Ok() && |w.ops| == 99 && Named() && Names(w.ops, w.a)
    {
    }

    /** The addresses the calls are about. */
    function Addresses(): Words
      requires Named()
    {
      Words(w.a[Cpu0Observed()], w.a[Cpu1Observed()], w.a[Cpu1Ready()], w.a[Start()])
    }

    function Bytes(e: P.Event): seq<byte> {
      match e case Ready => READY case Token0 => TOKEN0 case Token1 => TOKEN1
    }

    /** The bytes an output stands for. */
    function Rendered(output: seq<P.Event>): seq<byte> {
      if output == [] then [] else Rendered(output[..|output| - 1]) + Bytes(output[|output| - 1])
    }

    /** Memory and terminal are as the abstract state says. */
    predicate Shows(s: Pair, a: P.State)
      requires Named()
    {
      s.Pair? && Stores(s.mem, Cells(a), Texts()) && s.sent == Rendered(a.output)
    }
  }

  lemma RenderOne(v: World, output: seq<P.Event>, e: P.Event)
    ensures v.Rendered(output + [e]) == v.Rendered(output) + v.Bytes(e)
  {
    assert (output + [e])[..|output|] == output;
  }

  // ----- where each CPU is -----

  /** About to sleep for the delay. */
  predicate Sleeping(w: Setting, c: Cpu)
    requires c.Valid()
  {
    "progress_delay" in w.a && c.x[8] == NANOSLEEP && c.x[0] == w.a["progress_delay"] && c.x[1] == 0
  }

  /** The first CPU at the visible instruction of the abstract parent's point. */
  predicate ParentAt(v: World, c: Cpu, a: P.State)
    requires v.Named() && Names(v.w.ops, v.w.a)
  {
    && c.Valid()
    && if a.parent == P.P_AFFINITY then v.w.Here(c, 4) && Pinned(v.w, c, Cpu0Mask())
       else if a.parent == P.P_GETCPU then v.w.Here(c, 11) && Placing(v.w, c, Cpu0Observed())
       else if a.parent == P.P_CHECK_CPU then v.w.Here(c, 15) && c.x[1] == v.w.a[Cpu0Observed()]
       else if a.parent == P.P_CLONE then v.w.Here(c, 24) && Splitting(v.w, c)
       else if a.parent == P.P_WAIT_READY then v.w.Here(c, 30) && c.x[1] == v.w.a[Cpu1Ready()]
       else if a.parent == P.P_WRITE_READY then v.w.Here(c, 37) && Writing(c, v.w.a[ReadyMarker()], READY_SIZE)
       else if a.parent == P.P_STORE_START then v.w.Here(c, 40) && c.x[0] == 1 && c.x[1] == v.w.a[Start()]
       else if a.parent == P.P_TOKEN then v.w.Here(c, 46) && Writing(c, v.w.a[Cpu0Token()], 1)
       else if a.parent == P.P_SLEEP then v.w.Here(c, 50) && Sleeping(v.w, c)
       else if a.parent == P.P_YIELD then v.w.Here(c, 52) && Asking(c, YIELD)
       else a.parent == P.P_FAILURE && Leaving(v.w, 94, c)
  }

  predicate ChildAt(v: World, c: Cpu, a: P.State)
    requires v.Named() && Names(v.w.ops, v.w.a)
  {
    && c.Valid()
    && if a.child == P.C_AFFINITY then v.w.Here(c, 59) && Pinned(v.w, c, Cpu1Mask())
       else if a.child == P.C_GETCPU then v.w.Here(c, 66) && Placing(v.w, c, Cpu1Observed())
       else if a.child == P.C_CHECK_CPU then v.w.Here(c, 70) && c.x[1] == v.w.a[Cpu1Observed()]
       else if a.child == P.C_STORE_READY then v.w.Here(c, 75) && c.x[0] == 1 && c.x[1] == v.w.a[Cpu1Ready()]
       else if a.child == P.C_WAIT_START then v.w.Here(c, 78) && c.x[1] == v.w.a[Start()]
       else if a.child == P.C_TOKEN then v.w.Here(c, 86) && Writing(c, v.w.a[Cpu1Token()], 1)
       else if a.child == P.C_SLEEP then v.w.Here(c, 90) && Sleeping(v.w, c)
       else if a.child == P.C_YIELD then v.w.Here(c, 92) && Asking(c, YIELD)
       else a.child == P.C_FAILURE && Leaving(v.w, 94, c)
  }

  // ----- one visible step -----

  /** Points at which the parent, and the child, make a call. */
  predicate ParentAsks(parent: nat) {
    || parent == P.P_AFFINITY || parent == P.P_GETCPU || parent == P.P_CLONE || parent == P.P_WRITE_READY
    || (P.P_TOKEN <= parent <= P.P_YIELD)
  }

  predicate ChildAsks(child: nat) {
    child == P.C_AFFINITY || child == P.C_GETCPU || (P.C_TOKEN <= child <= P.C_YIELD)
  }

  /** How the parent goes on, given what its registers became. */
  predicate Told(v: World, a: P.State, b: P.State, e: Cpu, d: Cpu)
    requires Names(v.w.ops, v.w.a)
  {
    && e.Valid() && d.Valid() && (a.parent != P.P_GETCPU ==> b.cpu0Observed == a.cpu0Observed)
    && (a.parent < P.P_FAILURE == b.parent ==> Quitting(v.w, 94, d))
    && if a.parent == P.P_AFFINITY || a.parent == P.P_GETCPU then b.parent == P.Checked(e.x[0] == 0, a.parent + 1)
       else if a.parent == P.P_CHECK_CPU then b.parent == P.Checked(a.cpu0Observed == 0, P.P_CLONE)
       else if a.parent == P.P_WAIT_READY then b.parent == a.parent || b.parent == a.parent + 1
       else if a.parent == P.P_YIELD then b.parent == P.P_TOKEN
       else if a.parent == P.P_FAILURE then b.parent == a.parent && v.w.Here(d, 98)
       else b.parent == a.parent + 1
  }

  predicate ChildTold(v: World, a: P.State, b: P.State, e: Cpu, d: Cpu)
    requires Names(v.w.ops, v.w.a)
  {
    && e.Valid() && d.Valid() && (a.child != P.C_GETCPU ==> b.cpu1Observed == a.cpu1Observed)
    && (a.child < P.C_FAILURE == b.child ==> Quitting(v.w, 94, d))
    && if a.child == P.C_AFFINITY || a.child == P.C_GETCPU then b.child == P.ChildChecked(e.x[0] == 0, a.child + 1)
       else if a.child == P.C_CHECK_CPU then b.child == P.ChildChecked(a.cpu1Observed == 1, P.C_STORE_READY)
       else if a.child == P.C_WAIT_START then b.child == a.child || b.child == a.child + 1
       else if a.child == P.C_YIELD then b.child == P.C_TOKEN
       else if a.child == P.C_FAILURE then b.child == a.child && v.w.Here(d, 98)
       else b.child == a.child + 1
  }

  /** Calls, and only they, are logged. */
  predicate Logs(v: World, s: Pair, t: Pair, who: Who, asks: bool, failed: bool, e: Cpu)
    requires Names(v.w.ops, v.w.a) && Present(s, who)
  {
    if asks || (failed && !v.w.Here(Of(s, who), 98)) then Logged(s, who, e, t) else SameLog(s, t)
  }

  /** The first CPU executes the instruction it has come to, and is on its way
      to the one of the next abstract state. */
  ghost predicate ParentMoves(v: World, s: Pair, a: P.State, i: P.Input, e: Cpu, d: Cpu)
    requires v.Named() && Names(v.w.ops, v.w.a)
  {
    var t, b := v.w.Next(s, First), P.Next(a, i);
    && t.Pair? && s.Pair? && t.first == e && t.second == s.second && b.child == a.child
    && b.cpu1Observed == a.cpu1Observed && v.w.Reaches(e, d) && ParentAt(v, d, b) && v.Shows(t, b)
    && Told(v, a, b, e, d) && Logs(v, s, t, First, ParentAsks(a.parent), a.parent == P.P_FAILURE, e)
  }

  ghost predicate ChildMoves(v: World, s: Pair, a: P.State, i: P.Input, e: Cpu, d: Cpu)
    requires v.Named() && Names(v.w.ops, v.w.a)
  {
    var t, b := v.w.Next(s, Second), P.Next(a, i);
    && t.Pair? && s.Pair? && t.second == Some(e) && t.first == s.first && b.parent == a.parent
    && b.cpu0Observed == a.cpu0Observed && v.w.Reaches(e, d) && ChildAt(v, d, b) && v.Shows(t, b)
    && s.second.Some? && ChildTold(v, a, b, e, d)
    && Logs(v, s, t, Second, ChildAsks(a.child), a.child == P.C_FAILURE, e)
  }

  /** What the shared words hold. */
  lemma SharedWords(v: World, s: Pair, a: P.State)
    requires v.Ok() && v.Shows(s, a)
    ensures Word(v.w, s.mem, Cpu0Observed(), a.cpu0Observed) && Word(v.w, s.mem, Cpu1Observed(), a.cpu1Observed)
    ensures Word(v.w, s.mem, Cpu1Ready(), a.ready) && Word(v.w, s.mem, Start(), a.start)
  {
    hide Load32, Mapped;
    var c, p := v.Cells(a), v.Places();
    assert p[0] % 4 == 0 && p[1] % 4 == 0 && p[2] % 4 == 0 && p[3] % 4 == 0;
    assert Mapped(s.mem, c[0].address) && Mapped(s.mem, c[1].address) && Mapped(s.mem, c[2].address);
    assert Mapped(s.mem, c[3].address);
  }

  /** What memory holds for good. */
  predicate Constants(v: World, mem: Memory)
    requires v.TextsNamed()
  {
    && Holds(mem, v.w.a[Cpu0Mask()], MASK0) && Holds(mem, v.w.a[Cpu1Mask()], MASK1)
    && Holds(mem, v.w.a["progress_delay"], DELAY) && Holds(mem, v.w.a[ReadyMarker()], READY)
    && Holds(mem, v.w.a[Cpu0Token()], TOKEN0) && Holds(mem, v.w.a[Cpu1Token()], TOKEN1)
    && Holds(mem, v.w.a["child_stack"], Zeros(4096))
  }

  lemma TextsHeld(v: World, s: Pair, a: P.State)
    requires v.Ok() && v.Shows(s, a)
    ensures Constants(v, s.mem)
  {
    hide Holds;
    var t := v.Texts();
    assert Holds(s.mem, t[0].address, t[0].bytes);
    assert Holds(s.mem, t[1].address, t[1].bytes);
    assert Holds(s.mem, t[2].address, t[2].bytes);
    assert Holds(s.mem, t[3].address, t[3].bytes);
    assert Holds(s.mem, t[4].address, t[4].bytes);
    assert Holds(s.mem, t[5].address, t[5].bytes);
    assert Holds(s.mem, t[6].address, t[6].bytes);
  }

  /** The abstract states show the same. */
  predicate SameView(a: P.State, b: P.State) {
    && b.cpu0Observed == a.cpu0Observed && b.cpu1Observed == a.cpu1Observed && b.ready == a.ready && b.start == a.start
    && b.output == a.output
  }

  lemma StillShows(v: World, s: Pair, t: Pair, a: P.State, b: P.State)
    requires v.Named() && v.Shows(s, a) && SameView(a, b) && t.Pair? && t.mem == s.mem && t.sent == s.sent
    ensures v.Shows(t, b)
  {
    hide Stores, World.Rendered;
  }

  lemma SaidShows(v: World, s: Pair, t: Pair, a: P.State, b: P.State, said: P.Event)
    requires v.Named() && v.Shows(s, a) && SameView(a, b.(output := a.output)) && b.output == a.output + [said]
    requires t.Pair? && t.mem == s.mem && t.sent == s.sent + v.Bytes(said)
    ensures v.Shows(t, b)
  {
    hide Stores, World.Rendered;
    RenderOne(v, a.output, said);
  }

  /** Only one word changed. */
  lemma ChangedShows(v: World, s: Pair, t: Pair, a: P.State, i: nat) returns (value: word)
    requires v.Ok() && v.Shows(s, a) && i < 4 && t.Pair? && t.sent == s.sent
    requires ChangedOnlyIn(s.mem, t.mem, v.Places()[i], 4)
    ensures Mapped(t.mem, v.Places()[i]) && value == Load32(t.mem, v.Places()[i])
    ensures i == 0 ==> v.Shows(t, a.(cpu0Observed := value))
    ensures i == 1 ==> v.Shows(t, a.(cpu1Observed := value))
    ensures i == 2 ==> v.Shows(t, a.(ready := value))
    ensures i == 3 ==> v.Shows(t, a.(start := value))
  {
    hide Stores, Laid, ChangedOnlyIn, Load32, World.Rendered;
    assert v.Places()[i] == PlacesOf(v.Cells(a))[i] == v.Cells(a)[i].address;
    ChangeOne(s.mem, t.mem, v.Cells(a), v.Texts(), i);
    value := Load32(t.mem, v.Places()[i]);
    var c := v.Cells(a)[i := Cell(v.Places()[i], value)];
    assert i == 0 ==> v.Cells(a.(cpu0Observed := value)) == c;
    assert i == 1 ==> v.Cells(a.(cpu1Observed := value)) == c;
    assert i == 2 ==> v.Cells(a.(ready := value)) == c;
    assert i == 3 ==> v.Cells(a.(start := value)) == c;
  }

  lemma Observed0(v: World, s: Pair, t: Pair, a: P.State) returns (value: word)
    requires v.Ok() && v.Shows(s, a) && t.Pair? && t.sent == s.sent
    requires ChangedOnlyIn(s.mem, t.mem, v.w.a[Cpu0Observed()], 4)
    ensures v.Shows(t, a.(cpu0Observed := value))
  {
    hide World.Shows, ChangedOnlyIn, Laid, Load32;
    value := ChangedShows(v, s, t, a, 0);
  }

  lemma Observed1(v: World, s: Pair, t: Pair, a: P.State) returns (value: word)
    requires v.Ok() && v.Shows(s, a) && t.Pair? && t.sent == s.sent
    requires ChangedOnlyIn(s.mem, t.mem, v.w.a[Cpu1Observed()], 4)
    ensures v.Shows(t, a.(cpu1Observed := value))
  {
    hide World.Shows, ChangedOnlyIn, Laid, Load32;
    value := ChangedShows(v, s, t, a, 1);
  }

  lemma StoredReady(v: World, s: Pair, t: Pair, a: P.State)
    requires s.Pair? && v.Ok() && v.Shows(s, a) && t.Pair? && t.sent == s.sent && Mapped(s.mem, v.w.a[Cpu1Ready()])
    requires t.mem == Store32(s.mem, v.w.a[Cpu1Ready()], 1)
    ensures v.Shows(t, a.(ready := 1))
  {
    hide World.Shows, ChangedOnlyIn, Laid, Load32, Store32;
    StoreLoads(s.mem, v.w.a[Cpu1Ready()], 1);
    var value := ChangedShows(v, s, t, a, 2);
  }

  lemma StoredStart(v: World, s: Pair, t: Pair, a: P.State)
    requires s.Pair? && v.Ok() && v.Shows(s, a) && t.Pair? && t.sent == s.sent && Mapped(s.mem, v.w.a[Start()])
    requires t.mem == Store32(s.mem, v.w.a[Start()], 1)
    ensures v.Shows(t, a.(start := 1))
  {
    hide World.Shows, ChangedOnlyIn, Laid, Load32, Store32;
    StoreLoads(s.mem, v.w.a[Start()], 1);
    var value := ChangedShows(v, s, t, a, 3);
  }

  // ----- the loop of tokens -----

  lemma LoopPieces(ops: seq<Op>, b: nat, mark: string, token: string)
    requires Looping(ops, b, mark, token)
    ensures b + 13 <= |ops| && ops[b] == Mark(mark) && Printing(ops, b + 1, token, 1)
    ensures ops[b + 6] == Load(0, "progress_delay") && ops[b + 7] == Mov(1, 0) && ops[b + 8] == Mov(8, NANOSLEEP)
    ensures ops[b + 9] == SVC && ops[b + 10] == Mov(8, YIELD) && ops[b + 11] == SVC && ops[b + 12] == Jump(mark)
  {
  }

  lemma ToToken(w: Setting, b: nat, mark: string, token: string, c: Cpu) returns (d: Cpu)
    requires w.Ok() && Looping(w.ops, b, mark, token) && (w.Here(c, b) || w.Here(c, b + 1))
    ensures c.Valid() && d.Valid() && w.Reaches(c, d) && w.Here(d, b + 5) && token in w.a
    ensures Writing(d, w.a[token], 1)
  {
    hide Comes, CpuAt, Keeps2, DistinctMarks, Looping, Printing;
    LoopPieces(w.ops, b, mark, token);
    PastMarkAt(w, c, b);
    d := ToPrint(w, b + 1, token, 1, c);
  }

  lemma MoveToken(w: Setting, s: Pair, who: Who, b: nat, mark: string, token: string, text: seq<byte>, c: Cpu)
    returns (e: Cpu, d: Cpu)
    requires w.Ok() && Looping(w.ops, b, mark, token) && |text| == 1 && Idle(s, who, c) && w.Here(c, b + 5) && c.Valid()
    requires token in w.a && Holds(s.mem, w.a[token], text) && Writing(c, w.a[token], 1)
    ensures e.Valid() && d.Valid() && w.Reaches(e, d) && w.Here(d, b + 9) && Sleeping(w, d)
    ensures var t := w.Next(s, who);
            && Present(t, who) && t == With(s, who, e).(traps := t.traps, sent := s.sent + text, log := t.log)
            && Logged(s, who, e, t)
  {
    hide Comes, CpuAt, Keeps2, DistinctMarks, Looping, Printing, Holds, PairStep, Logged;
    LoopPieces(w.ops, b, mark, token);
    e := MovePrint(w, s, who, b + 1, token, text, c);
    d := Three(w, b + 6, e);
    AddressFits(w, "progress_delay");
  }

  lemma MoveSleep(w: Setting, s: Pair, who: Who, b: nat, mark: string, token: string, c: Cpu) returns (e: Cpu, d: Cpu)
    requires w.Ok() && Looping(w.ops, b, mark, token) && Idle(s, who, c) && w.Here(c, b + 9) && c.Valid()
    requires Sleeping(w, c)
    ensures e.Valid() && d.Valid() && w.Reaches(e, d) && w.Here(d, b + 11) && Asking(d, YIELD)
    ensures Silent(s, who, e, w.Next(s, who)) && Logged(s, who, e, w.Next(s, who))
  {
    hide Comes, CpuAt, Keeps2, DistinctMarks, Looping, Printing, PairStep, Silent, Logged;
    LoopPieces(w.ops, b, mark, token);
    e := QuietCall(w, s, who, b + 9, c);
    d := SimpleOp(w, b + 10, e);
    AtMeans(w, d, b + 11);
  }

  lemma MoveYield(w: Setting, s: Pair, who: Who, b: nat, mark: string, token: string, c: Cpu) returns (e: Cpu, d: Cpu)
    requires w.Ok() && Looping(w.ops, b, mark, token) && Idle(s, who, c) && w.Here(c, b + 11) && c.Valid()
    requires Asking(c, YIELD)
    ensures e.Valid() && d.Valid() && w.Reaches(e, d) && w.Here(d, b + 5) && token in w.a && Writing(d, w.a[token], 1)
    ensures Silent(s, who, e, w.Next(s, who)) && Logged(s, who, e, w.Next(s, who))
  {
    hide Comes, CpuAt, Keeps2, DistinctMarks, Looping, Printing, PairStep, Silent, Logged;
    LoopPieces(w.ops, b, mark, token);
    e := QuietCall(w, s, who, b + 11, c);
    var f := Branch(w, b + 12, b, e);
    d := ToToken(w, b, mark, token, f);
    Onward(w, e, f, d);
  }

  // ----- what an abstract step is, point by point -----

  lemma ParentSteps(a: P.State, result: int, observed: P.u32)
    ensures var b := P.Next(a, P.Parent(result, observed));
            && (a.parent == P.P_AFFINITY ==> b == a.(parent := if result == 0 then P.P_GETCPU else P.P_FAILURE))
            && (a.parent == P.P_GETCPU ==>
                  b == a.(parent := if result == 0 then P.P_CHECK_CPU else P.P_FAILURE, cpu0Observed := observed))
            && (a.parent == P.P_CHECK_CPU ==>
                  b == a.(parent := if a.cpu0Observed == 0 then P.P_CLONE else P.P_FAILURE,
                          pinned0 := a.cpu0Observed == 0))
            && (a.parent == P.P_CLONE ==>
                  b == if result < 0 then a.(parent := P.P_FAILURE)
                       else a.(parent := P.P_WAIT_READY, child := P.C_AFFINITY))
            && (a.parent == P.P_WAIT_READY ==> b == if a.ready == 1 then a.(parent := P.P_WRITE_READY) else a)
            && (a.parent == P.P_WRITE_READY ==> b == a.(parent := P.P_STORE_START, output := a.output + [P.Ready]))
            && (a.parent == P.P_STORE_START ==> b == a.(parent := P.P_TOKEN, start := 1))
            && (a.parent == P.P_TOKEN ==> b == a.(parent := P.P_SLEEP, output := a.output + [P.Token0]))
            && (a.parent == P.P_SLEEP ==> b == a.(parent := P.P_YIELD))
            && (a.parent == P.P_YIELD ==> b == a.(parent := P.P_TOKEN))
            && (a.parent == P.P_FAILURE ==> b == a)
  {
  }

  lemma ChildSteps(a: P.State, result: int, observed: P.u32)
    ensures var b := P.Next(a, P.Child(result, observed));
            && (a.child == P.C_AFFINITY ==> b == a.(child := if result == 0 then P.C_GETCPU else P.C_FAILURE))
            && (a.child == P.C_GETCPU ==>
                  b == a.(child := if result == 0 then P.C_CHECK_CPU else P.C_FAILURE, cpu1Observed := observed))
            && (a.child == P.C_CHECK_CPU ==>
                  b == a.(child := if a.cpu1Observed == 1 then P.C_STORE_READY else P.C_FAILURE,
                          pinned1 := a.cpu1Observed == 1))
            && (a.child == P.C_STORE_READY ==> b == a.(child := P.C_WAIT_START, ready := 1))
            && (a.child == P.C_WAIT_START ==> b == if a.start == 1 then a.(child := P.C_TOKEN) else a)
            && (a.child == P.C_TOKEN ==> b == a.(child := P.C_SLEEP, output := a.output + [P.Token1]))
            && (a.child == P.C_SLEEP ==> b == a.(child := P.C_YIELD))
            && (a.child == P.C_YIELD ==> b == a.(child := P.C_TOKEN))
            && (a.child == P.C_FAILURE ==> b == a)
  {
  }

  // ----- one visible step, point by point -----

  /** The parent pins itself. */
  lemma ParentSets(v: World, s: Pair, a: P.State) returns (i: P.Input, e: Cpu, d: Cpu)
    requires v.Ok() && v.Shows(s, a) && s.Pair? && a.parent == P.P_AFFINITY && ParentAt(v, s.first, a)
    requires Pinning(v.w.ops, 0, Cpu0Mask(), Cpu0Observed(), 0) && Failing(v.w.ops, 94)
    ensures ParentMoves(v, s, a, i, e, d) && i.Parent?
  {
    hide Prog, World.Ok, World.Shows, Keeps2, DistinctMarks, CpuAt, Names, Comes, PairStep, Logged, P.Next, Load32,
         ChangedOnlyIn, Store32, Holds, Pinning, Failing;
    v.Means();
    e, d := MoveSetAffinity(v.w, s, First, 0, 94, Cpu0Mask(), Cpu0Observed(), 0, s.first);
    i := P.Parent(if e.x[0] == 0 then 0 else 1, 0);
    ParentSteps(a, i.result, i.observed);
    StillShows(v, s, v.w.Next(s, First), a, P.Next(a, i));
  }

  lemma ParentGets(v: World, s: Pair, a: P.State) returns (i: P.Input, e: Cpu, d: Cpu)
    requires v.Ok() && v.Shows(s, a) && s.Pair? && a.parent == P.P_GETCPU && ParentAt(v, s.first, a)
    requires Pinning(v.w.ops, 0, Cpu0Mask(), Cpu0Observed(), 0) && Failing(v.w.ops, 94)
    ensures ParentMoves(v, s, a, i, e, d) && i.Parent?
  {
    hide Prog, World.Ok, World.Shows, Keeps2, DistinctMarks, CpuAt, Names, Comes, PairStep, Logged, P.Next, Load32,
         ChangedOnlyIn, Store32, Holds, Pinning, Failing;
    v.Means();
    e, d := MoveGetCpu(v.w, s, First, 0, 94, Cpu0Mask(), Cpu0Observed(), 0, s.first);
    var t := v.w.Next(s, First);
    var observed := Observed0(v, s, t, a);
    i := P.Parent(if e.x[0] == 0 then 0 else 1, observed);
    ParentSteps(a, i.result, i.observed);
    StillShows(v, t, t, a.(cpu0Observed := observed), P.Next(a, i));
  }

  lemma ParentChecks(v: World, s: Pair, a: P.State) returns (i: P.Input, e: Cpu, d: Cpu)
    requires v.Ok() && v.Shows(s, a) && s.Pair? && a.parent == P.P_CHECK_CPU && ParentAt(v, s.first, a)
    requires Pinning(v.w.ops, 0, Cpu0Mask(), Cpu0Observed(), 0) && Failing(v.w.ops, 94) && Cloning(v.w.ops, 18)
    ensures ParentMoves(v, s, a, i, e, d) && i.Parent?
  {
    hide Prog, World.Ok, World.Shows, Keeps2, DistinctMarks, CpuAt, Names, Comes, PairStep, Logged, P.Next, Load32,
         ChangedOnlyIn, Store32, Holds, Pinning, Failing, Cloning;
    v.Means();
    SharedWords(v, s, a);
    e, d := MoveCheckCpu(v.w, s, First, 0, 94, Cpu0Mask(), Cpu0Observed(), 0, s.first);
    if a.cpu0Observed == 0 {
      var f := d;
      d := ToClone(v.w, 18, f);
      Onward(v.w, e, f, d);
    }
    i := P.Parent(0, 0);
    ParentSteps(a, i.result, i.observed);
    StillShows(v, s, v.w.Next(s, First), a, P.Next(a, i));
  }

  /** The parent waits for the child and announces. */
  lemma ParentWaits(v: World, s: Pair, a: P.State) returns (i: P.Input, e: Cpu, d: Cpu)
    requires v.Ok() && v.Shows(s, a) && s.Pair? && a.parent == P.P_WAIT_READY && ParentAt(v, s.first, a)
    requires Waiting(v.w.ops, 28, ParentWait(), Cpu1Ready(), 1, NE)
    requires Printing(v.w.ops, 33, ReadyMarker(), READY_SIZE)
    ensures ParentMoves(v, s, a, i, e, d) && i.Parent?
  {
    hide Prog, World.Ok, World.Shows, Keeps2, DistinctMarks, CpuAt, Names, Comes, PairStep, Logged, P.Next, Load32,
         ChangedOnlyIn, Store32, Holds, Waiting, Printing;
    v.Means();
    SharedWords(v, s, a);
    e, d := MoveWait(v.w, s, First, 28, ParentWait(), Cpu1Ready(), 1, NE, s.first);
    if a.ready == 1 {
      var f := d;
      d := ToPrint(v.w, 33, ReadyMarker(), READY_SIZE, f);
      Onward(v.w, e, f, d);
    }
    i := P.Parent(0, 0);
    ParentSteps(a, i.result, i.observed);
    StillShows(v, s, v.w.Next(s, First), a, P.Next(a, i));
  }

  lemma ParentAnnounces(v: World, s: Pair, a: P.State) returns (i: P.Input, e: Cpu, d: Cpu)
    requires v.Ok() && v.Shows(s, a) && s.Pair? && a.parent == P.P_WRITE_READY && ParentAt(v, s.first, a)
    requires Printing(v.w.ops, 33, ReadyMarker(), READY_SIZE) && Storing(v.w.ops, 38, 1, Start())
    ensures ParentMoves(v, s, a, i, e, d) && i.Parent?
  {
    hide Prog, World.Ok, World.Shows, Keeps2, DistinctMarks, CpuAt, Names, Comes, PairStep, Logged, P.Next, Load32,
         ChangedOnlyIn, Store32, Holds, Printing, Storing;
    v.Means();
    TextsHeld(v, s, a);
    e := MovePrint(v.w, s, First, 33, ReadyMarker(), READY, s.first);
    d := ToStore(v.w, 38, 1, Start(), e);
    i := P.Parent(0, 0);
    ParentSteps(a, i.result, i.observed);
    SaidShows(v, s, v.w.Next(s, First), a, P.Next(a, i), P.Ready);
  }

  lemma ParentStarts(v: World, s: Pair, a: P.State) returns (i: P.Input, e: Cpu, d: Cpu)
    requires v.Ok() && v.Shows(s, a) && s.Pair? && a.parent == P.P_STORE_START && ParentAt(v, s.first, a)
    requires Storing(v.w.ops, 38, 1, Start()) && Looping(v.w.ops, 41, Cpu0Loop(), Cpu0Token())
    ensures ParentMoves(v, s, a, i, e, d) && i.Parent?
  {
    hide Prog, World.Ok, World.Shows, Keeps2, DistinctMarks, CpuAt, Names, Comes, PairStep, Logged, P.Next, Load32,
         ChangedOnlyIn, Store32, Holds, Storing, Looping;
    v.Means();
    SharedWords(v, s, a);
    e := MoveStore(v.w, s, First, 38, 1, Start(), s.first);
    d := ToToken(v.w, 41, Cpu0Loop(), Cpu0Token(), e);
    var t := v.w.Next(s, First);
    StoredStart(v, s, t, a);
    i := P.Parent(0, 0);
    ParentSteps(a, i.result, i.observed);
    StillShows(v, t, t, a.(start := 1), P.Next(a, i));
  }

  /** The parent's loop of tokens. */
  lemma ParentTells(v: World, s: Pair, a: P.State) returns (i: P.Input, e: Cpu, d: Cpu)
    requires v.Ok() && v.Shows(s, a) && s.Pair? && a.parent == P.P_TOKEN && ParentAt(v, s.first, a)
    requires Looping(v.w.ops, 41, Cpu0Loop(), Cpu0Token())
    ensures ParentMoves(v, s, a, i, e, d) && i.Parent?
  {
    hide Prog, World.Ok, World.Shows, Keeps2, DistinctMarks, CpuAt, Names, Comes, PairStep, Logged, P.Next, Load32,
         ChangedOnlyIn, Store32, Holds, Looping;
    v.Means();
    TextsHeld(v, s, a);
    e, d := MoveToken(v.w, s, First, 41, Cpu0Loop(), Cpu0Token(), TOKEN0, s.first);
    i := P.Parent(0, 0);
    ParentSteps(a, i.result, i.observed);
    SaidShows(v, s, v.w.Next(s, First), a, P.Next(a, i), P.Token0);
  }

  lemma ParentSleeps(v: World, s: Pair, a: P.State) returns (i: P.Input, e: Cpu, d: Cpu)
    requires v.Ok() && v.Shows(s, a) && s.Pair? && a.parent == P.P_SLEEP && ParentAt(v, s.first, a)
    requires Looping(v.w.ops, 41, Cpu0Loop(), Cpu0Token())
    ensures ParentMoves(v, s, a, i, e, d) && i.Parent?
  {
    hide Prog, World.Ok, World.Shows, Keeps2, DistinctMarks, CpuAt, Names, Comes, PairStep, Logged, P.Next, Load32,
         ChangedOnlyIn, Store32, Holds, Looping;
    v.Means();
    e, d := MoveSleep(v.w, s, First, 41, Cpu0Loop(), Cpu0Token(), s.first);
    i := P.Parent(0, 0);
    ParentSteps(a, i.result, i.observed);
    StillShows(v, s, v.w.Next(s, First), a, P.Next(a, i));
  }

  lemma ParentYields(v: World, s: Pair, a: P.State) returns (i: P.Input, e: Cpu, d: Cpu)
    requires v.Ok() && v.Shows(s, a) && s.Pair? && a.parent == P.P_YIELD && ParentAt(v, s.first, a)
    requires Looping(v.w.ops, 41, Cpu0Loop(), Cpu0Token())
    ensures ParentMoves(v, s, a, i, e, d) && i.Parent?
  {
    hide Prog, World.Ok, World.Shows, Keeps2, DistinctMarks, CpuAt, Names, Comes, PairStep, Logged, P.Next, Load32,
         ChangedOnlyIn, Store32, Holds, Looping;
    v.Means();
    e, d := MoveYield(v.w, s, First, 41, Cpu0Loop(), Cpu0Token(), s.first);
    i := P.Parent(0, 0);
    ParentSteps(a, i.result, i.observed);
    StillShows(v, s, v.w.Next(s, First), a, P.Next(a, i));
  }

  /** The child pins itself. */
  lemma ChildSets(v: World, s: Pair, a: P.State) returns (i: P.Input, e: Cpu, d: Cpu)
    requires v.Ok() && v.Shows(s, a) && s.Pair? && a.child == P.C_AFFINITY && s.second.Some?
    requires ChildAt(v, s.second.value, a)
    requires Pinning(v.w.ops, 55, Cpu1Mask(), Cpu1Observed(), 1) && Failing(v.w.ops, 94)
    ensures ChildMoves(v, s, a, i, e, d) && i.Child?
  {
    hide Prog, World.Ok, World.Shows, Keeps2, DistinctMarks, CpuAt, Names, Comes, PairStep, Logged, P.Next, Load32,
         ChangedOnlyIn, Store32, Holds, Pinning, Failing;
    v.Means();
    e, d := MoveSetAffinity(v.w, s, Second, 55, 94, Cpu1Mask(), Cpu1Observed(), 1, s.second.value);
    i := P.Child(if e.x[0] == 0 then 0 else 1, 0);
    ChildSteps(a, i.result, i.observed);
    StillShows(v, s, v.w.Next(s, Second), a, P.Next(a, i));
  }

  lemma ChildGets(v: World, s: Pair, a: P.State) returns (i: P.Input, e: Cpu, d: Cpu)
    requires v.Ok() && v.Shows(s, a) && s.Pair? && a.child == P.C_GETCPU && s.second.Some?
    requires ChildAt(v, s.second.value, a)
    requires Pinning(v.w.ops, 55, Cpu1Mask(), Cpu1Observed(), 1) && Failing(v.w.ops, 94)
    ensures ChildMoves(v, s, a, i, e, d) && i.Child?
  {
    hide Prog, World.Ok, World.Shows, Keeps2, DistinctMarks, CpuAt, Names, Comes, PairStep, Logged, P.Next, Load32,
         ChangedOnlyIn, Store32, Holds, Pinning, Failing;
    v.Means();
    e, d := MoveGetCpu(v.w, s, Second, 55, 94, Cpu1Mask(), Cpu1Observed(), 1, s.second.value);
    var t := v.w.Next(s, Second);
    var observed := Observed1(v, s, t, a);
    i := P.Child(if e.x[0] == 0 then 0 else 1, observed);
    ChildSteps(a, i.result, i.observed);
    StillShows(v, t, t, a.(cpu1Observed := observed), P.Next(a, i));
  }

  lemma ChildChecks(v: World, s: Pair, a: P.State) returns (i: P.Input, e: Cpu, d: Cpu)
    requires v.Ok() && v.Shows(s, a) && s.Pair? && a.child == P.C_CHECK_CPU && s.second.Some?
    requires ChildAt(v, s.second.value, a)
    requires Pinning(v.w.ops, 55, Cpu1Mask(), Cpu1Observed(), 1) && Failing(v.w.ops, 94)
    requires Storing(v.w.ops, 73, 1, Cpu1Ready())
    ensures ChildMoves(v, s, a, i, e, d) && i.Child?
  {
    hide Prog, World.Ok, World.Shows, Keeps2, DistinctMarks, CpuAt, Names, Comes, PairStep, Logged, P.Next, Load32,
         ChangedOnlyIn, Store32, Holds, Pinning, Failing, Storing;
    v.Means();
    SharedWords(v, s, a);
    e, d := MoveCheckCpu(v.w, s, Second, 55, 94, Cpu1Mask(), Cpu1Observed(), 1, s.second.value);
    if a.cpu1Observed == 1 {
      var f := d;
      d := ToStore(v.w, 73, 1, Cpu1Ready(), f);
      Onward(v.w, e, f, d);
    }
    i := P.Child(0, 0);
    ChildSteps(a, i.result, i.observed);
    StillShows(v, s, v.w.Next(s, Second), a, P.Next(a, i));
  }

  /** The child reports and waits for the start. */
  lemma ChildReports(v: World, s: Pair, a: P.State) returns (i: P.Input, e: Cpu, d: Cpu)
    requires v.Ok() && v.Shows(s, a) && s.Pair? && a.child == P.C_STORE_READY && s.second.Some?
    requires ChildAt(v, s.second.value, a)
    requires Storing(v.w.ops, 73, 1, Cpu1Ready())
    requires Waiting(v.w.ops, 76, ChildWait(), Start(), 1, NE)
    ensures ChildMoves(v, s, a, i, e, d) && i.Child?
  {
    hide Prog, World.Ok, World.Shows, Keeps2, DistinctMarks, CpuAt, Names, Comes, PairStep, Logged, P.Next, Load32,
         ChangedOnlyIn, Store32, Holds, Waiting, Storing;
    v.Means();
    SharedWords(v, s, a);
    e := MoveStore(v.w, s, Second, 73, 1, Cpu1Ready(), s.second.value);
    d := ToWait(v.w, 76, ChildWait(), Start(), 1, NE, e);
    var t := v.w.Next(s, Second);
    StoredReady(v, s, t, a);
    i := P.Child(0, 0);
    ChildSteps(a, i.result, i.observed);
    StillShows(v, t, t, a.(ready := 1), P.Next(a, i));
  }

  lemma ChildWaits(v: World, s: Pair, a: P.State) returns (i: P.Input, e: Cpu, d: Cpu)
    requires v.Ok() && v.Shows(s, a) && s.Pair? && a.child == P.C_WAIT_START && s.second.Some?
    requires ChildAt(v, s.second.value, a)
    requires Waiting(v.w.ops, 76, ChildWait(), Start(), 1, NE)
    requires Looping(v.w.ops, 81, Cpu1Loop(), Cpu1Token())
    ensures ChildMoves(v, s, a, i, e, d) && i.Child?
  {
    hide Prog, World.Ok, World.Shows, Keeps2, DistinctMarks, CpuAt, Names, Comes, PairStep, Logged, P.Next, Load32,
         ChangedOnlyIn, Store32, Holds, Waiting, Looping;
    v.Means();
    SharedWords(v, s, a);
    e, d := MoveWait(v.w, s, Second, 76, ChildWait(), Start(), 1, NE, s.second.value);
    if a.start == 1 {
      var f := d;
      d := ToToken(v.w, 81, Cpu1Loop(), Cpu1Token(), f);
      Onward(v.w, e, f, d);
    }
    i := P.Child(0, 0);
    ChildSteps(a, i.result, i.observed);
    StillShows(v, s, v.w.Next(s, Second), a, P.Next(a, i));
  }

  /** The child's loop of tokens. */
  lemma ChildTells(v: World, s: Pair, a: P.State) returns (i: P.Input, e: Cpu, d: Cpu)
    requires v.Ok() && v.Shows(s, a) && s.Pair? && a.child == P.C_TOKEN && s.second.Some?
    requires ChildAt(v, s.second.value, a)
    requires Looping(v.w.ops, 81, Cpu1Loop(), Cpu1Token())
    ensures ChildMoves(v, s, a, i, e, d) && i.Child?
  {
    hide Prog, World.Ok, World.Shows, Keeps2, DistinctMarks, CpuAt, Names, Comes, PairStep, Logged, P.Next, Load32,
         ChangedOnlyIn, Store32, Holds, Looping;
    v.Means();
    TextsHeld(v, s, a);
    e, d := MoveToken(v.w, s, Second, 81, Cpu1Loop(), Cpu1Token(), TOKEN1, s.second.value);
    i := P.Child(0, 0);
    ChildSteps(a, i.result, i.observed);
    SaidShows(v, s, v.w.Next(s, Second), a, P.Next(a, i), P.Token1);
  }

  lemma ChildSleeps(v: World, s: Pair, a: P.State) returns (i: P.Input, e: Cpu, d: Cpu)
    requires v.Ok() && v.Shows(s, a) && s.Pair? && a.child == P.C_SLEEP && s.second.Some?
    requires ChildAt(v, s.second.value, a)
    requires Looping(v.w.ops, 81, Cpu1Loop(), Cpu1Token())
    ensures ChildMoves(v, s, a, i, e, d) && i.Child?
  {
    hide Prog, World.Ok, World.Shows, Keeps2, DistinctMarks, CpuAt, Names, Comes, PairStep, Logged, P.Next, Load32,
         ChangedOnlyIn, Store32, Holds, Looping;
    v.Means();
    e, d := MoveSleep(v.w, s, Second, 81, Cpu1Loop(), Cpu1Token(), s.second.value);
    i := P.Child(0, 0);
    ChildSteps(a, i.result, i.observed);
    StillShows(v, s, v.w.Next(s, Second), a, P.Next(a, i));
  }

  lemma ChildYields(v: World, s: Pair, a: P.State) returns (i: P.Input, e: Cpu, d: Cpu)
    requires v.Ok() && v.Shows(s, a) && s.Pair? && a.child == P.C_YIELD && s.second.Some?
    requires ChildAt(v, s.second.value, a)
    requires Looping(v.w.ops, 81, Cpu1Loop(), Cpu1Token())
    ensures ChildMoves(v, s, a, i, e, d) && i.Child?
  {
    hide Prog, World.Ok, World.Shows, Keeps2, DistinctMarks, CpuAt, Names, Comes, PairStep, Logged, P.Next, Load32,
         ChangedOnlyIn, Store32, Holds, Looping;
    v.Means();
    e, d := MoveYield(v.w, s, Second, 81, Cpu1Loop(), Cpu1Token(), s.second.value);
    i := P.Child(0, 0);
    ChildSteps(a, i.result, i.observed);
    StillShows(v, s, v.w.Next(s, Second), a, P.Next(a, i));
  }

  /** A failed CPU exits and then stays put. */
  lemma ParentLeaves(v: World, s: Pair, a: P.State) returns (i: P.Input, e: Cpu, d: Cpu)
    requires v.Ok() && v.Shows(s, a) && s.Pair? && a.parent == P.P_FAILURE && ParentAt(v, s.first, a)
    requires Failing(v.w.ops, 94)
    ensures ParentMoves(v, s, a, i, e, d) && i.Parent?
  {
    hide Prog, World.Ok, World.Shows, Keeps2, DistinctMarks, CpuAt, Names, Comes, PairStep, Logged, P.Next, Load32,
         ChangedOnlyIn, Store32, Holds, Failing;
    v.Means();
    e := MoveLeaving(v.w, s, First, 94, s.first);
    d := e;
    i := P.Parent(0, 0);
    ParentSteps(a, i.result, i.observed);
    StillShows(v, s, v.w.Next(s, First), a, P.Next(a, i));
  }

  lemma ChildLeaves(v: World, s: Pair, a: P.State) returns (i: P.Input, e: Cpu, d: Cpu)
    requires v.Ok() && v.Shows(s, a) && s.Pair? && a.child == P.C_FAILURE && s.second.Some?
    requires ChildAt(v, s.second.value, a)
    requires Failing(v.w.ops, 94)
    ensures ChildMoves(v, s, a, i, e, d) && i.Child?
  {
    hide Prog, World.Ok, World.Shows, Keeps2, DistinctMarks, CpuAt, Names, Comes, PairStep, Logged, P.Next, Load32,
         ChangedOnlyIn, Store32, Holds, Failing;
    v.Means();
    e := MoveLeaving(v.w, s, Second, 94, s.second.value);
    d := e;
    i := P.Child(0, 0);
    ChildSteps(a, i.result, i.observed);
    StillShows(v, s, v.w.Next(s, Second), a, P.Next(a, i));
  }
}
