/** The hotplug program as emitted: executed by two CPUs an instruction at a
    time, it does what its transition system does. */
module HotplugCode {
  import opened Bytes
  import opened A64
  import opened Machine
  import opened Assembler
  import opened Syscalls
  import opened Layout
  import opened Blocks
  import opened Templates
  import opened SmpData
  import opened Duo
  import opened DuoOps
  import opened DuoCode
  import opened HotplugPieces
  import opened Calls
  import opened HotplugCalls
  import H = Hotplug

  /** The setting of a run. */
  datatype World = World(w: Setting) {
    predicate Named() {
      && Cpu0Observed() in w.a && Cpu1Observed() in w.a && Cpu1Ready() in w.a && Quiesced() in w.a && Start() in w.a
      && Progress() in w.a && Baseline() in w.a && TextsNamed()
    }

    predicate TextsNamed() {
      && Cpu0Mask() in w.a && Cpu1Mask() in w.a && "sysfs" in w.a && "sys" in w.a && "cpu1_online" in w.a
      && OfflineValue() in w.a && OnlineValue() in w.a && ReadyMarker() in w.a && OffMarker() in w.a
      && DoneMarker() in w.a && "child_stack" in w.a
    }

    /** The addresses of the shared words. */
    function Places(): (p: seq<int>)
      requires Named()
      ensures |p| == 7
    {
      [w.a[Cpu0Observed()], w.a[Cpu1Observed()], w.a[Cpu1Ready()], w.a[Quiesced()], w.a[Start()], w.a[Progress()],
       w.a[Baseline()]]
    }

    function Cells(a: H.State): (c: seq<Cell>)
      requires Named()
      ensures |c| == 7 && PlacesOf(c) == Places()
    {
      [Cell(w.a[Cpu0Observed()], a.cpu0Observed), Cell(w.a[Cpu1Observed()], a.cpu1Observed),
       Cell(w.a[Cpu1Ready()], a.ready), Cell(w.a[Quiesced()], a.quiesced), Cell(w.a[Start()], a.start),
       Cell(w.a[Progress()], a.progress), Cell(w.a[Baseline()], a.baseline)]
    }

    /** The bytes that never change. */
    function Texts(): (t: seq<Message>)
      requires TextsNamed()
      ensures |t| == 11
    {
      [Message(w.a[Cpu0Mask()], MASK0), Message(w.a[Cpu1Mask()], MASK1), Message(w.a["sysfs"], SYSFS),
       Message(w.a["sys"], SYS), Message(w.a["cpu1_online"], ONLINE_FILE), Message(w.a[OfflineValue()], ZERO),
       Message(w.a[OnlineValue()], ONE), Message(w.a[ReadyMarker()], READY), Message(w.a[OffMarker()], OFF),
       Message(w.a[DoneMarker()], DONE), Message(w.a["child_stack"], Zeros(4096))]
    }

    ghost predicate Ok() {
      w.Ok() && |w.ops| == 224 && Named() && Laid(Places(), Texts()) && w.a["child_stack"] % 16 == 0
    }

    lemma Means()
      requires Ok()
      ensures w.Ok() && |w.ops| == 224 && Named() && Names(w.ops, w.a)
    {
    }

    /** The addresses the calls are about. */
    function Addresses(): Words
      requires Named()
    {
      Words(w.a[Cpu0Observed()], w.a[Cpu1Observed()], w.a[Start()])
    }

    function Bytes(m: H.Marker): seq<byte> {
      match m case Ready => READY case Off => OFF case Done => DONE
    }

    /** The bytes an output stands for. */
    function Rendered(output: seq<H.Marker>): seq<byte> {
      if output == [] then [] else Rendered(output[..|output| - 1]) + Bytes(output[|output| - 1])
    }

    /** Memory and terminal are as the abstract state says. */
    predicate Shows(s: Pair, a: H.State)
      requires Named()
    {
      s.Pair? && Stores(s.mem, Cells(a), Texts()) && s.sent == Rendered(a.output)
    }
  }

  lemma RenderOne(v: World, output: seq<H.Marker>, m: H.Marker)
    ensures v.Rendered(output + [m]) == v.Rendered(output) + v.Bytes(m)
  {
    assert (output + [m])[..|output|] == output;
  }

  // ----- where each CPU is -----

  /** At a load or a store of this word. */
  predicate Facing(v: World, c: Cpu, k: nat, name: string)
    requires Names(v.w.ops, v.w.a)
  {
    c.Valid() && v.w.Here(c, k) && name in v.w.a && c.x[1] == v.w.a[name]
  }

  predicate Calling(v: World, c: Cpu, k: nat, call: imm16)
    requires Names(v.w.ops, v.w.a)
  {
    c.Valid() && v.w.Here(c, k) && Asking(c, call)
  }

  predicate Telling(v: World, c: Cpu, k: nat, name: string, size: nat)
    requires Names(v.w.ops, v.w.a)
  {
    c.Valid() && v.w.Here(c, k) && name in v.w.a && Writing(c, v.w.a[name], size)
  }

  predicate SetupAt(v: World, c: Cpu, a: H.State)
    requires Names(v.w.ops, v.w.a)
  {
    if a.parent == H.P_AFFINITY then Calling(v, c, 4, SETAFFINITY) && Pinned(v.w, c, Cpu0Mask())
    else if a.parent == H.P_GETCPU then
      Calling(v, c, 11, SYSCALL_GETCPU) && Placing(v.w, c, Cpu0Observed())
    else if a.parent == H.P_CHECK_CPU then Facing(v, c, 15, Cpu0Observed())
    else if a.parent == H.P_MOUNT then Calling(v, c, 24, MOUNT) && MountGiven(v.w, c)
    else if a.parent == H.P_CLONE then Calling(v, c, 33, SYSCALL_CLONE) && Splitting(v.w, c)
    else if a.parent == H.P_WAIT_READY then Facing(v, c, 39, Cpu1Ready())
    else Facing(v, c, 44, Start()) && c.x[0] == 1
  }

  predicate OfflineAt(v: World, c: Cpu, a: H.State)
    requires Names(v.w.ops, v.w.a)
  {
    if a.parent == H.P_WAIT_PROGRESS then Facing(v, c, 47, Progress())
    else if a.parent == H.P_WRITE_READY then Telling(v, c, 54, ReadyMarker(), READY_SIZE)
    else if a.parent == H.P_OFFLINE_OPEN then Calling(v, c, 60, SYSCALL_OPENAT) && OpenGiven(v.w, c)
    else if a.parent == H.P_OFFLINE_WRITE then
      Calling(v, c, 67, SYSCALL_WRITE) && WriteGiven(v.w, c, OfflineValue())
    else if a.parent == H.P_OFFLINE_CLOSE then Calling(v, c, 72, CLOSE)
    else if a.parent == H.P_STORE_2 then Facing(v, c, 77, Start()) && c.x[0] == 2
    else Facing(v, c, 80, Quiesced())
  }

  predicate FreezeAt(v: World, c: Cpu, a: H.State)
    requires Names(v.w.ops, v.w.a)
  {
    if a.parent == H.P_LOAD_BASELINE then Facing(v, c, 84, Progress())
    else if a.parent == H.P_STORE_BASELINE then Facing(v, c, 86, Baseline()) && c.x[0] == a.x0
    else if a.parent == H.P_WRITE_OFF then Telling(v, c, 91, OffMarker(), OFF_SIZE)
    else if a.parent == H.P_QUIESCENCE then Calling(v, c, 95, YIELD) && 1 <= c.x[5] == a.x5
    else if a.parent == H.P_FREEZE_LOAD then Facing(v, c, 100, Progress())
    else if a.parent == H.P_FREEZE_BASELINE then Facing(v, c, 102, Baseline()) && c.x[0] == a.x0
    else if a.parent == H.P_ONLINE_OPEN then Calling(v, c, 110, SYSCALL_OPENAT) && OpenGiven(v.w, c)
    else if a.parent == H.P_ONLINE_WRITE then
      Calling(v, c, 117, SYSCALL_WRITE) && WriteGiven(v.w, c, OnlineValue())
    else if a.parent == H.P_ONLINE_CLOSE then Calling(v, c, 122, CLOSE)
    else a.parent == H.P_STORE_3 && Facing(v, c, 127, Start()) && c.x[0] == 3
  }

  predicate ReentryAt(v: World, c: Cpu, a: H.State)
    requires Names(v.w.ops, v.w.a)
  {
    if a.parent == H.P_REENTRY_LOAD then Facing(v, c, 130, Progress())
    else if a.parent == H.P_REENTRY_BASELINE then Facing(v, c, 132, Baseline()) && c.x[0] == a.x0
    else if a.parent == H.P_WRITE_DONE then Telling(v, c, 139, DoneMarker(), DONE_SIZE)
    else if a.parent == H.P_POWER_OFF then PowerGiven(v.w, 140, c)
    else (a.parent == H.P_FAILURE || a.parent == H.P_THAWED) && Leaving(v.w, 219, c)
  }

  /** The first CPU at the visible instruction of the abstract parent's point.
      The points that only compare registers have none. */
  predicate ParentAt(v: World, c: Cpu, a: H.State)
    requires Names(v.w.ops, v.w.a)
  {
    if a.parent <= H.P_STORE_1 then SetupAt(v, c, a)
    else if a.parent <= H.P_WAIT_QUIESCED then OfflineAt(v, c, a)
    else if a.parent <= H.P_STORE_3 then FreezeAt(v, c, a)
    else ReentryAt(v, c, a)
  }

  /** At one of the three yields of the child. */
  predicate AtYield(v: World, c: Cpu)
    requires Names(v.w.ops, v.w.a)
  {
    Calling(v, c, 179, YIELD) || Calling(v, c, 187, YIELD) || Calling(v, c, 194, YIELD)
  }

  predicate ChildAt(v: World, c: Cpu, a: H.State)
    requires Names(v.w.ops, v.w.a)
  {
    if a.child == H.C_AFFINITY then Calling(v, c, 152, SETAFFINITY) && Pinned(v.w, c, Cpu1Mask())
    else if a.child == H.C_GETCPU then
      Calling(v, c, 159, SYSCALL_GETCPU) && Placing(v.w, c, Cpu1Observed())
    else if a.child == H.C_CHECK_CPU then Facing(v, c, 163, Cpu1Observed())
    else if a.child == H.C_STORE_READY then Facing(v, c, 168, Cpu1Ready()) && c.x[0] == 1
    else if a.child == H.C_DISPATCH then Facing(v, c, 171, Start()) || AtYield(v, c)
    else if a.child == H.C_QUIESCE then Facing(v, c, 192, Quiesced()) && c.x[0] == 1
    else if a.child == H.C_RE_AFFINITY then Calling(v, c, 201, SETAFFINITY) && Pinned(v.w, c, Cpu1Mask())
    else if a.child == H.C_RE_GETCPU then
      Calling(v, c, 208, SYSCALL_GETCPU) && Placing(v.w, c, Cpu1Observed())
    else if a.child == H.C_RE_CHECK_CPU then Facing(v, c, 212, Cpu1Observed())
    else if a.child == H.C_STORE_4 then Facing(v, c, 217, Start()) && c.x[0] == 4
    else if a.child == H.C_LOAD_PROGRESS then Facing(v, c, 183, Progress())
    else if a.child == H.C_STORE_PROGRESS then
      Facing(v, c, 185, Progress()) && c.x[0] == (a.c0 + 1) % 0x1_0000_0000
    else a.child == H.C_FAILURE && Leaving(v.w, 219, c)
  }

  // ----- one visible step -----

  /** At most two abstract steps. */
  predicate Follows(a: H.State, inputs: seq<H.Input>, b: H.State) {
    || (inputs == [] && b == a)
    || (|inputs| == 1 && b == H.Next(a, inputs[0]))
    || (|inputs| == 2 && b == H.Next(H.Next(a, inputs[0]), inputs[1]))
  }

  /** How the parent goes on, given what its registers `c` became: `e` after
      the instruction, `d` at the next visible one. */
  predicate Told(v: World, a: H.State, b: H.State, c: Cpu, e: Cpu, d: Cpu)
    requires Names(v.w.ops, v.w.a)
  {
    && c.Valid() && e.Valid() && d.Valid() && (a.parent != H.P_GETCPU ==> b.cpu0Observed == a.cpu0Observed)
    && if a.parent == H.P_AFFINITY || a.parent == H.P_GETCPU || a.parent == H.P_MOUNT || a.parent == H.P_OFFLINE_CLOSE
          || a.parent == H.P_ONLINE_CLOSE then b.parent == H.Checked(e.x[0] == 0, a.parent + 1)
       else if a.parent == H.P_CHECK_CPU then b.parent == H.Checked(a.cpu0Observed == 0, H.P_MOUNT)
       else if a.parent == H.P_OFFLINE_OPEN || a.parent == H.P_ONLINE_OPEN then
         b.parent == H.Checked(e.x[0] < SIGN, a.parent + 1) && (e.x[0] < SIGN ==> d.x[0] == e.x[0])
       else if a.parent == H.P_OFFLINE_WRITE || a.parent == H.P_ONLINE_WRITE then
         b.parent == H.Checked(e.x[0] == 1, a.parent + 1) && (e.x[0] == 1 ==> d.x[0] == c.x[6])
       else if a.parent == H.P_QUIESCENCE then
         if a.x5 > 1 then b.parent == a.parent && b.x5 == a.x5 - 1 else b.parent == H.P_FREEZE_LOAD
       else if a.parent == H.P_WRITE_OFF then b.parent == H.P_QUIESCENCE && b.x5 == 4095
       else if a.parent == H.P_FREEZE_BASELINE then b.parent == H.P_ONLINE_OPEN || b.parent == H.P_THAWED
       else if a.parent == H.P_REENTRY_BASELINE then b.parent == H.P_REENTRY_LOAD || b.parent == H.P_WRITE_DONE
       else if a.parent == H.P_WRITE_DONE then b.parent == H.P_POWER_OFF && v.w.Here(d, 145)
       else if a.parent == H.P_POWER_OFF then b.parent == a.parent && v.w.Here(d, 146)
       else if a.parent >= H.P_FAILURE then b.parent == a.parent && v.w.Here(d, 223)
       else if Awaits(a.parent) then b.parent == a.parent || b.parent == a.parent + 1
       else b.parent == a.parent + 1
  }

  predicate Awaits(parent: nat) {
    parent == H.P_WAIT_READY || parent == H.P_WAIT_PROGRESS || parent == H.P_WAIT_QUIESCED
  }

  /** Points at which the parent makes a call. */
  predicate IsCall(parent: nat) {
    || parent == H.P_AFFINITY || parent == H.P_GETCPU || parent == H.P_MOUNT || parent == H.P_CLONE
    || (H.P_WRITE_READY <= parent <= H.P_OFFLINE_CLOSE) || parent == H.P_WRITE_OFF || parent == H.P_QUIESCENCE
    || (H.P_ONLINE_OPEN <= parent <= H.P_ONLINE_CLOSE) || parent == H.P_WRITE_DONE
  }

  /** Calls, and only they, are logged. */
  predicate ParentLogs(v: World, s: Pair, t: Pair, a: H.State, e: Cpu)
    requires Names(v.w.ops, v.w.a) && s.Pair?
  {
    if IsCall(a.parent) || (a.parent == H.P_POWER_OFF && !v.w.Here(s.first, 146))
       || (a.parent >= H.P_FAILURE && !v.w.Here(s.first, 223)) then Logged(s, First, e, t)
    else SameLog(s, t)
  }

  predicate ChildLogs(v: World, s: Pair, t: Pair, a: H.State, e: Cpu)
    requires Names(v.w.ops, v.w.a) && s.Pair? && s.second.Some?
  {
    if a.child == H.C_AFFINITY || a.child == H.C_GETCPU || a.child == H.C_RE_AFFINITY || a.child == H.C_RE_GETCPU
       || (a.child == H.C_DISPATCH && !Facing(v, s.second.value, 171, Start()))
       || (a.child == H.C_FAILURE && !v.w.Here(s.second.value, 223)) then Logged(s, Second, e, t)
    else SameLog(s, t)
  }

  /** A failed parent is at its exit call. */
  predicate JustFailed(v: World, a: H.State, b: H.State, d: Cpu)
    requires Names(v.w.ops, v.w.a)
  {
    a.parent < H.P_FAILURE <= b.parent ==> Quitting(v.w, 219, d)
  }

  /** How the child goes on. */
  predicate ChildTold(v: World, a: H.State, b: H.State, e: Cpu, d: Cpu)
    requires Names(v.w.ops, v.w.a)
  {
    && e.Valid() && d.Valid()
    && (a.child != H.C_GETCPU && a.child != H.C_RE_GETCPU ==> b.cpu1Observed == a.cpu1Observed)
    && (a.child < H.C_FAILURE == b.child ==> Quitting(v.w, 219, d))
    && if a.child == H.C_AFFINITY || a.child == H.C_GETCPU || a.child == H.C_RE_AFFINITY
          || a.child == H.C_RE_GETCPU then
         b.child == H.ChildChecked(e.x[0] == 0, a.child + 1) && b.saw3 == a.saw3
       else if a.child == H.C_CHECK_CPU || a.child == H.C_RE_CHECK_CPU then
         b.child == H.ChildChecked(a.cpu1Observed == 1, a.child + 1) && b.saw3 == a.saw3
       else if a.child == H.C_FAILURE then b.child == a.child && v.w.Here(d, 223)
       else if a.child == H.C_DISPATCH then
         || (Resting(b.child) && b.saw3 == a.saw3)
         || (b.child == H.C_RE_AFFINITY && a.start == 3 && b.saw3)
       else if a.child == H.C_STORE_READY then b.child == H.C_DISPATCH && b.saw3 == a.saw3
       else Resting(b.child) && b.saw3 == a.saw3
  }

  /** In the dispatch loop. */
  predicate Resting(child: nat) {
    child == H.C_DISPATCH || child == H.C_QUIESCE || child == H.C_LOAD_PROGRESS || child == H.C_STORE_PROGRESS
  }

  /** The first CPU executes the instruction it has come to, and is on its way
      to the one of the next abstract state. */
  ghost predicate ParentMoves(v: World, s: Pair, a: H.State, b: H.State, e: Cpu, d: Cpu) {
    && v.Named() && Names(v.w.ops, v.w.a)
    && var t := v.w.Next(s, First);
    && t.Pair? && s.Pair? && t.first == e && t.second == s.second && b.child == a.child && b.c0 == a.c0
    && b.cpu1Observed == a.cpu1Observed && b.saw3 == a.saw3
    && v.w.Reaches(e, d) && ParentAt(v, d, b) && v.Shows(t, b)
    && Told(v, a, b, s.first, e, d) && JustFailed(v, a, b, d) && ParentLogs(v, s, t, a, e)
  }

  ghost predicate ChildMoves(v: World, s: Pair, a: H.State, b: H.State, e: Cpu, d: Cpu) {
    && v.Named() && Names(v.w.ops, v.w.a)
    && var t := v.w.Next(s, Second);
    && t.Pair? && s.Pair? && t.second == Some(e) && t.first == s.first
    && b.parent == a.parent && b.x0 == a.x0 && b.x2 == a.x2 && b.x5 == a.x5
    && b.cpu0Observed == a.cpu0Observed
    && v.w.Reaches(e, d) && ChildAt(v, d, b) && v.Shows(t, b) && ChildTold(v, a, b, e, d)
    && s.second.Some? && ChildLogs(v, s, t, a, e)
  }

  /** What the shared words hold. */
  lemma SharedWords(v: World, s: Pair, a: H.State)
    requires v.Ok() && v.Shows(s, a)
    ensures Word(v.w, s.mem, Cpu0Observed(), a.cpu0Observed) && Word(v.w, s.mem, Cpu1Observed(), a.cpu1Observed)
    ensures Word(v.w, s.mem, Cpu1Ready(), a.ready) && Word(v.w, s.mem, Quiesced(), a.quiesced)
    ensures Word(v.w, s.mem, Start(), a.start) && Word(v.w, s.mem, Progress(), a.progress)
    ensures Word(v.w, s.mem, Baseline(), a.baseline)
  {
    hide Load32, Mapped;
    var c, p := v.Cells(a), v.Places();
    assert p[0] % 4 == 0 && p[1] % 4 == 0 && p[2] % 4 == 0 && p[3] % 4 == 0 && p[4] % 4 == 0 && p[5] % 4 == 0;
    assert p[6] % 4 == 0;
    assert Mapped(s.mem, c[0].address) && Mapped(s.mem, c[1].address) && Mapped(s.mem, c[2].address);
    assert Mapped(s.mem, c[3].address) && Mapped(s.mem, c[4].address) && Mapped(s.mem, c[5].address);
    assert Mapped(s.mem, c[6].address);
  }

  /** What memory holds for good. */
  predicate Constants(v: World, mem: Memory)
    requires v.TextsNamed()
  {
    && Holds(mem, v.w.a[Cpu0Mask()], MASK0) && Holds(mem, v.w.a[Cpu1Mask()], MASK1)
    && Holds(mem, v.w.a["sysfs"], SYSFS) && Holds(mem, v.w.a["sys"], SYS)
    && Holds(mem, v.w.a["cpu1_online"], ONLINE_FILE) && Holds(mem, v.w.a[OfflineValue()], ZERO)
    && Holds(mem, v.w.a[OnlineValue()], ONE) && Holds(mem, v.w.a[ReadyMarker()], READY)
    && Holds(mem, v.w.a[OffMarker()], OFF) && Holds(mem, v.w.a[DoneMarker()], DONE)
    && Holds(mem, v.w.a["child_stack"], Zeros(4096))
  }

  lemma TextsHeld(v: World, s: Pair, a: H.State)
    requires v.Ok() && v.Shows(s, a)
    ensures Constants(v, s.mem)
  {
    hide Holds;
    var t := v.Texts();
    assert Holds(s.mem, t[0].address, t[0].bytes);
    assert Holds(s.mem, t[1].address, t[1].bytes);
    assert Holds(s.mem, t[2].address, t[2].bytes);
    assert Holds(s.mem, t[3].address, t[3].bytes);
    assert Holds(s.mem, t[4].address, t[4].bytes);
    assert Holds(s.mem, t[5].address, t[5].bytes);
    assert Holds(s.mem, t[6].address, t[6].bytes);
    assert Holds(s.mem, t[7].address, t[7].bytes);
    assert Holds(s.mem, t[8].address, t[8].bytes);
    assert Holds(s.mem, t[9].address, t[9].bytes);
    assert Holds(s.mem, t[10].address, t[10].bytes);
  }

  /** The abstract states show the same. */
  predicate SameView(a: H.State, b: H.State) {
    && b.cpu0Observed == a.cpu0Observed && b.cpu1Observed == a.cpu1Observed && b.ready == a.ready
    && b.quiesced == a.quiesced && b.start == a.start && b.progress == a.progress && b.baseline == a.baseline
    && b.output == a.output
  }

  lemma StillShows(v: World, s: Pair, t: Pair, a: H.State, b: H.State)
    requires v.Named() && v.Shows(s, a) && SameView(a, b) && t.Pair? && t.mem == s.mem && t.sent == s.sent
    ensures v.Shows(t, b)
  {
    hide Stores, World.Rendered;
  }

  lemma SaidShows(v: World, s: Pair, t: Pair, a: H.State, b: H.State, said: H.Marker)
    requires v.Named() && v.Shows(s, a) && SameView(a, b.(output := a.output)) && b.output == a.output + [said]
    requires t.Pair? && t.mem == s.mem && t.sent == s.sent + v.Bytes(said)
    ensures v.Shows(t, b)
  {
    hide Stores, World.Rendered;
    RenderOne(v, a.output, said);
  }

  /** The state with one shared word replaced. */
  function Put(a: H.State, i: nat, value: word): H.State {
    if i == 0 then a.(cpu0Observed := value)
    else if i == 1 then a.(cpu1Observed := value)
    else if i == 2 then a.(ready := value)
    else if i == 3 then a.(quiesced := value)
    else if i == 4 then a.(start := value)
    else if i == 5 then a.(progress := value)
    else a.(baseline := value)
  }

  lemma PutCells(v: World, a: H.State, i: nat, value: word)
    requires v.Named() && i < 7
    ensures v.Cells(Put(a, i, value)) == v.Cells(a)[i := Cell(v.Places()[i], value)]
  {
  }

  /** Only one word changed. */
  lemma ChangedShows(v: World, s: Pair, t: Pair, a: H.State, i: nat) returns (value: word)
    requires v.Ok() && v.Shows(s, a) && i < 7 && t.Pair? && t.sent == s.sent
    requires ChangedOnlyIn(s.mem, t.mem, v.Places()[i], 4)
    ensures Mapped(t.mem, v.Places()[i]) && value == Load32(t.mem, v.Places()[i]) && v.Shows(t, Put(a, i, value))
  {
    hide Stores, Laid, ChangedOnlyIn, Load32, World.Rendered, World.Cells, World.Places;
    assert v.Places()[i] == PlacesOf(v.Cells(a))[i] == v.Cells(a)[i].address;
    ChangeOne(s.mem, t.mem, v.Cells(a), v.Texts(), i);
    value := Load32(t.mem, v.Places()[i]);
    PutCells(v, a, i, value);
  }

  lemma PlaceIs(v: World)
    requires v.Named()
    ensures v.Places()[0] == v.w.a[Cpu0Observed()] && v.Places()[1] == v.w.a[Cpu1Observed()]
    ensures v.Places()[2] == v.w.a[Cpu1Ready()] && v.Places()[3] == v.w.a[Quiesced()]
    ensures v.Places()[4] == v.w.a[Start()] && v.Places()[5] == v.w.a[Progress()]
    ensures v.Places()[6] == v.w.a[Baseline()]
  {
  }

  lemma StoredShows(v: World, s: Pair, t: Pair, a: H.State, i: nat, value: word)
    requires s.Pair? && v.Ok() && v.Shows(s, a) && i < 7 && t.Pair? && t.sent == s.sent && Mapped(s.mem, v.Places()[i])
    requires t.mem == Store32(s.mem, v.Places()[i], value)
    ensures v.Shows(t, Put(a, i, value))
  {
    hide World.Shows, ChangedOnlyIn, Laid, Load32, Store32, World.Places, Put;
    StoreLoads(s.mem, v.Places()[i], value);
    var found := ChangedShows(v, s, t, a, i);
  }

  // ----- abstract steps by phase -----

  lemma ParentPhase(a: H.State, result: int, observed: H.u32)
    ensures var b := H.Next(a, H.Parent(result, observed));
            && (a.parent <= H.P_STORE_1 ==> b == H.ParentSetup(a, result, observed))
            && (H.P_STORE_1 < a.parent <= H.P_WAIT_QUIESCED ==> b == H.ParentOffline(a, result))
            && (H.P_WAIT_QUIESCED < a.parent <= H.P_STORE_3 ==> b == H.ParentFreeze(a, result))
            && (H.P_STORE_3 < a.parent ==> b == H.ParentReentry(a))
  {
    hide H.ParentSetup, H.ParentOffline, H.ParentFreeze, H.ParentReentry;
  }

  lemma ChildPhase(a: H.State, result: int, observed: H.u32)
    ensures var b := H.Next(a, H.Child(result, observed));
            && (a.child <= H.C_STORE_READY ==> b == H.ChildSetup(a, result, observed))
            && (H.C_STORE_READY < a.child <= H.C_QUIESCE ==> b == H.ChildDispatch(a))
            && (H.C_QUIESCE < a.child <= H.C_STORE_4 ==> b == H.ChildReentry(a, result, observed))
            && (H.C_STORE_4 < a.child ==> b == H.ChildCount(a))
  {
    hide H.ChildSetup, H.ChildDispatch, H.ChildReentry,
         H.ChildCount;
  }

  // ----- one visible step, point by point -----

  // The parent: setting up.

  lemma ParentSets(v: World, s: Pair, a: H.State) returns (inputs: seq<H.Input>, b: H.State, e: Cpu, d: Cpu)
    requires v.Ok() && v.Shows(s, a) && s.Pair? && a.parent == H.P_AFFINITY && ParentAt(v, s.first, a)
    requires Pinning(v.w.ops, 0, Cpu0Mask(), Cpu0Observed(), 0) && Failing(v.w.ops, 219)
    ensures Follows(a, inputs, b) && ParentMoves(v, s, a, b, e, d)
  {
    hide Prog, World.Ok, World.Shows, Keeps2, DistinctMarks, CpuAt, Names, Comes, PairStep, Ending, Logged, Load32,
         ChangedOnlyIn, Store32, Holds, H.Next, Pinning, Failing, H.ParentOffline, H.ParentFreeze, H.ParentReentry,
         OfflineAt, FreezeAt;
    v.Means();
    e, d := MoveSetAffinity(v.w, s, First, 0, 219, Cpu0Mask(), Cpu0Observed(), 0, s.first);
    var i := H.Parent(if e.x[0] == 0 then 0 else 1, 0);
    ParentPhase(a, i.result, i.observed);
    inputs, b := [i], H.Next(a, i);
    StillShows(v, s, v.w.Next(s, First), a, b);
  }

  lemma ParentGets(v: World, s: Pair, a: H.State) returns (inputs: seq<H.Input>, b: H.State, e: Cpu, d: Cpu)
    requires v.Ok() && v.Shows(s, a) && s.Pair? && a.parent == H.P_GETCPU && ParentAt(v, s.first, a)
    requires Pinning(v.w.ops, 0, Cpu0Mask(), Cpu0Observed(), 0) && Failing(v.w.ops, 219)
    ensures Follows(a, inputs, b) && ParentMoves(v, s, a, b, e, d)
  {
    hide Prog, World.Ok, World.Shows, Keeps2, DistinctMarks, CpuAt, Names, Comes, PairStep, Ending, Logged, Load32,
         ChangedOnlyIn, Store32, Holds, H.Next, Pinning, Failing, H.ParentOffline, H.ParentFreeze, H.ParentReentry,
         OfflineAt, FreezeAt;
    v.Means();
    e, d := MoveGetCpu(v.w, s, First, 0, 219, Cpu0Mask(), Cpu0Observed(), 0, s.first);
    var t := v.w.Next(s, First);
    PlaceIs(v);
    var observed := ChangedShows(v, s, t, a, 0);
    var i := H.Parent(if e.x[0] == 0 then 0 else 1, observed);
    ParentPhase(a, i.result, i.observed);
    inputs, b := [i], H.Next(a, i);
    StillShows(v, t, t, Put(a, 0, observed), b);
  }

  lemma ParentChecks(v: World, s: Pair, a: H.State) returns (inputs: seq<H.Input>, b: H.State, e: Cpu, d: Cpu)
    requires v.Ok() && v.Shows(s, a) && s.Pair? && a.parent == H.P_CHECK_CPU && ParentAt(v, s.first, a)
    requires Pinning(v.w.ops, 0, Cpu0Mask(), Cpu0Observed(), 0) && Failing(v.w.ops, 219)
    requires Mounting(v.w.ops, 18)
    ensures Follows(a, inputs, b) && ParentMoves(v, s, a, b, e, d)
  {
    hide Prog, World.Ok, World.Shows, Keeps2, DistinctMarks, CpuAt, Names, Comes, PairStep, Ending, Logged, Load32,
         ChangedOnlyIn, Store32, Holds, H.Next, Pinning, Failing, Mounting, H.ParentOffline, H.ParentFreeze,
         H.ParentReentry, OfflineAt, FreezeAt;
    v.Means();
    SharedWords(v, s, a);
    e, d := MoveCheckCpu(v.w, s, First, 0, 219, Cpu0Mask(), Cpu0Observed(), 0, s.first);
    if a.cpu0Observed == 0 {
      var f := d;
      d := ToMount(v.w, 18, f);
      Onward(v.w, e, f, d);
    }
    var i := H.Parent(0, 0);
    ParentPhase(a, i.result, i.observed);
    inputs, b := [i], H.Next(a, i);
    StillShows(v, s, v.w.Next(s, First), a, b);
  }

  lemma ParentMounts(v: World, s: Pair, a: H.State) returns (inputs: seq<H.Input>, b: H.State, e: Cpu, d: Cpu)
    requires v.Ok() && v.Shows(s, a) && s.Pair? && a.parent == H.P_MOUNT && ParentAt(v, s.first, a)
    requires Mounting(v.w.ops, 18) && Cloning(v.w.ops, 27) && Failing(v.w.ops, 219)
    ensures Follows(a, inputs, b) && ParentMoves(v, s, a, b, e, d)
  {
    hide Prog, World.Ok, World.Shows, Keeps2, DistinctMarks, CpuAt, Names, Comes, PairStep, Ending, Logged, Load32,
         ChangedOnlyIn, Store32, Holds, H.Next, Failing, Mounting, Cloning, H.ParentOffline, H.ParentFreeze,
         H.ParentReentry, OfflineAt, FreezeAt;
    v.Means();
    e, d := MoveMount(v.w, s, First, 18, 219, s.first);
    if e.x[0] == 0 {
      var f := d;
      d := ToClone(v.w, 27, f);
      Onward(v.w, e, f, d);
    }
    var i := H.Parent(if e.x[0] == 0 then 0 else 1, 0);
    ParentPhase(a, i.result, i.observed);
    inputs, b := [i], H.Next(a, i);
    StillShows(v, s, v.w.Next(s, First), a, b);
  }

  lemma ParentWaits(v: World, s: Pair, a: H.State) returns (inputs: seq<H.Input>, b: H.State, e: Cpu, d: Cpu)
    requires v.Ok() && v.Shows(s, a) && s.Pair? && a.parent == H.P_WAIT_READY && ParentAt(v, s.first, a)
    requires Waiting(v.w.ops, 37, WaitReady(), Cpu1Ready(), 1, NE)
    requires Storing(v.w.ops, 42, 1, Start())
    ensures Follows(a, inputs, b) && ParentMoves(v, s, a, b, e, d)
  {
    hide Prog, World.Ok, World.Shows, Keeps2, DistinctMarks, CpuAt, Names, Comes, PairStep, Ending, Logged, Load32,
         ChangedOnlyIn, Store32, Holds, H.Next, Waiting, Storing, H.ParentOffline, H.ParentFreeze, H.ParentReentry,
         OfflineAt, FreezeAt, ReentryAt;
    v.Means();
    SharedWords(v, s, a);
    e, d := MoveWait(v.w, s, First, 37, WaitReady(), Cpu1Ready(), 1, NE, s.first);
    if a.ready == 1 {
      var f := d;
      d := ToStore(v.w, 42, 1, Start(), f);
      Onward(v.w, e, f, d);
    }
    var i := H.Parent(0, 0);
    ParentPhase(a, i.result, i.observed);
    inputs, b := [i], H.Next(a, i);
    StillShows(v, s, v.w.Next(s, First), a, b);
  }

  lemma ParentStarts(v: World, s: Pair, a: H.State) returns (inputs: seq<H.Input>, b: H.State, e: Cpu, d: Cpu)
    requires v.Ok() && v.Shows(s, a) && s.Pair? && a.parent == H.P_STORE_1 && ParentAt(v, s.first, a)
    requires Storing(v.w.ops, 42, 1, Start()) && Waiting(v.w.ops, 45, WaitProgress(), Progress(), 0, EQ)
    ensures Follows(a, inputs, b) && ParentMoves(v, s, a, b, e, d)
  {
    hide Prog, World.Ok, World.Shows, Keeps2, DistinctMarks, CpuAt, Names, Comes, PairStep, Ending, Logged, Load32,
         ChangedOnlyIn, Store32, Holds, H.Next, Waiting, Storing, H.ParentOffline, H.ParentFreeze, H.ParentReentry,
         FreezeAt, ReentryAt;
    v.Means();
    SharedWords(v, s, a);
    PlaceIs(v);
    e := MoveStore(v.w, s, First, 42, 1, Start(), s.first);
    d := ToWait(v.w, 45, WaitProgress(), Progress(), 0, EQ, e);
    var t := v.w.Next(s, First);
    StoredShows(v, s, t, a, 4, 1);
    var i := H.Parent(0, 0);
    ParentPhase(a, i.result, i.observed);
    inputs, b := [i], H.Next(a, i);
    StillShows(v, t, t, Put(a, 4, 1), b);
  }

  // The parent: taking CPU 1 offline.

  lemma ParentSeesProgress(v: World, s: Pair, a: H.State) returns (inputs: seq<H.Input>, b: H.State, e: Cpu, d: Cpu)
    requires v.Ok() && v.Shows(s, a) && s.Pair? && a.parent == H.P_WAIT_PROGRESS && ParentAt(v, s.first, a)
    requires Waiting(v.w.ops, 45, WaitProgress(), Progress(), 0, EQ)
    requires Printing(v.w.ops, 50, ReadyMarker(), READY_SIZE)
    ensures Follows(a, inputs, b) && ParentMoves(v, s, a, b, e, d)
  {
    hide Prog, World.Ok, World.Shows, Keeps2, DistinctMarks, CpuAt, Names, Comes, PairStep, Ending, Logged, Load32,
         ChangedOnlyIn, Store32, Holds, H.Next, Waiting, Printing, H.ParentSetup, H.ParentFreeze, H.ParentReentry,
         SetupAt, FreezeAt, ReentryAt;
    v.Means();
    SharedWords(v, s, a);
    e, d := MoveWait(v.w, s, First, 45, WaitProgress(), Progress(), 0, EQ, s.first);
    if a.progress != 0 {
      var f := d;
      d := ToPrint(v.w, 50, ReadyMarker(), READY_SIZE, f);
      Onward(v.w, e, f, d);
    }
    var i := H.Parent(0, 0);
    ParentPhase(a, i.result, i.observed);
    inputs, b := [i], H.Next(a, i);
    StillShows(v, s, v.w.Next(s, First), a, b);
  }

  lemma ParentAnnounces(v: World, s: Pair, a: H.State) returns (inputs: seq<H.Input>, b: H.State, e: Cpu, d: Cpu)
    requires v.Ok() && v.Shows(s, a) && s.Pair? && a.parent == H.P_WRITE_READY && ParentAt(v, s.first, a)
    requires Printing(v.w.ops, 50, ReadyMarker(), READY_SIZE) && OnlineWriting(v.w.ops, 55, OfflineValue())
    ensures Follows(a, inputs, b) && ParentMoves(v, s, a, b, e, d)
  {
    hide Prog, World.Ok, World.Shows, Keeps2, DistinctMarks, CpuAt, Names, Comes, PairStep, Ending, Logged, Load32,
         ChangedOnlyIn, Store32, Holds, H.Next, Printing, OnlineWriting, H.ParentSetup, H.ParentFreeze, H.ParentReentry,
         SetupAt, FreezeAt, ReentryAt;
    v.Means();
    TextsHeld(v, s, a);
    e := MovePrint(v.w, s, First, 50, ReadyMarker(), READY, s.first);
    d := ToOpen(v.w, 55, OfflineValue(), e);
    var i := H.Parent(0, 0);
    ParentPhase(a, i.result, i.observed);
    inputs, b := [i], H.Next(a, i);
    SaidShows(v, s, v.w.Next(s, First), a, b, H.Ready);
  }

  lemma OfflineOpens(v: World, s: Pair, a: H.State) returns (inputs: seq<H.Input>, b: H.State, e: Cpu, d: Cpu)
    requires v.Ok() && v.Shows(s, a) && s.Pair? && a.parent == H.P_OFFLINE_OPEN && ParentAt(v, s.first, a)
    requires OnlineWriting(v.w.ops, 55, OfflineValue()) && Failing(v.w.ops, 219)
    ensures Follows(a, inputs, b) && ParentMoves(v, s, a, b, e, d)
  {
    hide Prog, World.Ok, World.Shows, Keeps2, DistinctMarks, CpuAt, Names, Comes, PairStep, Ending, Logged, Load32,
         ChangedOnlyIn, Store32, Holds, H.Next, Failing, OnlineWriting, H.ParentSetup, H.ParentFreeze, H.ParentReentry,
         SetupAt, FreezeAt;
    v.Means();
    e, d := MoveOpen(v.w, s, First, 55, 219, OfflineValue(), s.first);
    var i := H.Parent(if e.x[0] >= SIGN then -1 else 0, 0);
    ParentPhase(a, i.result, i.observed);
    inputs, b := [i], H.Next(a, i);
    StillShows(v, s, v.w.Next(s, First), a, b);
  }

  lemma OfflineWrites(v: World, s: Pair, a: H.State) returns (inputs: seq<H.Input>, b: H.State, e: Cpu, d: Cpu)
    requires v.Ok() && v.Shows(s, a) && s.Pair? && a.parent == H.P_OFFLINE_WRITE && ParentAt(v, s.first, a)
    requires OnlineWriting(v.w.ops, 55, OfflineValue()) && Failing(v.w.ops, 219)
    ensures Follows(a, inputs, b) && ParentMoves(v, s, a, b, e, d)
  {
    hide Prog, World.Ok, World.Shows, Keeps2, DistinctMarks, CpuAt, Names, Comes, PairStep, Ending, Logged, Load32,
         ChangedOnlyIn, Store32, Holds, H.Next, Failing, OnlineWriting, H.ParentSetup, H.ParentFreeze, H.ParentReentry,
         SetupAt, FreezeAt;
    v.Means();
    e, d := MoveOnlineWrite(v.w, s, First, 55, 219, OfflineValue(), s.first);
    var i := H.Parent(if e.x[0] == 1 then 1 else 0, 0);
    ParentPhase(a, i.result, i.observed);
    inputs, b := [i], H.Next(a, i);
    StillShows(v, s, v.w.Next(s, First), a, b);
  }

  lemma OfflineCloses(v: World, s: Pair, a: H.State) returns (inputs: seq<H.Input>, b: H.State, e: Cpu, d: Cpu)
    requires v.Ok() && v.Shows(s, a) && s.Pair? && a.parent == H.P_OFFLINE_CLOSE && ParentAt(v, s.first, a)
    requires OnlineWriting(v.w.ops, 55, OfflineValue()) && Failing(v.w.ops, 219)
    requires Storing(v.w.ops, 75, 2, Start())
    ensures Follows(a, inputs, b) && ParentMoves(v, s, a, b, e, d)
  {
    hide Prog, World.Ok, World.Shows, Keeps2, DistinctMarks, CpuAt, Names, Comes, PairStep, Ending, Logged, Load32,
         ChangedOnlyIn, Store32, Holds, H.Next, Failing, Storing, OnlineWriting, H.ParentSetup, H.ParentFreeze,
         H.ParentReentry, SetupAt, FreezeAt;
    v.Means();
    e, d := MoveClose(v.w, s, First, 55, 219, OfflineValue(), s.first);
    if e.x[0] == 0 {
      var f := d;
      d := ToStore(v.w, 75, 2, Start(), f);
      Onward(v.w, e, f, d);
    }
    var i := H.Parent(if e.x[0] == 0 then 0 else 1, 0);
    ParentPhase(a, i.result, i.observed);
    inputs, b := [i], H.Next(a, i);
    StillShows(v, s, v.w.Next(s, First), a, b);
  }

  lemma ParentAsks(v: World, s: Pair, a: H.State) returns (inputs: seq<H.Input>, b: H.State, e: Cpu, d: Cpu)
    requires v.Ok() && v.Shows(s, a) && s.Pair? && a.parent == H.P_STORE_2 && ParentAt(v, s.first, a)
    requires Storing(v.w.ops, 75, 2, Start()) && Waiting(v.w.ops, 78, WaitQuiesced(), Quiesced(), 1, NE)
    ensures Follows(a, inputs, b) && ParentMoves(v, s, a, b, e, d)
  {
    hide Prog, World.Ok, World.Shows, Keeps2, DistinctMarks, CpuAt, Names, Comes, PairStep, Ending, Logged, Load32,
         ChangedOnlyIn, Store32, Holds, H.Next, Waiting, Storing, H.ParentSetup, H.ParentFreeze, H.ParentReentry,
         SetupAt, FreezeAt, ReentryAt;
    v.Means();
    SharedWords(v, s, a);
    PlaceIs(v);
    e := MoveStore(v.w, s, First, 75, 2, Start(), s.first);
    d := ToWait(v.w, 78, WaitQuiesced(), Quiesced(), 1, NE, e);
    var t := v.w.Next(s, First);
    StoredShows(v, s, t, a, 4, 2);
    var i := H.Parent(0, 0);
    ParentPhase(a, i.result, i.observed);
    inputs, b := [i], H.Next(a, i);
    StillShows(v, t, t, Put(a, 4, 2), b);
  }

  lemma ParentSeesQuiet(v: World, s: Pair, a: H.State) returns (inputs: seq<H.Input>, b: H.State, e: Cpu, d: Cpu)
    requires v.Ok() && v.Shows(s, a) && s.Pair? && a.parent == H.P_WAIT_QUIESCED && ParentAt(v, s.first, a)
    requires Waiting(v.w.ops, 78, WaitQuiesced(), Quiesced(), 1, NE)
    requires Copying(v.w.ops, 83, Progress(), Baseline())
    ensures Follows(a, inputs, b) && ParentMoves(v, s, a, b, e, d)
  {
    hide Prog, World.Ok, World.Shows, Keeps2, DistinctMarks, CpuAt, Names, Comes, PairStep, Ending, Logged, Load32,
         ChangedOnlyIn, Store32, Holds, H.Next, Waiting, Copying, H.ParentSetup, H.ParentFreeze, H.ParentReentry,
         SetupAt, ReentryAt;
    v.Means();
    SharedWords(v, s, a);
    e, d := MoveWait(v.w, s, First, 78, WaitQuiesced(), Quiesced(), 1, NE, s.first);
    if a.quiesced == 1 {
      var f := d;
      d := ToCopy(v.w, 83, Progress(), Baseline(), f);
      Onward(v.w, e, f, d);
    }
    var i := H.Parent(0, 0);
    ParentPhase(a, i.result, i.observed);
    inputs, b := [i], H.Next(a, i);
    StillShows(v, s, v.w.Next(s, First), a, b);
  }

  // The parent: frozen.

  lemma ParentReads(v: World, s: Pair, a: H.State) returns (inputs: seq<H.Input>, b: H.State, e: Cpu, d: Cpu)
    requires v.Ok() && v.Shows(s, a) && s.Pair? && a.parent == H.P_LOAD_BASELINE && ParentAt(v, s.first, a)
    requires Copying(v.w.ops, 83, Progress(), Baseline())
    ensures Follows(a, inputs, b) && ParentMoves(v, s, a, b, e, d)
  {
    hide Prog, World.Ok, World.Shows, Keeps2, DistinctMarks, CpuAt, Names, Comes, PairStep, Ending, Logged, Load32,
         ChangedOnlyIn, Store32, Holds, H.Next, Copying, H.ParentSetup, H.ParentOffline, H.ParentReentry, SetupAt,
         OfflineAt, ReentryAt;
    v.Means();
    SharedWords(v, s, a);
    e, d := MoveCopyLoad(v.w, s, First, 83, Progress(), Baseline(), a.progress, s.first);
    var i := H.Parent(0, 0);
    ParentPhase(a, i.result, i.observed);
    inputs, b := [i], H.Next(a, i);
    StillShows(v, s, v.w.Next(s, First), a, b);
  }

  lemma ParentSaves(v: World, s: Pair, a: H.State) returns (inputs: seq<H.Input>, b: H.State, e: Cpu, d: Cpu)
    requires v.Ok() && v.Shows(s, a) && s.Pair? && a.parent == H.P_STORE_BASELINE && ParentAt(v, s.first, a)
    requires Copying(v.w.ops, 83, Progress(), Baseline()) && Printing(v.w.ops, 87, OffMarker(), OFF_SIZE)
    ensures Follows(a, inputs, b) && ParentMoves(v, s, a, b, e, d)
  {
    hide Prog, World.Ok, World.Shows, Keeps2, DistinctMarks, CpuAt, Names, Comes, PairStep, Ending, Logged, Load32,
         ChangedOnlyIn, Store32, Holds, H.Next, Printing, Copying, H.ParentSetup, H.ParentOffline, H.ParentReentry,
         SetupAt, OfflineAt, ReentryAt;
    v.Means();
    SharedWords(v, s, a);
    PlaceIs(v);
    e := MoveCopyStore(v.w, s, First, 83, Progress(), Baseline(), a.x0, a.baseline, s.first);
    d := ToPrint(v.w, 87, OffMarker(), OFF_SIZE, e);
    var t := v.w.Next(s, First);
    StoredShows(v, s, t, a, 6, a.x0);
    var i := H.Parent(0, 0);
    ParentPhase(a, i.result, i.observed);
    inputs, b := [i], H.Next(a, i);
    StillShows(v, t, t, Put(a, 6, a.x0), b);
  }

  lemma ParentTellsOff(v: World, s: Pair, a: H.State) returns (inputs: seq<H.Input>, b: H.State, e: Cpu, d: Cpu)
    requires v.Ok() && v.Shows(s, a) && s.Pair? && a.parent == H.P_WRITE_OFF && ParentAt(v, s.first, a)
    requires Printing(v.w.ops, 87, OffMarker(), OFF_SIZE) && Quiescing(v.w.ops, 92)
    ensures Follows(a, inputs, b) && ParentMoves(v, s, a, b, e, d)
  {
    hide Prog, World.Ok, World.Shows, Keeps2, DistinctMarks, CpuAt, Names, Comes, PairStep, Ending, Logged, Load32,
         ChangedOnlyIn, Store32, Holds, H.Next, Printing, Quiescing, H.ParentSetup, H.ParentOffline, H.ParentReentry,
         SetupAt, OfflineAt, ReentryAt;
    v.Means();
    TextsHeld(v, s, a);
    e := MovePrint(v.w, s, First, 87, OffMarker(), OFF, s.first);
    d := ToQuiescence(v.w, 92, e);
    var i := H.Parent(0, 0);
    ParentPhase(a, i.result, i.observed);
    inputs, b := [i], H.Next(a, i);
    SaidShows(v, s, v.w.Next(s, First), a, b, H.Off);
  }

  lemma ParentYields(v: World, s: Pair, a: H.State) returns (inputs: seq<H.Input>, b: H.State, e: Cpu, d: Cpu)
    requires v.Ok() && v.Shows(s, a) && s.Pair? && a.parent == H.P_QUIESCENCE && ParentAt(v, s.first, a)
    requires Quiescing(v.w.ops, 92) && Comparing(v.w.ops, 99, "failure", NE)
    ensures Follows(a, inputs, b) && ParentMoves(v, s, a, b, e, d)
  {
    hide Prog, World.Ok, World.Shows, Keeps2, DistinctMarks, CpuAt, Names, Comes, PairStep, Ending, Logged, Load32,
         ChangedOnlyIn, Store32, Holds, H.Next, Quiescing, Comparing, H.ParentSetup, H.ParentOffline, H.ParentReentry,
         SetupAt, OfflineAt, ReentryAt;
    v.Means();
    e, d := MoveQuiesce(v.w, s, First, 92, s.first);
    if s.first.x[5] <= 1 {
      var f := d;
      d := ToCompare(v.w, 99, "failure", NE, f);
      Onward(v.w, e, f, d);
    }
    var i := H.Parent(0, 0);
    ParentPhase(a, i.result, i.observed);
    inputs, b := [i], H.Next(a, i);
    StillShows(v, s, v.w.Next(s, First), a, b);
  }

  lemma ParentLooks(v: World, s: Pair, a: H.State) returns (inputs: seq<H.Input>, b: H.State, e: Cpu, d: Cpu)
    requires v.Ok() && v.Shows(s, a) && s.Pair? && a.parent == H.P_FREEZE_LOAD && ParentAt(v, s.first, a)
    requires Comparing(v.w.ops, 99, "failure", NE)
    ensures Follows(a, inputs, b) && ParentMoves(v, s, a, b, e, d)
  {
    hide Prog, World.Ok, World.Shows, Keeps2, DistinctMarks, CpuAt, Names, Comes, PairStep, Ending, Logged, Load32,
         ChangedOnlyIn, Store32, Holds, H.Next, Comparing, H.ParentSetup, H.ParentOffline, H.ParentReentry, SetupAt,
         OfflineAt, ReentryAt;
    v.Means();
    SharedWords(v, s, a);
    e, d := MoveCompareLoad(v.w, s, First, 99, "failure", NE, a.progress, s.first);
    var i := H.Parent(0, 0);
    ParentPhase(a, i.result, i.observed);
    inputs, b := [i], H.Next(a, i);
    StillShows(v, s, v.w.Next(s, First), a, b);
  }

  lemma ParentCompares(v: World, s: Pair, a: H.State) returns (inputs: seq<H.Input>, b: H.State, e: Cpu, d: Cpu)
    requires v.Ok() && v.Shows(s, a) && s.Pair? && a.parent == H.P_FREEZE_BASELINE && ParentAt(v, s.first, a)
    requires Comparing(v.w.ops, 99, "failure", NE) && OnlineWriting(v.w.ops, 105, OnlineValue())
    requires Failing(v.w.ops, 219)
    ensures Follows(a, inputs, b) && ParentMoves(v, s, a, b, e, d)
  {
    hide Prog, World.Ok, World.Shows, Keeps2, DistinctMarks, CpuAt, Names, Comes, PairStep, Ending, Logged, Load32,
         ChangedOnlyIn, Store32, Holds, H.Next, Failing, OnlineWriting, Comparing, H.ParentSetup, H.ParentOffline,
         H.ParentReentry, SetupAt, OfflineAt;
    v.Means();
    SharedWords(v, s, a);
    FailureMark(v.w.ops, 219);
    e, d := MoveCompare(v.w, s, First, 99, 219, "failure", NE, a.baseline, s.first);
    var f := d;
    if a.x0 == a.baseline {
      d := ToOpen(v.w, 105, OnlineValue(), f);
    } else {
      d := ToExit(v.w, 219, f);
      ExitQuits(v.w, 219, d);
    }
    Onward(v.w, e, f, d);
    var i := H.Parent(0, 0);
    ParentPhase(a, 0, 0);
    ParentPhase(H.Next(a, i), 0, 0);
    inputs, b := [i, i], H.Next(H.Next(a, i), i);
    StillShows(v, s, v.w.Next(s, First), a, b);
  }

  lemma OnlineOpens(v: World, s: Pair, a: H.State) returns (inputs: seq<H.Input>, b: H.State, e: Cpu, d: Cpu)
    requires v.Ok() && v.Shows(s, a) && s.Pair? && a.parent == H.P_ONLINE_OPEN && ParentAt(v, s.first, a)
    requires OnlineWriting(v.w.ops, 105, OnlineValue()) && Failing(v.w.ops, 219)
    ensures Follows(a, inputs, b) && ParentMoves(v, s, a, b, e, d)
  {
    hide Prog, World.Ok, World.Shows, Keeps2, DistinctMarks, CpuAt, Names, Comes, PairStep, Ending, Logged, Load32,
         ChangedOnlyIn, Store32, Holds, H.Next, Failing, OnlineWriting, H.ParentSetup, H.ParentOffline, H.ParentReentry,
         SetupAt, OfflineAt;
    v.Means();
    e, d := MoveOpen(v.w, s, First, 105, 219, OnlineValue(), s.first);
    var i := H.Parent(if e.x[0] >= SIGN then -1 else 0, 0);
    ParentPhase(a, i.result, i.observed);
    inputs, b := [i], H.Next(a, i);
    StillShows(v, s, v.w.Next(s, First), a, b);
  }

  lemma OnlineWrites(v: World, s: Pair, a: H.State) returns (inputs: seq<H.Input>, b: H.State, e: Cpu, d: Cpu)
    requires v.Ok() && v.Shows(s, a) && s.Pair? && a.parent == H.P_ONLINE_WRITE && ParentAt(v, s.first, a)
    requires OnlineWriting(v.w.ops, 105, OnlineValue()) && Failing(v.w.ops, 219)
    ensures Follows(a, inputs, b) && ParentMoves(v, s, a, b, e, d)
  {
    hide Prog, World.Ok, World.Shows, Keeps2, DistinctMarks, CpuAt, Names, Comes, PairStep, Ending, Logged, Load32,
         ChangedOnlyIn, Store32, Holds, H.Next, Failing, OnlineWriting, H.ParentSetup, H.ParentOffline, H.ParentReentry,
         SetupAt, OfflineAt;
    v.Means();
    e, d := MoveOnlineWrite(v.w, s, First, 105, 219, OnlineValue(), s.first);
    var i := H.Parent(if e.x[0] == 1 then 1 else 0, 0);
    ParentPhase(a, i.result, i.observed);
    inputs, b := [i], H.Next(a, i);
    StillShows(v, s, v.w.Next(s, First), a, b);
  }

  lemma OnlineCloses(v: World, s: Pair, a: H.State) returns (inputs: seq<H.Input>, b: H.State, e: Cpu, d: Cpu)
    requires v.Ok() && v.Shows(s, a) && s.Pair? && a.parent == H.P_ONLINE_CLOSE && ParentAt(v, s.first, a)
    requires OnlineWriting(v.w.ops, 105, OnlineValue()) && Failing(v.w.ops, 219)
    requires Storing(v.w.ops, 125, 3, Start())
    ensures Follows(a, inputs, b) && ParentMoves(v, s, a, b, e, d)
  {
    hide Prog, World.Ok, World.Shows, Keeps2, DistinctMarks, CpuAt, Names, Comes, PairStep, Ending, Logged, Load32,
         ChangedOnlyIn, Store32, Holds, H.Next, Failing, Storing, OnlineWriting, H.ParentSetup, H.ParentOffline,
         H.ParentReentry, SetupAt, OfflineAt;
    v.Means();
    e, d := MoveClose(v.w, s, First, 105, 219, OnlineValue(), s.first);
    if e.x[0] == 0 {
      var f := d;
      d := ToStore(v.w, 125, 3, Start(), f);
      Onward(v.w, e, f, d);
    }
    var i := H.Parent(if e.x[0] == 0 then 0 else 1, 0);
    ParentPhase(a, i.result, i.observed);
    inputs, b := [i], H.Next(a, i);
    StillShows(v, s, v.w.Next(s, First), a, b);
  }

  lemma ParentReadmits(v: World, s: Pair, a: H.State) returns (inputs: seq<H.Input>, b: H.State, e: Cpu, d: Cpu)
    requires v.Ok() && v.Shows(s, a) && s.Pair? && a.parent == H.P_STORE_3 && ParentAt(v, s.first, a)
    requires Storing(v.w.ops, 125, 3, Start()) && v.w.ops[128] == Mark(WaitReentry())
    requires Comparing(v.w.ops, 129, WaitReentry(), EQ)
    ensures Follows(a, inputs, b) && ParentMoves(v, s, a, b, e, d)
  {
    hide Prog, World.Ok, World.Shows, Keeps2, DistinctMarks, CpuAt, Names, Comes, PairStep, Ending, Logged, Load32,
         ChangedOnlyIn, Store32, Holds, H.Next, Storing, Comparing, H.ParentSetup, H.ParentOffline, H.ParentReentry,
         SetupAt, OfflineAt;
    v.Means();
    SharedWords(v, s, a);
    PlaceIs(v);
    e := MoveStore(v.w, s, First, 125, 3, Start(), s.first);
    PastMarkAt(v.w, e, 128);
    d := ToCompare(v.w, 129, WaitReentry(), EQ, e);
    var t := v.w.Next(s, First);
    StoredShows(v, s, t, a, 4, 3);
    var i := H.Parent(0, 0);
    ParentPhase(a, i.result, i.observed);
    inputs, b := [i], H.Next(a, i);
    StillShows(v, t, t, Put(a, 4, 3), b);
  }

  // The parent: waiting for re-entry.

  lemma ParentLooksAgain(v: World, s: Pair, a: H.State) returns (inputs: seq<H.Input>, b: H.State, e: Cpu, d: Cpu)
    requires v.Ok() && v.Shows(s, a) && s.Pair? && a.parent == H.P_REENTRY_LOAD && ParentAt(v, s.first, a)
    requires Comparing(v.w.ops, 129, WaitReentry(), EQ)
    ensures Follows(a, inputs, b) && ParentMoves(v, s, a, b, e, d)
  {
    hide Prog, World.Ok, World.Shows, Keeps2, DistinctMarks, CpuAt, Names, Comes, PairStep, Ending, Logged, Load32,
         ChangedOnlyIn, Store32, Holds, H.Next, Comparing, H.ParentSetup, H.ParentOffline, H.ParentFreeze, SetupAt,
         OfflineAt, FreezeAt;
    v.Means();
    SharedWords(v, s, a);
    e, d := MoveCompareLoad(v.w, s, First, 129, WaitReentry(), EQ, a.progress, s.first);
    var i := H.Parent(0, 0);
    ParentPhase(a, i.result, i.observed);
    inputs, b := [i], H.Next(a, i);
    StillShows(v, s, v.w.Next(s, First), a, b);
  }

  lemma ParentComparesAgain(v: World, s: Pair, a: H.State) returns (inputs: seq<H.Input>, b: H.State, e: Cpu, d: Cpu)
    requires v.Ok() && v.Shows(s, a) && s.Pair? && a.parent == H.P_REENTRY_BASELINE && ParentAt(v, s.first, a)
    requires Comparing(v.w.ops, 129, WaitReentry(), EQ) && v.w.ops[128] == Mark(WaitReentry())
    requires Printing(v.w.ops, 135, DoneMarker(), DONE_SIZE)
    ensures Follows(a, inputs, b) && ParentMoves(v, s, a, b, e, d)
  {
    hide Prog, World.Ok, World.Shows, Keeps2, DistinctMarks, CpuAt, Names, Comes, PairStep, Ending, Logged, Load32,
         ChangedOnlyIn, Store32, Holds, H.Next, Printing, Comparing, H.ParentSetup, H.ParentOffline, H.ParentFreeze,
         SetupAt, OfflineAt, FreezeAt;
    v.Means();
    SharedWords(v, s, a);
    e, d := MoveCompare(v.w, s, First, 129, 128, WaitReentry(), EQ, a.baseline, s.first);
    var f := d;
    if a.x0 == a.baseline {
      d := ToCompare(v.w, 129, WaitReentry(), EQ, f);
    } else {
      d := ToPrint(v.w, 135, DoneMarker(), DONE_SIZE, f);
    }
    Onward(v.w, e, f, d);
    var i := H.Parent(0, 0);
    ParentPhase(a, 0, 0);
    ParentPhase(H.Next(a, i), 0, 0);
    inputs, b := [i, i], H.Next(H.Next(a, i), i);
    StillShows(v, s, v.w.Next(s, First), a, b);
  }

  lemma ParentTellsDone(v: World, s: Pair, a: H.State) returns (inputs: seq<H.Input>, b: H.State, e: Cpu, d: Cpu)
    requires v.Ok() && v.Shows(s, a) && s.Pair? && a.parent == H.P_WRITE_DONE && ParentAt(v, s.first, a)
    requires Printing(v.w.ops, 135, DoneMarker(), DONE_SIZE) && PoweringOff(v.w.ops, 140)
    ensures Follows(a, inputs, b) && ParentMoves(v, s, a, b, e, d)
  {
    hide Prog, World.Ok, World.Shows, Keeps2, DistinctMarks, CpuAt, Names, Comes, PairStep, Ending, Logged, Load32,
         ChangedOnlyIn, Store32, Holds, H.Next, Printing, PoweringOff, H.ParentSetup, H.ParentOffline, H.ParentFreeze,
         SetupAt, OfflineAt, FreezeAt;
    v.Means();
    TextsHeld(v, s, a);
    e := MovePrint(v.w, s, First, 135, DoneMarker(), DONE, s.first);
    d := ToPowerOff(v.w, 140, e);
    var i := H.Parent(0, 0);
    ParentPhase(a, i.result, i.observed);
    inputs, b := [i], H.Next(a, i);
    SaidShows(v, s, v.w.Next(s, First), a, b, H.Done);
  }

  lemma ParentPowersOff(v: World, s: Pair, a: H.State) returns (inputs: seq<H.Input>, b: H.State, e: Cpu, d: Cpu)
    requires v.Ok() && v.Shows(s, a) && s.Pair? && a.parent == H.P_POWER_OFF && ParentAt(v, s.first, a)
    requires PoweringOff(v.w.ops, 140)
    ensures Follows(a, inputs, b) && ParentMoves(v, s, a, b, e, d)
  {
    hide Prog, World.Ok, World.Shows, Keeps2, DistinctMarks, CpuAt, Names, Comes, PairStep, Ending, Logged, Load32,
         ChangedOnlyIn, Store32, Holds, H.Next, PoweringOff, H.ParentSetup, H.ParentOffline, H.ParentFreeze, SetupAt,
         OfflineAt, FreezeAt;
    v.Means();
    PowerCalls(v.w.ops, 140);
    PowerValid(v.w, 140, s.first);
    e := MoveEnding(v.w, s, First, 145, REBOOT, s.first);
    d := e;
    PowerValid(v.w, 140, e);
    var i := H.Parent(0, 0);
    ParentPhase(a, i.result, i.observed);
    inputs, b := [i], H.Next(a, i);
    StillShows(v, s, v.w.Next(s, First), a, b);
  }

  lemma ParentLeaves(v: World, s: Pair, a: H.State) returns (inputs: seq<H.Input>, b: H.State, e: Cpu, d: Cpu)
    requires v.Ok() && v.Shows(s, a) && s.Pair? && a.parent == H.P_FAILURE && ParentAt(v, s.first, a)
    requires Failing(v.w.ops, 219)
    ensures Follows(a, inputs, b) && ParentMoves(v, s, a, b, e, d)
  {
    hide Prog, World.Ok, World.Shows, Keeps2, DistinctMarks, CpuAt, Names, Comes, PairStep, Ending, Logged, Load32,
         ChangedOnlyIn, Store32, Holds, H.Next, Failing, H.ParentSetup, H.ParentOffline, H.ParentFreeze, SetupAt,
         OfflineAt, FreezeAt;
    v.Means();
    e := MoveLeaving(v.w, s, First, 219, s.first);
    d := e;
    var i := H.Parent(0, 0);
    ParentPhase(a, i.result, i.observed);
    inputs, b := [i], H.Next(a, i);
    StillShows(v, s, v.w.Next(s, First), a, b);
  }

  lemma ParentLeavesThawed(v: World, s: Pair, a: H.State) returns (inputs: seq<H.Input>, b: H.State, e: Cpu, d: Cpu)
    requires v.Ok() && v.Shows(s, a) && s.Pair? && a.parent == H.P_THAWED && ParentAt(v, s.first, a)
    requires Failing(v.w.ops, 219)
    ensures Follows(a, inputs, b) && ParentMoves(v, s, a, b, e, d)
  {
    hide Prog, World.Ok, World.Shows, Keeps2, DistinctMarks, CpuAt, Names, Comes, PairStep, Ending, Logged, Load32,
         ChangedOnlyIn, Store32, Holds, H.Next, Failing, H.ParentSetup, H.ParentOffline, H.ParentFreeze, SetupAt,
         OfflineAt, FreezeAt;
    v.Means();
    e := MoveLeaving(v.w, s, First, 219, s.first);
    d := e;
    var i := H.Parent(0, 0);
    ParentPhase(a, i.result, i.observed);
    inputs, b := [i], H.Next(a, i);
    StillShows(v, s, v.w.Next(s, First), a, b);
  }

  // The child.

  lemma ChildSets(v: World, s: Pair, a: H.State) returns (inputs: seq<H.Input>, b: H.State, e: Cpu, d: Cpu)
    requires v.Ok() && v.Shows(s, a) && s.Pair? && a.child == H.C_AFFINITY && s.second.Some?
    requires ChildAt(v, s.second.value, a)
    requires Pinning(v.w.ops, 148, Cpu1Mask(), Cpu1Observed(), 1) && Failing(v.w.ops, 219)
    ensures Follows(a, inputs, b) && ChildMoves(v, s, a, b, e, d)
  {
    hide Prog, World.Ok, World.Shows, Keeps2, DistinctMarks, CpuAt, Names, Comes, PairStep, Ending, Logged, Load32,
         ChangedOnlyIn, Store32, Holds, H.Next, Pinning, Failing, H.ChildDispatch, H.ChildReentry,
         H.ChildCount;
    v.Means();
    e, d := MoveSetAffinity(v.w, s, Second, 148, 219, Cpu1Mask(), Cpu1Observed(), 1, s.second.value);
    var i := H.Child(if e.x[0] == 0 then 0 else 1, 0);
    ChildPhase(a, i.result, i.observed);
    inputs, b := [i], H.Next(a, i);
    StillShows(v, s, v.w.Next(s, Second), a, b);
  }

  lemma ChildGets(v: World, s: Pair, a: H.State) returns (inputs: seq<H.Input>, b: H.State, e: Cpu, d: Cpu)
    requires v.Ok() && v.Shows(s, a) && s.Pair? && a.child == H.C_GETCPU && s.second.Some?
    requires ChildAt(v, s.second.value, a)
    requires Pinning(v.w.ops, 148, Cpu1Mask(), Cpu1Observed(), 1) && Failing(v.w.ops, 219)
    ensures Follows(a, inputs, b) && ChildMoves(v, s, a, b, e, d)
  {
    hide Prog, World.Ok, World.Shows, Keeps2, DistinctMarks, CpuAt, Names, Comes, PairStep, Ending, Logged, Load32,
         ChangedOnlyIn, Store32, Holds, H.Next, Pinning, Failing, H.ChildDispatch, H.ChildReentry,
         H.ChildCount;
    v.Means();
    e, d := MoveGetCpu(v.w, s, Second, 148, 219, Cpu1Mask(), Cpu1Observed(), 1, s.second.value);
    var t := v.w.Next(s, Second);
    PlaceIs(v);
    var observed := ChangedShows(v, s, t, a, 1);
    var i := H.Child(if e.x[0] == 0 then 0 else 1, observed);
    ChildPhase(a, i.result, i.observed);
    inputs, b := [i], H.Next(a, i);
    StillShows(v, t, t, Put(a, 1, observed), b);
  }

  lemma ChildChecks(v: World, s: Pair, a: H.State) returns (inputs: seq<H.Input>, b: H.State, e: Cpu, d: Cpu)
    requires v.Ok() && v.Shows(s, a) && s.Pair? && a.child == H.C_CHECK_CPU && s.second.Some?
    requires ChildAt(v, s.second.value, a)
    requires Pinning(v.w.ops, 148, Cpu1Mask(), Cpu1Observed(), 1) && Failing(v.w.ops, 219)
    requires Storing(v.w.ops, 166, 1, Cpu1Ready())
    ensures Follows(a, inputs, b) && ChildMoves(v, s, a, b, e, d)
  {
    hide Prog, World.Ok, World.Shows, Keeps2, DistinctMarks, CpuAt, Names, Comes, PairStep, Ending, Logged, Load32,
         ChangedOnlyIn, Store32, Holds, H.Next, Pinning, Failing, Storing, H.ChildDispatch, H.ChildReentry,
         H.ChildCount;
    v.Means();
    SharedWords(v, s, a);
    e, d := MoveCheckCpu(v.w, s, Second, 148, 219, Cpu1Mask(), Cpu1Observed(), 1, s.second.value);
    if a.cpu1Observed == 1 {
      var f := d;
      d := ToStore(v.w, 166, 1, Cpu1Ready(), f);
      Onward(v.w, e, f, d);
    }
    var i := H.Child(0, 0);
    ChildPhase(a, i.result, i.observed);
    inputs, b := [i], H.Next(a, i);
    StillShows(v, s, v.w.Next(s, Second), a, b);
  }

  lemma ChildReports(v: World, s: Pair, a: H.State) returns (inputs: seq<H.Input>, b: H.State, e: Cpu, d: Cpu)
    requires v.Ok() && v.Shows(s, a) && s.Pair? && a.child == H.C_STORE_READY && s.second.Some?
    requires ChildAt(v, s.second.value, a)
    requires Storing(v.w.ops, 166, 1, Cpu1Ready()) && Dispatching(v.w.ops, 169)
    ensures Follows(a, inputs, b) && ChildMoves(v, s, a, b, e, d)
  {
    hide Prog, World.Ok, World.Shows, Keeps2, DistinctMarks, CpuAt, Names, Comes, PairStep, Ending, Logged, Load32,
         ChangedOnlyIn, Store32, Holds, H.Next, Storing, Dispatching, H.ChildDispatch, H.ChildReentry,
         H.ChildCount;
    v.Means();
    SharedWords(v, s, a);
    PlaceIs(v);
    e := MoveStore(v.w, s, Second, 166, 1, Cpu1Ready(), s.second.value);
    d := ToDispatch(v.w, 169, e);
    var t := v.w.Next(s, Second);
    StoredShows(v, s, t, a, 2, 1);
    var i := H.Child(0, 0);
    ChildPhase(a, i.result, i.observed);
    inputs, b := [i], H.Next(a, i);
    StillShows(v, t, t, Put(a, 2, 1), b);
  }

  /** At a yield: no abstract step. */
  lemma ChildYields(v: World, s: Pair, a: H.State) returns (inputs: seq<H.Input>, b: H.State, e: Cpu, d: Cpu)
    requires v.Ok() && v.Shows(s, a) && s.Pair? && a.child == H.C_DISPATCH && s.second.Some?
    requires ChildAt(v, s.second.value, a)
    requires AtYield(v, s.second.value) && !Facing(v, s.second.value, 171, Start())
    requires Dispatching(v.w.ops, 169) && CountingUp(v.w.ops, 181) && Yielding(v.w.ops, 193)
    ensures Follows(a, inputs, b) && ChildMoves(v, s, a, b, e, d)
  {
    hide Prog, World.Ok, World.Shows, Keeps2, DistinctMarks, CpuAt, Names, Comes, PairStep, Ending, Logged, Load32,
         ChangedOnlyIn, Store32, Holds, H.Next, Dispatching, Yielding, CountingUp, H.ChildSetup, H.ChildReentry,
         H.ChildCount;
    v.Means();
    var c := s.second.value;
    YieldsAre(v.w.ops);
    if Calling(v, c, 179, YIELD) {
      e, d := MoveYielding(v.w, s, Second, 169, 178, c);
    } else if Calling(v, c, 187, YIELD) {
      e, d := MoveYielding(v.w, s, Second, 169, 186, c);
    } else {
      e, d := MoveYielding(v.w, s, Second, 169, 193, c);
    }
    inputs, b := [], a;
    StillShows(v, s, v.w.Next(s, Second), a, b);
  }

  /** The dispatch: the load and the decision on it. */
  lemma ChildDispatches(v: World, s: Pair, a: H.State) returns (inputs: seq<H.Input>, b: H.State, e: Cpu, d: Cpu)
    requires v.Ok() && v.Shows(s, a) && s.Pair? && a.child == H.C_DISPATCH && s.second.Some?
    requires ChildAt(v, s.second.value, a)
    requires Facing(v, s.second.value, 171, Start())
    requires Dispatching(v.w.ops, 169) && CountingUp(v.w.ops, 181) && v.w.ops[189] == Mark(Quiesce())
    requires Storing(v.w.ops, 190, 1, Quiesced()) && v.w.ops[196] == Mark(Reenter())
    requires Pinning(v.w.ops, 197, Cpu1Mask(), Cpu1Observed(), 1)
    ensures Follows(a, inputs, b) && ChildMoves(v, s, a, b, e, d)
  {
    hide Prog, World.Ok, World.Shows, Keeps2, DistinctMarks, CpuAt, Names, Comes, PairStep, Ending, Logged, Load32,
         ChangedOnlyIn, Store32, Holds, H.Next, Pinning, Storing, Dispatching, CountingUp, H.ChildSetup, H.ChildReentry,
         H.ChildCount;
    v.Means();
    SharedWords(v, s, a);
    CountMark(v.w.ops);
    e, d := MoveDispatch(v.w, s, Second, 169, 181, 189, 196, a.start, s.second.value);
    var f := d;
    if a.start == 1 {
      d := ToCount(v.w, 181, f);
    } else if a.start == 2 {
      d := ToStore(v.w, 190, 1, Quiesced(), f);
    } else if a.start == 3 {
      d := ToSetAffinity(v.w, 197, Cpu1Mask(), Cpu1Observed(), 1, f);
    } else {
      YieldsAre(v.w.ops);
      d := ToYielding(v.w, 178, f);
    }
    Onward(v.w, e, f, d);
    var i := H.Child(0, 0);
    ChildPhase(a, 0, 0);
    ChildPhase(H.Next(a, i), 0, 0);
    inputs, b := [i, i], H.Next(H.Next(a, i), i);
    StillShows(v, s, v.w.Next(s, Second), a, b);
  }

  lemma ChildQuiets(v: World, s: Pair, a: H.State) returns (inputs: seq<H.Input>, b: H.State, e: Cpu, d: Cpu)
    requires v.Ok() && v.Shows(s, a) && s.Pair? && a.child == H.C_QUIESCE && s.second.Some?
    requires ChildAt(v, s.second.value, a)
    requires Storing(v.w.ops, 190, 1, Quiesced()) && Yielding(v.w.ops, 193)
    ensures Follows(a, inputs, b) && ChildMoves(v, s, a, b, e, d)
  {
    hide Prog, World.Ok, World.Shows, Keeps2, DistinctMarks, CpuAt, Names, Comes, PairStep, Ending, Logged, Load32,
         ChangedOnlyIn, Store32, Holds, H.Next, Storing, Yielding, H.ChildSetup, H.ChildReentry, H.ChildCount;
    v.Means();
    SharedWords(v, s, a);
    PlaceIs(v);
    e := MoveStore(v.w, s, Second, 190, 1, Quiesced(), s.second.value);
    d := ToYielding(v.w, 193, e);
    var t := v.w.Next(s, Second);
    StoredShows(v, s, t, a, 3, 1);
    var i := H.Child(0, 0);
    ChildPhase(a, i.result, i.observed);
    inputs, b := [i], H.Next(a, i);
    StillShows(v, t, t, Put(a, 3, 1), b);
  }

  lemma ChildAgainSets(v: World, s: Pair, a: H.State) returns (inputs: seq<H.Input>, b: H.State, e: Cpu, d: Cpu)
    requires v.Ok() && v.Shows(s, a) && s.Pair? && a.child == H.C_RE_AFFINITY && s.second.Some?
    requires ChildAt(v, s.second.value, a)
    requires Pinning(v.w.ops, 197, Cpu1Mask(), Cpu1Observed(), 1) && Failing(v.w.ops, 219)
    ensures Follows(a, inputs, b) && ChildMoves(v, s, a, b, e, d)
  {
    hide Prog, World.Ok, World.Shows, Keeps2, DistinctMarks, CpuAt, Names, Comes, PairStep, Ending, Logged, Load32,
         ChangedOnlyIn, Store32, Holds, H.Next, Pinning, Failing, H.ChildSetup, H.ChildDispatch, H.ChildCount;
    v.Means();
    e, d := MoveSetAffinity(v.w, s, Second, 197, 219, Cpu1Mask(), Cpu1Observed(), 1, s.second.value);
    var i := H.Child(if e.x[0] == 0 then 0 else 1, 0);
    ChildPhase(a, i.result, i.observed);
    inputs, b := [i], H.Next(a, i);
    StillShows(v, s, v.w.Next(s, Second), a, b);
  }

  lemma ChildAgainGets(v: World, s: Pair, a: H.State) returns (inputs: seq<H.Input>, b: H.State, e: Cpu, d: Cpu)
    requires v.Ok() && v.Shows(s, a) && s.Pair? && a.child == H.C_RE_GETCPU && s.second.Some?
    requires ChildAt(v, s.second.value, a)
    requires Pinning(v.w.ops, 197, Cpu1Mask(), Cpu1Observed(), 1) && Failing(v.w.ops, 219)
    ensures Follows(a, inputs, b) && ChildMoves(v, s, a, b, e, d)
  {
    hide Prog, World.Ok, World.Shows, Keeps2, DistinctMarks, CpuAt, Names, Comes, PairStep, Ending, Logged, Load32,
         ChangedOnlyIn, Store32, Holds, H.Next, Pinning, Failing, H.ChildSetup, H.ChildDispatch, H.ChildCount;
    v.Means();
    e, d := MoveGetCpu(v.w, s, Second, 197, 219, Cpu1Mask(), Cpu1Observed(), 1, s.second.value);
    var t := v.w.Next(s, Second);
    PlaceIs(v);
    var observed := ChangedShows(v, s, t, a, 1);
    var i := H.Child(if e.x[0] == 0 then 0 else 1, observed);
    ChildPhase(a, i.result, i.observed);
    inputs, b := [i], H.Next(a, i);
    StillShows(v, t, t, Put(a, 1, observed), b);
  }

  lemma ChildAgainChecks(v: World, s: Pair, a: H.State) returns (inputs: seq<H.Input>, b: H.State, e: Cpu, d: Cpu)
    requires v.Ok() && v.Shows(s, a) && s.Pair? && a.child == H.C_RE_CHECK_CPU && s.second.Some?
    requires ChildAt(v, s.second.value, a)
    requires Pinning(v.w.ops, 197, Cpu1Mask(), Cpu1Observed(), 1) && Failing(v.w.ops, 219)
    requires Storing(v.w.ops, 215, 4, Start())
    ensures Follows(a, inputs, b) && ChildMoves(v, s, a, b, e, d)
  {
    hide Prog, World.Ok, World.Shows, Keeps2, DistinctMarks, CpuAt, Names, Comes, PairStep, Ending, Logged, Load32,
         ChangedOnlyIn, Store32, Holds, H.Next, Pinning, Failing, Storing, H.ChildSetup, H.ChildDispatch, H.ChildCount;
    v.Means();
    SharedWords(v, s, a);
    e, d := MoveCheckCpu(v.w, s, Second, 197, 219, Cpu1Mask(), Cpu1Observed(), 1, s.second.value);
    if a.cpu1Observed == 1 {
      var f := d;
      d := ToStore(v.w, 215, 4, Start(), f);
      Onward(v.w, e, f, d);
    }
    var i := H.Child(0, 0);
    ChildPhase(a, i.result, i.observed);
    inputs, b := [i], H.Next(a, i);
    StillShows(v, s, v.w.Next(s, Second), a, b);
  }

  lemma ChildReenters(v: World, s: Pair, a: H.State) returns (inputs: seq<H.Input>, b: H.State, e: Cpu, d: Cpu)
    requires v.Ok() && v.Shows(s, a) && s.Pair? && a.child == H.C_STORE_4 && s.second.Some?
    requires ChildAt(v, s.second.value, a)
    requires Storing(v.w.ops, 215, 4, Start()) && v.w.ops[218] == Jump(Count()) && CountingUp(v.w.ops, 181)
    ensures Follows(a, inputs, b) && ChildMoves(v, s, a, b, e, d)
  {
    hide Prog, World.Ok, World.Shows, Keeps2, DistinctMarks, CpuAt, Names, Comes, PairStep, Ending, Logged, Load32,
         ChangedOnlyIn, Store32, Holds, H.Next, Storing, CountingUp, H.ChildSetup, H.ChildDispatch, H.ChildCount;
    v.Means();
    SharedWords(v, s, a);
    PlaceIs(v);
    e := MoveStore(v.w, s, Second, 215, 4, Start(), s.second.value);
    CountMark(v.w.ops);
    var f := Branch(v.w, 218, 181, e);
    d := ToCount(v.w, 181, f);
    Onward(v.w, e, f, d);
    var t := v.w.Next(s, Second);
    StoredShows(v, s, t, a, 4, 4);
    var i := H.Child(0, 0);
    ChildPhase(a, i.result, i.observed);
    inputs, b := [i], H.Next(a, i);
    StillShows(v, t, t, Put(a, 4, 4), b);
  }

  lemma ChildLoads(v: World, s: Pair, a: H.State) returns (inputs: seq<H.Input>, b: H.State, e: Cpu, d: Cpu)
    requires v.Ok() && v.Shows(s, a) && s.Pair? && a.child == H.C_LOAD_PROGRESS && s.second.Some?
    requires ChildAt(v, s.second.value, a)
    requires CountingUp(v.w.ops, 181)
    ensures Follows(a, inputs, b) && ChildMoves(v, s, a, b, e, d)
  {
    hide Prog, World.Ok, World.Shows, Keeps2, DistinctMarks, CpuAt, Names, Comes, PairStep, Ending, Logged, Load32,
         ChangedOnlyIn, Store32, Holds, H.Next, CountingUp, H.ChildSetup, H.ChildDispatch, H.ChildReentry;
    v.Means();
    SharedWords(v, s, a);
    e, d := MoveCountLoad(v.w, s, Second, 181, a.progress, s.second.value);
    var i := H.Child(0, 0);
    ChildPhase(a, i.result, i.observed);
    inputs, b := [i], H.Next(a, i);
    StillShows(v, s, v.w.Next(s, Second), a, b);
  }

  lemma ChildCounts(v: World, s: Pair, a: H.State) returns (inputs: seq<H.Input>, b: H.State, e: Cpu, d: Cpu)
    requires v.Ok() && v.Shows(s, a) && s.Pair? && a.child == H.C_STORE_PROGRESS && s.second.Some?
    requires ChildAt(v, s.second.value, a)
    requires CountingUp(v.w.ops, 181)
    ensures Follows(a, inputs, b) && ChildMoves(v, s, a, b, e, d)
  {
    hide Prog, World.Ok, World.Shows, Keeps2, DistinctMarks, CpuAt, Names, Comes, PairStep, Ending, Logged, Load32,
         ChangedOnlyIn, Store32, Holds, H.Next, CountingUp, H.ChildSetup, H.ChildDispatch, H.ChildReentry;
    v.Means();
    SharedWords(v, s, a);
    PlaceIs(v);
    e, d := MoveCountStore(v.w, s, Second, 181, (a.c0 + 1) % 0x1_0000_0000, a.progress, s.second.value);
    var t := v.w.Next(s, Second);
    StoredShows(v, s, t, a, 5, (a.c0 + 1) % 0x1_0000_0000);
    var i := H.Child(0, 0);
    ChildPhase(a, i.result, i.observed);
    inputs, b := [i], H.Next(a, i);
    StillShows(v, t, t, Put(a, 5, (a.c0 + 1) % 0x1_0000_0000), b);
  }

  lemma ChildLeaves(v: World, s: Pair, a: H.State) returns (inputs: seq<H.Input>, b: H.State, e: Cpu, d: Cpu)
    requires v.Ok() && v.Shows(s, a) && s.Pair? && a.child == H.C_FAILURE && s.second.Some?
    requires ChildAt(v, s.second.value, a)
    requires Failing(v.w.ops, 219)
    ensures Follows(a, inputs, b) && ChildMoves(v, s, a, b, e, d)
  {
    hide Prog, World.Ok, World.Shows, Keeps2, DistinctMarks, CpuAt, Names, Comes, PairStep, Ending, Logged, Load32,
         ChangedOnlyIn, Store32, Holds, H.Next, Failing, H.ChildSetup, H.ChildDispatch, H.ChildReentry;
    v.Means();
    e := MoveLeaving(v.w, s, Second, 219, s.second.value);
    d := e;
    var i := H.Child(0, 0);
    ChildPhase(a, i.result, i.observed);
    inputs, b := [i], H.Next(a, i);
    StillShows(v, s, v.w.Next(s, Second), a, b);
  }

  // ----- pieces of pieces -----

  lemma ToCopy(w: Setting, b: nat, name: string, other: string, c: Cpu) returns (d: Cpu)
    requires w.Ok() && Copying(w.ops, b, name, other) && w.Here(c, b)
    ensures c.Valid() && d.Valid() && w.Reaches(c, d) && w.Here(d, b + 1) && name in w.a && d.x[1] == w.a[name]
  {
    hide Comes, CpuAt, Keeps2, DistinctMarks, Prog, ProgramOf;
    d := ToLoad(w, b, name, 0, c);
  }

  lemma ToCompare(w: Setting, b: nat, mark: string, on: cond, c: Cpu) returns (d: Cpu)
    requires w.Ok() && Comparing(w.ops, b, mark, on) && w.Here(c, b)
    ensures c.Valid() && d.Valid() && w.Reaches(c, d) && w.Here(d, b + 1)
    ensures Progress() in w.a && d.x[1] == w.a[Progress()]
  {
    hide Comes, CpuAt, Keeps2, DistinctMarks, Prog, ProgramOf, Progress, Baseline;
    d := ToLoad(w, b, Progress(), 0, c);
  }

  lemma FailureMark(ops: seq<Op>, m: nat)
    requires Failing(ops, m)
    ensures m < |ops| && ops[m] == Mark("failure")
  {
  }

  lemma PowerCalls(ops: seq<Op>, b: nat)
    requires PoweringOff(ops, b)
    ensures b + 7 <= |ops| && ops[b + 5] == SVC && ops[b + 6] == Code([B(0)])
  {
  }

  lemma PowerValid(w: Setting, b: nat, c: Cpu)
    requires Names(w.ops, w.a) && PowerGiven(w, b, c)
    ensures c.Valid()
  {
  }

  lemma YieldsAre(ops: seq<Op>)
    requires Dispatching(ops, 169) && CountingUp(ops, 181)
    ensures Yielding(ops, 178) && Yielding(ops, 186)
  {
  }

  lemma CountMark(ops: seq<Op>)
    requires CountingUp(ops, 181)
    ensures 181 < |ops| && ops[181] == Mark(Count())
  {
  }
}
