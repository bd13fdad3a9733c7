/** Every interleaved run of the progress program is a run of its transition
    system: each CPU is on its way to the visible instruction of the abstract
    point, executing that instruction is the abstract step, and everything in
    between changes nothing the other CPU can see. */
module ProgressRun {
  import opened Bytes
  import opened A64
  import opened Machine
  import opened Assembler
  import opened Syscalls
  import opened Layout
  import opened Blocks
  import opened Templates
  import opened SmpData
  import opened Duo
  import opened DuoOps
  import opened DuoCode
  import opened Calls
  import opened ProgressCalls
  import opened ProgressCode
  import opened ProgressLog
  import P = Progress

  // ----- the clone -----

  /** The clone, with both CPUs on their ways after it. */
  ghost predicate CloneMoves(v: World, s: Pair, a: P.State, i: P.Input, d: Cpu, e: Cpu)
    requires v.Named() && Names(v.w.ops, v.w.a)
  {
    var t, b := v.w.Next(s, First), P.Next(a, i);
    && t.Pair? && v.Shows(t, b) && v.w.Reaches(t.first, d) && ParentAt(v, d, b)
    && t.first.Valid() && d.Valid() && Logged(s, First, t.first, t)
    && b.parent == P.Checked(t.first.x[0] < SIGN, P.P_WAIT_READY)
    && (t.first.x[0] >= SIGN ==> Quitting(v.w, 94, d))
    && if b.child == P.C_UNBORN then t.second.None?
       else t.second.Some? && v.w.Reaches(t.second.value, e) && ChildAt(v, e, b) && e.Valid() && b.child == P.C_AFFINITY
  }

  lemma ParentClones(v: World, s: Pair, a: P.State) returns (i: P.Input, d: Cpu, e: Cpu)
    requires v.Ok() && v.Shows(s, a) && s.Pair? && a.parent == P.P_CLONE && ParentAt(v, s.first, a)
    requires a.child == P.C_UNBORN && s.second.None?
    requires Cloning(v.w.ops, 18) && Failing(v.w.ops, 94) && v.w.ops[54] == Mark("child")
    requires Waiting(v.w.ops, 28, ParentWait(), Cpu1Ready(), 1, NE)
    requires Pinning(v.w.ops, 55, Cpu1Mask(), Cpu1Observed(), 1)
    ensures CloneMoves(v, s, a, i, d, e)
  {
    hide Prog, World.Ok, World.Shows, Keeps2, DistinctMarks, CpuAt, Names, Comes, PairStep, Quitting, P.Next, Pinning,
         Failing, Cloning, Waiting, Logged;
    v.Means();
    ClonePieces(v.w.ops, 94, 18);
    var c := CloneStep(v.w, s, 24, s.first);
    var t := v.w.Next(s, First);
    var f := Cloned(v.w, 18, 94, 54, c);
    i := P.Parent(if c.x[0] >= SIGN then -1 else 0, 0);
    ParentSteps(a, i.result, i.observed);
    StillShows(v, s, t, a, P.Next(a, i));
    if c.x[0] >= SIGN {
      d := ToExit(v.w, 94, f);
      ExitQuits(v.w, 94, d);
      e := d;
    } else {
      d := ToWait(v.w, 28, ParentWait(), Cpu1Ready(), 1, NE, f);
      var g := Cloned(v.w, 18, 94, 54, t.second.value);
      e := ToSetAffinity(v.w, 55, Cpu1Mask(), Cpu1Observed(), 1, g);
      Onward(v.w, t.second.value, g, e);
    }
    Onward(v.w, c, f, d);
  }

  // ----- one instruction -----

  /** The pair of CPUs is on its way from this abstract state. */
  ghost predicate Tracks(v: World, s: Pair, a: P.State)
    requires v.Named() && Names(v.w.ops, v.w.a)
  {
    && s.Pair? && v.Shows(s, a) && ParentComes(v, s.first, a, By(s.log, First))
    && if a.child == P.C_UNBORN then s.second.None? && By(s.log, Second) == []
       else s.second.Some? && ChildComes(v, s.second.value, a, By(s.log, Second))
  }

  ghost predicate ParentComes(v: World, c: Cpu, a: P.State, p: seq<Made>)
    requires v.Named() && Names(v.w.ops, v.w.a)
  {
    exists d :: v.w.Reaches(c, d) && ParentAt(v, d, a) && ParentCalls(v, p, a, d)
  }

  ghost predicate ChildComes(v: World, c: Cpu, a: P.State, q: seq<Made>)
    requires v.Named() && Names(v.w.ops, v.w.a)
  {
    exists d :: v.w.Reaches(c, d) && ChildAt(v, d, a) && ChildCalls(v, q, a, d)
  }

  lemma SameParent(v: World, c: Cpu, a: P.State, b: P.State, p: seq<Made>)
    requires v.Named() && Names(v.w.ops, v.w.a) && ParentComes(v, c, a, p)
    requires b.parent == a.parent && b.cpu0Observed == a.cpu0Observed
    ensures ParentComes(v, c, b, p)
  {
    hide Comes, Names, CpuAt, Prog, Leaving, CallsSoFar;
    var d :| v.w.Reaches(c, d) && ParentAt(v, d, a) && ParentCalls(v, p, a, d);
    assert ParentAt(v, d, b) && ParentCalls(v, p, b, d);
  }

  lemma SameChild(v: World, c: Cpu, a: P.State, b: P.State, q: seq<Made>)
    requires v.Named() && Names(v.w.ops, v.w.a) && ChildComes(v, c, a, q)
    requires b.child == a.child && b.cpu1Observed == a.cpu1Observed
    ensures ChildComes(v, c, b, q)
  {
    hide Comes, Names, CpuAt, Prog, Leaving, CallsSoFar;
    var d :| v.w.Reaches(c, d) && ChildAt(v, d, a) && ChildCalls(v, q, a, d);
    assert ChildAt(v, d, b) && ChildCalls(v, q, b, d);
  }

  /** The parent at its visible instruction, other than the clone. */
  lemma ParentMove(v: World, s: Pair, a: P.State) returns (i: P.Input, e: Cpu, d: Cpu)
    requires v.Ok() && Emitted(v.w.ops) && s.Pair? && v.Shows(s, a) && ParentAt(v, s.first, a) && a.parent != P.P_CLONE
    ensures ParentMoves(v, s, a, i, e, d) && i.Parent?
  {
    hide ParentMoves, World.Ok, World.Shows, Pinning, Cloning, Waiting, Printing, Storing, Looping, Failing, Prog,
         ProgramOf, Names, CpuAt, Leaving, Comes;
    v.Means();
    if a.parent == P.P_AFFINITY {
      i, e, d := ParentSets(v, s, a);
    } else if a.parent == P.P_GETCPU {
      i, e, d := ParentGets(v, s, a);
    } else if a.parent == P.P_CHECK_CPU {
      i, e, d := ParentChecks(v, s, a);
    } else if a.parent == P.P_WAIT_READY {
      i, e, d := ParentWaits(v, s, a);
    } else if a.parent == P.P_WRITE_READY {
      i, e, d := ParentAnnounces(v, s, a);
    } else if a.parent == P.P_STORE_START {
      i, e, d := ParentStarts(v, s, a);
    } else if a.parent == P.P_TOKEN {
      i, e, d := ParentTells(v, s, a);
    } else if a.parent == P.P_SLEEP {
      i, e, d := ParentSleeps(v, s, a);
    } else if a.parent == P.P_YIELD {
      i, e, d := ParentYields(v, s, a);
    } else {
      i, e, d := ParentLeaves(v, s, a);
    }
  }

  /** The child at its visible instruction. */
  lemma ChildMove(v: World, s: Pair, a: P.State) returns (i: P.Input, e: Cpu, d: Cpu)
    requires v.Ok() && Emitted(v.w.ops) && s.Pair? && v.Shows(s, a) && s.second.Some? && ChildAt(v, s.second.value, a)
    ensures ChildMoves(v, s, a, i, e, d) && i.Child?
  {
    hide ChildMoves, World.Ok, World.Shows, Pinning, Cloning, Waiting, Printing, Storing, Looping, Failing, Prog,
         ProgramOf, Names, CpuAt, Leaving, Comes;
    v.Means();
    if a.child == P.C_AFFINITY {
      i, e, d := ChildSets(v, s, a);
    } else if a.child == P.C_GETCPU {
      i, e, d := ChildGets(v, s, a);
    } else if a.child == P.C_CHECK_CPU {
      i, e, d := ChildChecks(v, s, a);
    } else if a.child == P.C_STORE_READY {
      i, e, d := ChildReports(v, s, a);
    } else if a.child == P.C_WAIT_START {
      i, e, d := ChildWaits(v, s, a);
    } else if a.child == P.C_TOKEN {
      i, e, d := ChildTells(v, s, a);
    } else if a.child == P.C_SLEEP {
      i, e, d := ChildSleeps(v, s, a);
    } else if a.child == P.C_YIELD {
      i, e, d := ChildYields(v, s, a);
    } else {
      i, e, d := ChildLeaves(v, s, a);
    }
  }

  /** At most one abstract step. */
  function After(a: P.State, inputs: seq<P.Input>): P.State
    requires |inputs| <= 1
  {
    if inputs == [] then a else P.Next(a, inputs[0])
  }

  lemma CloneTracks(v: World, s: Pair, a: P.State, i: P.Input, d: Cpu, e: Cpu)
    requires v.Named() && Names(v.w.ops, v.w.a) && CloneMoves(v, s, a, i, d, e) && By(s.log, Second) == []
    requires s.Pair? && ParentCalls(v, By(v.w.Next(s, First).log, First), P.Next(a, i), d)
    ensures Tracks(v, v.w.Next(s, First), P.Next(a, i))
  {
    hide ParentAt, ChildAt, ParentCalls, World.Shows, Prog, Names, Comes, PairStep, P.Next, Logged, By, Quitting,
         World.Addresses;
    var t, b := v.w.Next(s, First), P.Next(a, i);
    OtherCalls(s, t, First, t.first, Second);
    if b.child != P.C_UNBORN {
      assert ChildCalls(v, By(t.log, Second), b, e);
    }
  }

  lemma CloneSteps(v: World, s: Pair, a: P.State) returns (i: P.Input)
    requires v.Ok() && s.Pair? && v.Shows(s, a) && s.second.None? && ParentAt(v, s.first, a) && P.Inv(a)
    requires a.parent == P.P_CLONE && a.child == P.C_UNBORN && Emitted(v.w.ops)
    requires ParentCalls(v, By(s.log, First), a, s.first) && By(s.log, Second) == []
    ensures Tracks(v, v.w.Next(s, First), P.Next(a, i))
  {
    hide ParentAt, ChildAt, ParentCalls, Tracks, World.Ok, World.Shows, Emitted, Prog, Names, PairStep, P.Next, Comes,
         Logged, Quitting, By, P.Inv, Pinning, Cloning, Failing, Waiting;
    v.Means();
    ClonePlaces(v.w.ops);
    var d, e;
    i, d, e := ParentClones(v, s, a);
    CloneCallsStep(v, s, a, P.Next(a, i), v.w.Next(s, First).first, d);
    CloneTracks(v, s, a, i, d, e);
  }

  lemma ParentMovesMeans(v: World, s: Pair, a: P.State, i: P.Input, e: Cpu, d: Cpu)
    requires v.Named() && Names(v.w.ops, v.w.a) && ParentMoves(v, s, a, i, e, d)
    ensures var t, b := v.w.Next(s, First), P.Next(a, i);
            && t.Pair? && s.Pair? && t.first == e && t.second == s.second && v.Shows(t, b)
            && b.child == a.child && b.cpu1Observed == a.cpu1Observed
            && v.w.Reaches(t.first, d) && ParentAt(v, d, b) && (SameLog(s, t) || Logged(s, First, e, t))
  {
    hide ParentAt, World.Shows, Prog, Names, Comes, PairStep, P.Next, Told, SameLog, Logged;
  }

  lemma ChildMovesMeans(v: World, s: Pair, a: P.State, i: P.Input, e: Cpu, d: Cpu)
    requires v.Named() && Names(v.w.ops, v.w.a) && ChildMoves(v, s, a, i, e, d) && a.child != P.C_UNBORN && i.Child?
    ensures var t, b := v.w.Next(s, Second), P.Next(a, i);
            && t.Pair? && s.Pair? && t.first == s.first && v.Shows(t, b)
            && b.parent == a.parent && b.cpu0Observed == a.cpu0Observed && b.child != P.C_UNBORN
            && t.second == Some(e) && v.w.Reaches(e, d) && ChildAt(v, d, b)
            && (SameLog(s, t) || Logged(s, Second, e, t))
  {
    hide ChildAt, World.Shows, Prog, Names, Comes, PairStep, ChildTold, SameLog, Logged;
  }

  lemma FirstSteps(v: World, s: Pair, a: P.State) returns (inputs: seq<P.Input>)
    requires v.Ok() && Emitted(v.w.ops) && P.Inv(a) && Tracks(v, s, a)
    ensures |inputs| <= 1 && Tracks(v, v.w.Next(s, First), After(a, inputs))
  {
    hide ParentMoves, ParentAt, ChildAt, ParentCalls, ChildCalls, World.Ok, World.Shows, Emitted, Prog, Names, CpuAt,
         Comes, PairStep, P.Next, P.Inv, By, Failing, SameLog, Logged;
    v.Means();
    var d :| v.w.Reaches(s.first, d) && ParentAt(v, d, a) && ParentCalls(v, By(s.log, First), a, d);
    ParentValid(v, d, a);
    ComesValid(Prog(v.w.ops, v.w.a), s.first, d);
    var t := v.w.Next(s, First);
    if s.first != d {
      inputs := [];
      OnItsWay(Prog(v.w.ops, v.w.a), v.w.kernel, s, First, d);
      StillShows(v, s, t, a, a);
      assert v.w.Reaches(t.first, d);
    } else if a.parent == P.P_CLONE {
      NoChildYet(a);
      var i := CloneSteps(v, s, a);
      inputs := [i];
    } else {
      FailPlaces(v.w.ops);
      var i, e, f := ParentMove(v, s, a);
      inputs := [i];
      ParentCallsStep(v, s, a, i, e, f);
      ParentMovesMeans(v, s, a, i, e, f);
      OtherCalls(s, t, First, e, Second);
      if s.second.Some? {
        SameChild(v, s.second.value, a, P.Next(a, i), By(s.log, Second));
      }
    }
  }

  lemma SecondSteps(v: World, s: Pair, a: P.State) returns (inputs: seq<P.Input>)
    requires v.Ok() && Emitted(v.w.ops) && P.Inv(a) && Tracks(v, s, a)
    ensures |inputs| <= 1 && Tracks(v, v.w.Next(s, Second), After(a, inputs))
  {
    hide ChildMoves, ParentAt, ChildAt, ParentCalls, ChildCalls, World.Ok, World.Shows, Emitted, Prog, Names, CpuAt,
         Comes, PairStep, P.Next, P.Inv, By, Failing, SameLog, Logged;
    v.Means();
    var t := v.w.Next(s, Second);
    if s.second.None? {
      inputs := [];
      Absent(Prog(v.w.ops, v.w.a), v.w.kernel, s);
      return;
    }
    var d :| v.w.Reaches(s.second.value, d) && ChildAt(v, d, a) && ChildCalls(v, By(s.log, Second), a, d);
    ChildValid(v, d, a);
    ComesValid(Prog(v.w.ops, v.w.a), s.second.value, d);
    if s.second.value != d {
      inputs := [];
      OnItsWay(Prog(v.w.ops, v.w.a), v.w.kernel, s, Second, d);
      StillShows(v, s, t, a, a);
      assert v.w.Reaches(t.second.value, d);
    } else {
      FailPlaces(v.w.ops);
      var i, e, f := ChildMove(v, s, a);
      inputs := [i];
      ChildCallsStep(v, s, a, i, e, f);
      ChildMovesMeans(v, s, a, i, e, f);
      OtherCalls(s, t, Second, e, First);
      SameParent(v, s.first, a, P.Next(a, i), By(s.log, First));
    }
  }

  lemma FailPlaces(ops: seq<Op>)
    requires Emitted(ops)
    ensures Failing(ops, 94)
  {
  }

  lemma ParentValid(v: World, d: Cpu, a: P.State)
    requires v.Named() && Names(v.w.ops, v.w.a) && ParentAt(v, d, a)
    ensures d.Valid()
  {
  }

  lemma ChildValid(v: World, d: Cpu, a: P.State)
    requires v.Named() && Names(v.w.ops, v.w.a) && ChildAt(v, d, a)
    ensures d.Valid()
  {
  }

  lemma NoChildYet(a: P.State)
    requires P.Inv(a) && a.parent == P.P_CLONE
    ensures a.child == P.C_UNBORN
  {
  }

  lemma ClonePlaces(ops: seq<Op>)
    requires Emitted(ops)
    ensures |ops| == 99 && Cloning(ops, 18) && Failing(ops, 94) && ops[54] == Mark("child")
    ensures Waiting(ops, 28, ParentWait(), Cpu1Ready(), 1, NE) && Pinning(ops, 55, Cpu1Mask(), Cpu1Observed(), 1)
  {
  }

  // ----- whole runs -----

  /** About to execute the first instruction, alone, with the words zero. */
  predicate Started(v: World, s: Pair)
    requires v.Named() && Names(v.w.ops, v.w.a)
  {
    && s.Pair? && s.first.Valid() && s.first.pc == 0 && s.second.None? && s.sent == [] && s.log == []
    && v.Shows(s, P.Init())
  }

  lemma EntryPlaces(ops: seq<Op>)
    requires Emitted(ops)
    ensures Pinning(ops, 0, Cpu0Mask(), Cpu0Observed(), 0)
  {
  }

  lemma StartTracks(v: World, s: Pair)
    requires v.Ok() && Emitted(v.w.ops) && Started(v, s)
    ensures Tracks(v, s, P.Init())
  {
    hide World.Ok, World.Shows, Emitted, Pinning, Prog, ProgramOf, Names, CpuAt, Comes, Keeps2, DistinctMarks,
         Cpu0Observed, Cpu1Observed, Cpu1Ready, Start, ReadyMarker, Cpu0Token, Cpu1Token, Cpu0Mask;
    v.Means();
    AtEntry(v.w, s.first);
    EntryPlaces(v.w.ops);
    var d := ToSetAffinity(v.w, 0, Cpu0Mask(), Cpu0Observed(), 0, s.first);
    assert ParentAt(v, d, P.Init()) && ParentCalls(v, [], P.Init(), d);
  }

  /** For every schedule there is a run of the transition system that the pair
      of CPUs is on its way from: same words, same output. */
  lemma {:induction false} Refines(v: World, s: Pair, schedule: seq<Who>) returns (inputs: seq<P.Input>)
    requires v.Ok() && Emitted(v.w.ops) && Started(v, s)
    ensures Tracks(v, PairRun(Prog(v.w.ops, v.w.a), v.w.kernel, s, schedule), P.Run(inputs))
    decreases |schedule|
  {
    hide Tracks, Started, World.Ok, Emitted, Prog, ProgramOf, Names, P.Next, P.Inv, PairStep;
    v.Means();
    if schedule == [] {
      inputs := [];
      StartTracks(v, s);
    } else {
      var init, who := schedule[..|schedule| - 1], schedule[|schedule| - 1];
      var before := Refines(v, s, init);
      var t, a := PairRun(Prog(v.w.ops, v.w.a), v.w.kernel, s, init), P.Run(before);
      P.RunInv(before);
      var more: seq<P.Input>;
      if who == First {
        more := FirstSteps(v, t, a);
      } else {
        more := SecondSteps(v, t, a);
      }
      inputs := before + more;
      if more == [] {
        assert inputs == before;
      } else {
        assert inputs[..|inputs| - 1] == before;
      }
    }
  }

  // ----- what is on the terminal -----

  /** Nothing, or the marker and then tokens only. */
  predicate InOrder(sent: seq<byte>) {
    || sent == []
    || (&& |sent| >= |READY| && sent[..|READY|] == READY
        && forall k | |READY| <= k < |sent| :: [sent[k]] == TOKEN0 || [sent[k]] == TOKEN1)
  }

  lemma {:induction false} RenderedInOrder(v: World, output: seq<P.Event>)
    requires P.ReadyFirst(output) && READY != [] && |TOKEN0| == 1 && |TOKEN1| == 1
    ensures InOrder(v.Rendered(output)) && (output == [] <==> v.Rendered(output) == [])
    decreases |output|
  {
    if |output| > 1 {
      var init := output[..|output| - 1];
      RenderedInOrder(v, init);
      var more := v.Bytes(output[|output| - 1]);
      assert |more| == 1 && more == [more[0]];
    }
  }

  /** Nothing has faulted, the terminal is in order, and once anything is on it
      each CPU's own reading, still in memory, says it runs where it was
      pinned. */
  predicate Barred(v: World, t: Pair)
    requires v.Named()
  {
    && t.Pair? && InOrder(t.sent)
    && (t.sent != [] ==> Word(v.w, t.mem, Cpu0Observed(), 0) && Word(v.w, t.mem, Cpu1Observed(), 1))
  }

  lemma TracksBarred(v: World, t: Pair, inputs: seq<P.Input>)
    requires v.Ok() && Tracks(v, t, P.Run(inputs))
    ensures Barred(v, t)
  {
    hide World.Ok, Names, P.Inv, P.Run, P.ReadyFirst, World.Rendered, Stores, InOrder, ParentComes, ChildComes, Word;
    v.Means();
    P.StartBarrier(inputs);
    RenderedInOrder(v, P.Run(inputs).output);
    SharedWords(v, t, P.Run(inputs));
  }

  /** In every interleaving, under every kernel that keeps the conventions. */
  lemma StartBarrierRuns(v: World, s: Pair, schedule: seq<Who>)
    requires v.Ok() && Emitted(v.w.ops) && Started(v, s)
    ensures Barred(v, PairRun(Prog(v.w.ops, v.w.a), v.w.kernel, s, schedule))
  {
    hide Tracks, Started, World.Ok, Emitted, Prog, ProgramOf, Names, PairRun, P.Run, Barred;
    v.Means();
    var inputs := Refines(v, s, schedule);
    TracksBarred(v, PairRun(Prog(v.w.ops, v.w.a), v.w.kernel, s, schedule), inputs);
  }

  /** Both CPUs' calls follow their scripts. */
  ghost predicate Asks(v: World, t: Pair)
    requires v.Named()
  {
    t.Pair? && CallLog(v.Addresses(), First, By(t.log, First)) && CallLog(v.Addresses(), Second, By(t.log, Second))
  }

  lemma TracksAsks(v: World, t: Pair, a: P.State)
    requires v.Named() && Names(v.w.ops, v.w.a) && Tracks(v, t, a)
    ensures Asks(v, t)
  {
    hide Names, World.Shows, ParentAt, ChildAt, CallsSoFar, Comes, Prog, By, CallLog, World.Addresses;
    var d :| v.w.Reaches(t.first, d) && ParentAt(v, d, a) && ParentCalls(v, By(t.log, First), a, d);
    CallsLog(v, First, By(t.log, First), a.parent == P.P_FAILURE, a.cpu0Observed, d);
    if a.child == P.C_UNBORN {
      NoCalls(v.Addresses());
    } else {
      var e :| v.w.Reaches(t.second.value, e) && ChildAt(v, e, a) && ChildCalls(v, By(t.log, Second), a, e);
      CallsLog(v, Second, By(t.log, Second), a.child == P.C_FAILURE, a.cpu1Observed, e);
    }
  }

  lemma NoCalls(w: Words)
    ensures CallLog(w, Second, [])
  {
    assert CallLogTo(w, Second, [], 0);
  }

  /** What the kernel is asked, in every interleaving. */
  lemma ProgressAsks(v: World, s: Pair, schedule: seq<Who>)
    requires v.Ok() && Emitted(v.w.ops) && Started(v, s)
    ensures Asks(v, PairRun(Prog(v.w.ops, v.w.a), v.w.kernel, s, schedule))
  {
    hide Tracks, Started, World.Ok, Emitted, Prog, Names, PairRun, P.Run, Asks;
    v.Means();
    var inputs := Refines(v, s, schedule);
    TracksAsks(v, PairRun(Prog(v.w.ops, v.w.a), v.w.kernel, s, schedule), P.Run(inputs));
  }
}
