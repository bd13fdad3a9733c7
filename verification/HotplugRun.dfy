/** Every interleaved run of the hotplug program is a run of its transition
    system, with the child's yields as no step and each comparison taken
    together with the load before it. */
module HotplugRun {
  import opened Bytes
  import opened A64
  import opened Machine
  import opened Assembler
  import opened Syscalls
  import opened Layout
  import opened Blocks
  import opened Templates
  import opened SmpData
  import opened Duo
  import opened DuoOps
  import opened DuoCode
  import opened HotplugPieces
  import opened Calls
  import opened HotplugCalls
  import opened HotplugCode
  import opened HotplugTable
  import opened HotplugLog
  import H = Hotplug

  // ----- the clone -----

  /** The clone, with both CPUs on their ways after it. */
  ghost predicate CloneMoves(v: World, s: Pair, a: H.State, i: H.Input, d: Cpu, e: Cpu)
    requires v.Named() && Names(v.w.ops, v.w.a)
  {
    var t, b := v.w.Next(s, First), H.Next(a, i);
    && t.Pair? && v.Shows(t, b) && v.w.Reaches(t.first, d) && ParentAt(v, d, b)
    && t.first.Valid() && d.Valid() && Logged(s, First, t.first, t)
    && b.parent == H.Checked(t.first.x[0] < SIGN, H.P_WAIT_READY)
    && (t.first.x[0] >= SIGN ==> Quitting(v.w, 219, d))
    && if b.child == H.C_UNBORN then t.second.None?
       else t.second.Some? && v.w.Reaches(t.second.value, e) && ChildAt(v, e, b) && e.Valid() && b.child == H.C_AFFINITY
  }

  lemma ParentClones(v: World, s: Pair, a: H.State) returns (i: H.Input, d: Cpu, e: Cpu)
    requires v.Ok() && v.Shows(s, a) && s.Pair? && a.parent == H.P_CLONE && ParentAt(v, s.first, a)
    requires a.child == H.C_UNBORN && s.second.None?
    requires Cloning(v.w.ops, 27) && Failing(v.w.ops, 219) && v.w.ops[147] == Mark("child")
    requires Waiting(v.w.ops, 37, WaitReady(), Cpu1Ready(), 1, NE)
    requires Pinning(v.w.ops, 148, Cpu1Mask(), Cpu1Observed(), 1)
    ensures CloneMoves(v, s, a, i, d, e)
  {
    hide Prog, World.Ok, World.Shows, Keeps2, DistinctMarks, CpuAt, Names, Comes, PairStep, Quitting, H.Next, Pinning,
         Failing, Cloning, Waiting, OfflineAt, FreezeAt, Logged, H.ParentOffline, H.ParentFreeze, H.ParentReentry;
    v.Means();
    ClonePieces(v.w.ops, 219, 27);
    var c := CloneStep(v.w, s, 33, s.first);
    var t := v.w.Next(s, First);
    var f := Cloned(v.w, 27, 219, 147, c);
    i := H.Parent(if c.x[0] >= SIGN then -1 else 0, 0);
    ParentPhase(a, i.result, i.observed);
    StillShows(v, s, t, a, H.Next(a, i));
    if c.x[0] >= SIGN {
      d := ToExit(v.w, 219, f);
      ExitQuits(v.w, 219, d);
      e := d;
    } else {
      d := ToWait(v.w, 37, WaitReady(), Cpu1Ready(), 1, NE, f);
      var g := Cloned(v.w, 27, 219, 147, t.second.value);
      e := ToSetAffinity(v.w, 148, Cpu1Mask(), Cpu1Observed(), 1, g);
      Onward(v.w, t.second.value, g, e);
    }
    Onward(v.w, c, f, d);
  }

  // ----- one instruction -----

  /** The pair of CPUs is on its way from this abstract state. */
  ghost predicate Tracks(v: World, s: Pair, a: H.State)
    requires v.Named() && Names(v.w.ops, v.w.a)
  {
    && s.Pair? && v.Shows(s, a) && ParentComes(v, s.first, a, By(s.log, First))
    && if a.child == H.C_UNBORN then s.second.None? && By(s.log, Second) == []
       else s.second.Some? && ChildComes(v, s.second.value, a, By(s.log, Second))
  }

  ghost predicate ParentComes(v: World, c: Cpu, a: H.State, p: seq<Made>)
    requires v.Named() && Names(v.w.ops, v.w.a)
  {
    exists d :: v.w.Reaches(c, d) && ParentAt(v, d, a) && ParentCalls(v, p, a, d)
  }

  ghost predicate ChildComes(v: World, c: Cpu, a: H.State, q: seq<Made>)
    requires v.Named() && Names(v.w.ops, v.w.a)
  {
    exists d :: v.w.Reaches(c, d) && ChildAt(v, d, a) && ChildCalls(v, q, a, d)
  }

  lemma SameParent(v: World, c: Cpu, a: H.State, b: H.State, p: seq<Made>)
    requires v.Named() && Names(v.w.ops, v.w.a) && ParentComes(v, c, a, p)
    requires b.parent == a.parent && b.x0 == a.x0 && b.x2 == a.x2 && b.x5 == a.x5 && b.cpu0Observed == a.cpu0Observed
    ensures ParentComes(v, c, b, p)
  {
    hide Comes, Names, Prog, Facing, Calling, Telling, PowerGiven, Leaving, Good, Broken, ParentLogTo;
    var d :| v.w.Reaches(c, d) && ParentAt(v, d, a) && ParentCalls(v, p, a, d);
    assert ParentAt(v, d, b) && ParentCalls(v, p, b, d);
  }

  lemma SameChild(v: World, c: Cpu, a: H.State, b: H.State, q: seq<Made>)
    requires v.Named() && Names(v.w.ops, v.w.a) && ChildComes(v, c, a, q)
    requires b.child == a.child && b.c0 == a.c0 && b.saw3 == a.saw3 && b.cpu1Observed == a.cpu1Observed
    ensures ChildComes(v, c, b, q)
  {
    hide Comes, Names, Prog, Facing, Calling, Leaving, ChildGood, ChildBroken, ChildLogTo;
    var d :| v.w.Reaches(c, d) && ChildAt(v, d, a) && ChildCalls(v, q, a, d);
    assert ChildAt(v, d, b) && ChildCalls(v, q, b, d);
  }

  /** The parent at its visible instruction, phase by phase. */
  lemma SetupMove(v: World, s: Pair, a: H.State) returns (inputs: seq<H.Input>, b: H.State, e: Cpu, d: Cpu)
    requires v.Ok() && s.Pair? && v.Shows(s, a) && ParentAt(v, s.first, a) && a.parent <= H.P_STORE_1
    requires a.parent != H.P_CLONE
    requires v.w.ops == Ops()
    ensures Follows(a, inputs, b) && ParentMoves(v, s, a, b, e, d)
  {
    hide ParentMoves, Follows, World.Ok, World.Shows, Prog, Names, Facing, Calling, Telling, Leaving, Ending, Pinning,
         Mounting, Cloning, Waiting, Storing, Printing, OnlineWriting, Copying, Quiescing, Comparing, PoweringOff,
         Failing, Ops, OpAt;
    v.Means();
    Rejoins();
    ParentPin();
    HasMount();
    HasClone();
    WaitsReady();
    WaitsProgress();
    if a.parent == H.P_AFFINITY {
      inputs, b, e, d := ParentSets(v, s, a);
    } else if a.parent == H.P_GETCPU {
      inputs, b, e, d := ParentGets(v, s, a);
    } else if a.parent == H.P_CHECK_CPU {
      inputs, b, e, d := ParentChecks(v, s, a);
    } else if a.parent == H.P_MOUNT {
      inputs, b, e, d := ParentMounts(v, s, a);
    } else if a.parent == H.P_WAIT_READY {
      inputs, b, e, d := ParentWaits(v, s, a);
    } else {
      inputs, b, e, d := ParentStarts(v, s, a);
    }
  }

  lemma OfflineMove(v: World, s: Pair, a: H.State) returns (inputs: seq<H.Input>, b: H.State, e: Cpu, d: Cpu)
    requires v.Ok() && s.Pair? && v.Shows(s, a) && ParentAt(v, s.first, a)
    requires H.P_STORE_1 < a.parent <= H.P_WAIT_QUIESCED
    requires v.w.ops == Ops()
    ensures Follows(a, inputs, b) && ParentMoves(v, s, a, b, e, d)
  {
    hide ParentMoves, Follows, World.Ok, World.Shows, Prog, Names, Facing, Calling, Telling, Leaving, Ending, Pinning,
         Mounting, Cloning, Waiting, Storing, Printing, OnlineWriting, Copying, Quiescing, Comparing, PoweringOff,
         Failing, Ops, OpAt;
    v.Means();
    Rejoins();
    WaitsProgress();
    SaysReady();
    Onlines();
    AsksQuiet();
    Copies();
    if a.parent == H.P_WAIT_PROGRESS {
      inputs, b, e, d := ParentSeesProgress(v, s, a);
    } else if a.parent == H.P_WRITE_READY {
      inputs, b, e, d := ParentAnnounces(v, s, a);
    } else if a.parent == H.P_OFFLINE_OPEN {
      inputs, b, e, d := OfflineOpens(v, s, a);
    } else if a.parent == H.P_OFFLINE_WRITE {
      inputs, b, e, d := OfflineWrites(v, s, a);
    } else if a.parent == H.P_OFFLINE_CLOSE {
      inputs, b, e, d := OfflineCloses(v, s, a);
    } else if a.parent == H.P_STORE_2 {
      inputs, b, e, d := ParentAsks(v, s, a);
    } else {
      inputs, b, e, d := ParentSeesQuiet(v, s, a);
    }
  }

  lemma FreezeMove(v: World, s: Pair, a: H.State) returns (inputs: seq<H.Input>, b: H.State, e: Cpu, d: Cpu)
    requires v.Ok() && s.Pair? && v.Shows(s, a) && ParentAt(v, s.first, a)
    requires H.P_WAIT_QUIESCED < a.parent <= H.P_FREEZE_BASELINE
    requires v.w.ops == Ops()
    ensures Follows(a, inputs, b) && ParentMoves(v, s, a, b, e, d)
  {
    hide ParentMoves, Follows, World.Ok, World.Shows, Prog, Names, Facing, Calling, Telling, Leaving, Ending, Pinning,
         Mounting, Cloning, Waiting, Storing, Printing, OnlineWriting, Copying, Quiescing, Comparing, PoweringOff,
         Failing, Ops, OpAt;
    v.Means();
    Rejoins();
    Copies();
    SaysOff();
    Quiets();
    Compares();
    Onlines();
    if a.parent == H.P_LOAD_BASELINE {
      inputs, b, e, d := ParentReads(v, s, a);
    } else if a.parent == H.P_STORE_BASELINE {
      inputs, b, e, d := ParentSaves(v, s, a);
    } else if a.parent == H.P_WRITE_OFF {
      inputs, b, e, d := ParentTellsOff(v, s, a);
    } else if a.parent == H.P_QUIESCENCE {
      inputs, b, e, d := ParentYields(v, s, a);
    } else if a.parent == H.P_FREEZE_LOAD {
      inputs, b, e, d := ParentLooks(v, s, a);
    } else {
      inputs, b, e, d := ParentCompares(v, s, a);
    }
  }

  lemma OnlineMove(v: World, s: Pair, a: H.State) returns (inputs: seq<H.Input>, b: H.State, e: Cpu, d: Cpu)
    requires v.Ok() && s.Pair? && v.Shows(s, a) && ParentAt(v, s.first, a)
    requires H.P_FREEZE_BASELINE < a.parent <= H.P_STORE_3
    requires v.w.ops == Ops()
    ensures Follows(a, inputs, b) && ParentMoves(v, s, a, b, e, d)
  {
    hide ParentMoves, Follows, World.Ok, World.Shows, Prog, Names, Facing, Calling, Telling, Leaving, Ending, Pinning,
         Mounting, Cloning, Waiting, Storing, Printing, OnlineWriting, Copying, Quiescing, Comparing, PoweringOff,
         Failing, Ops, OpAt;
    v.Means();
    Rejoins();
    Onlines();
    Readmits();
    ComparesAgain();
    assert a.parent != H.P_FREEZE_COMPARE;
    if a.parent == H.P_ONLINE_OPEN {
      inputs, b, e, d := OnlineOpens(v, s, a);
    } else if a.parent == H.P_ONLINE_WRITE {
      inputs, b, e, d := OnlineWrites(v, s, a);
    } else if a.parent == H.P_ONLINE_CLOSE {
      inputs, b, e, d := OnlineCloses(v, s, a);
    } else {
      inputs, b, e, d := ParentReadmits(v, s, a);
    }
  }

  lemma ReentryMove(v: World, s: Pair, a: H.State) returns (inputs: seq<H.Input>, b: H.State, e: Cpu, d: Cpu)
    requires v.Ok() && s.Pair? && v.Shows(s, a) && ParentAt(v, s.first, a) && H.P_STORE_3 < a.parent
    requires v.w.ops == Ops()
    ensures Follows(a, inputs, b) && ParentMoves(v, s, a, b, e, d)
  {
    hide ParentMoves, Follows, World.Ok, World.Shows, Prog, Names, Facing, Calling, Telling, Leaving, Ending, Pinning,
         Mounting, Cloning, Waiting, Storing, Printing, OnlineWriting, Copying, Quiescing, Comparing, PoweringOff,
         Failing, Ops, OpAt;
    v.Means();
    Rejoins();
    Readmits();
    ComparesAgain();
    SaysDone();
    Finishes();
    if a.parent == H.P_REENTRY_LOAD {
      inputs, b, e, d := ParentLooksAgain(v, s, a);
    } else if a.parent == H.P_REENTRY_BASELINE {
      inputs, b, e, d := ParentComparesAgain(v, s, a);
    } else if a.parent == H.P_WRITE_DONE {
      inputs, b, e, d := ParentTellsDone(v, s, a);
    } else if a.parent == H.P_POWER_OFF {
      inputs, b, e, d := ParentPowersOff(v, s, a);
    } else if a.parent == H.P_FAILURE {
      inputs, b, e, d := ParentLeaves(v, s, a);
    } else {
      inputs, b, e, d := ParentLeavesThawed(v, s, a);
    }
  }

  lemma ParentMove(v: World, s: Pair, a: H.State) returns (inputs: seq<H.Input>, b: H.State, e: Cpu, d: Cpu)
    requires v.Ok() && s.Pair? && v.Shows(s, a) && ParentAt(v, s.first, a) && a.parent != H.P_CLONE
    requires v.w.ops == Ops()
    ensures Follows(a, inputs, b) && ParentMoves(v, s, a, b, e, d)
  {
    hide ParentMoves, Follows, World.Ok, World.Shows, Ops, Prog, Names, ParentAt;
    v.Means();
    if a.parent <= H.P_STORE_1 {
      inputs, b, e, d := SetupMove(v, s, a);
    } else if a.parent <= H.P_WAIT_QUIESCED {
      inputs, b, e, d := OfflineMove(v, s, a);
    } else if a.parent <= H.P_FREEZE_BASELINE {
      inputs, b, e, d := FreezeMove(v, s, a);
    } else if a.parent <= H.P_STORE_3 {
      inputs, b, e, d := OnlineMove(v, s, a);
    } else {
      inputs, b, e, d := ReentryMove(v, s, a);
    }
  }

  /** The child at its visible instruction. */
  lemma ChildMove(v: World, s: Pair, a: H.State) returns (inputs: seq<H.Input>, b: H.State, e: Cpu, d: Cpu)
    requires v.Ok() && v.w.ops == Ops() && s.Pair? && v.Shows(s, a)
    requires s.second.Some? && ChildAt(v, s.second.value, a)
    ensures Follows(a, inputs, b) && ChildMoves(v, s, a, b, e, d)
  {
    hide ChildMoves, Follows, World.Ok, World.Shows, Prog, Names, Facing, Calling, AtYield, Leaving, Pinning, Storing,
         Dispatching, CountingUp, Yielding, Failing, Ops, OpAt;
    v.Means();
    Rejoins();
    ChildPin();
    ChildPinAgain();
    Reports();
    Dispatches();
    Counts();
    BeingQuiet();
    ChildMarks();
    if a.child == H.C_AFFINITY {
      inputs, b, e, d := ChildSets(v, s, a);
    } else if a.child == H.C_GETCPU {
      inputs, b, e, d := ChildGets(v, s, a);
    } else if a.child == H.C_CHECK_CPU {
      inputs, b, e, d := ChildChecks(v, s, a);
    } else if a.child == H.C_STORE_READY {
      inputs, b, e, d := ChildReports(v, s, a);
    } else if a.child == H.C_DISPATCH {
      if Facing(v, s.second.value, 171, Start()) {
        inputs, b, e, d := ChildDispatches(v, s, a);
      } else {
        inputs, b, e, d := ChildYields(v, s, a);
      }
    } else if a.child == H.C_QUIESCE {
      inputs, b, e, d := ChildQuiets(v, s, a);
    } else if a.child == H.C_RE_AFFINITY {
      inputs, b, e, d := ChildAgainSets(v, s, a);
    } else if a.child == H.C_RE_GETCPU {
      inputs, b, e, d := ChildAgainGets(v, s, a);
    } else if a.child == H.C_RE_CHECK_CPU {
      inputs, b, e, d := ChildAgainChecks(v, s, a);
    } else if a.child == H.C_STORE_4 {
      inputs, b, e, d := ChildReenters(v, s, a);
    } else if a.child == H.C_LOAD_PROGRESS {
      inputs, b, e, d := ChildLoads(v, s, a);
    } else if a.child == H.C_STORE_PROGRESS {
      inputs, b, e, d := ChildCounts(v, s, a);
    } else {
      inputs, b, e, d := ChildLeaves(v, s, a);
    }
  }

  lemma CloneTracks(v: World, s: Pair, a: H.State, i: H.Input, d: Cpu, e: Cpu)
    requires v.Named() && Names(v.w.ops, v.w.a) && CloneMoves(v, s, a, i, d, e) && By(s.log, Second) == []
    requires s.Pair? && ParentCalls(v, By(v.w.Next(s, First).log, First), H.Next(a, i), d)
    ensures Tracks(v, v.w.Next(s, First), H.Next(a, i))
  {
    hide ParentAt, ChildAt, ParentCalls, World.Shows, Prog, Names, Comes, PairStep, H.Next, Logged, By, Quitting,
         World.Addresses;
    var t, b := v.w.Next(s, First), H.Next(a, i);
    OtherCalls(s, t, First, t.first, Second);
    if b.child != H.C_UNBORN {
      assert WithoutYields(By(t.log, Second)) == [];
      assert ChildCalls(v, By(t.log, Second), b, e);
    }
  }

  lemma CloneSteps(v: World, s: Pair, a: H.State) returns (i: H.Input)
    requires v.Ok() && s.Pair? && v.Shows(s, a) && s.second.None? && ParentAt(v, s.first, a)
    requires a.parent == H.P_CLONE && a.child == H.C_UNBORN && v.w.ops == Ops()
    requires ParentCalls(v, By(s.log, First), a, s.first) && By(s.log, Second) == []
    ensures Tracks(v, v.w.Next(s, First), H.Next(a, i))
  {
    hide ParentAt, ChildAt, ParentCalls, Tracks, World.Ok, World.Shows, Ops, OpAt, Prog, Names, PairStep, H.Next,
         Pinning, Cloning, Failing, Waiting, Comes, Logged, Quitting, By;
    v.Means();
    ChildPin();
    HasClone();
    WaitsReady();
    Reports();
    Rejoins();
    var d, e;
    i, d, e := ParentClones(v, s, a);
    CloneCallsStep(v, s, a, H.Next(a, i), v.w.Next(s, First).first, d);
    CloneTracks(v, s, a, i, d, e);
  }

  lemma ParentMovesMeans(v: World, s: Pair, a: H.State, b: H.State, e: Cpu, d: Cpu)
    requires ParentMoves(v, s, a, b, e, d)
    ensures v.Named() && Names(v.w.ops, v.w.a)
    ensures var t := v.w.Next(s, First);
            && t.Pair? && s.Pair? && t.first == e && t.second == s.second && v.Shows(t, b)
            && b.child == a.child && b.c0 == a.c0 && b.saw3 == a.saw3 && b.cpu1Observed == a.cpu1Observed
            && v.w.Reaches(t.first, d) && ParentAt(v, d, b) && (SameLog(s, t) || Logged(s, First, e, t))
  {
    hide ParentAt, World.Shows, Prog, Names, Comes, PairStep, Told, JustFailed, SameLog, Logged;
  }

  lemma ChildMovesMeans(v: World, s: Pair, a: H.State, b: H.State, e: Cpu, d: Cpu)
    requires ChildMoves(v, s, a, b, e, d)
    ensures v.Named() && Names(v.w.ops, v.w.a)
    ensures var t := v.w.Next(s, Second);
            && t.Pair? && s.Pair? && t.first == s.first && v.Shows(t, b) && b.cpu0Observed == a.cpu0Observed
            && b.parent == a.parent && b.x0 == a.x0 && b.x2 == a.x2 && b.x5 == a.x5
            && t.second == Some(e) && v.w.Reaches(e, d) && ChildAt(v, d, b) && b.child != H.C_UNBORN
            && (SameLog(s, t) || Logged(s, Second, e, t))
  {
    hide World.Shows, Prog, Names, Comes, PairStep, Facing, Calling, AtYield, Leaving, SameLog, Logged, ChildTold;
  }

  lemma FollowsInv(a: H.State, inputs: seq<H.Input>, b: H.State)
    requires H.Inv(a) && Follows(a, inputs, b)
    ensures H.Inv(b)
  {
    hide H.Inv, H.Next;
    if |inputs| >= 1 {
      H.NextKeepsInv(a, inputs[0]);
      if |inputs| == 2 {
        H.NextKeepsInv(H.Next(a, inputs[0]), inputs[1]);
      }
    }
  }

  lemma FirstSteps(v: World, s: Pair, a: H.State) returns (inputs: seq<H.Input>, b: H.State)
    requires v.Ok() && v.w.ops == Ops() && H.Inv(a) && H.MarkerInv(a) && Tracks(v, s, a)
    ensures Follows(a, inputs, b) && Tracks(v, v.w.Next(s, First), b)
  {
    hide ParentMoves, ParentAt, ChildAt, ParentCalls, ChildCalls, World.Ok, World.Shows, Ops, OpAt, Prog, Names, Comes,
         PairStep, H.Inv, H.MarkerInv, H.Next, By, Failing, PoweringOff, SameLog, Logged;
    v.Means();
    var d :| v.w.Reaches(s.first, d) && ParentAt(v, d, a) && ParentCalls(v, By(s.log, First), a, d);
    ParentValid(v, d, a);
    ComesValid(Prog(v.w.ops, v.w.a), s.first, d);
    var t := v.w.Next(s, First);
    if s.first != d {
      inputs, b := [], a;
      OnItsWay(Prog(v.w.ops, v.w.a), v.w.kernel, s, First, d);
      StillShows(v, s, t, a, a);
      assert v.w.Reaches(t.first, d);
    } else if a.parent == H.P_CLONE {
      NoChildYet(a);
      var i := CloneSteps(v, s, a);
      inputs, b := [i], H.Next(a, i);
    } else {
      Rejoins();
      Finishes();
      var e, f;
      inputs, b, e, f := ParentMove(v, s, a);
      FollowsInv(a, inputs, b);
      ParentCallsStep(v, s, a, b, e, f);
      ParentMovesMeans(v, s, a, b, e, f);
      OtherCalls(s, t, First, e, Second);
      if s.second.Some? {
        SameChild(v, s.second.value, a, b, By(s.log, Second));
      }
    }
  }

  lemma SecondSteps(v: World, s: Pair, a: H.State) returns (inputs: seq<H.Input>, b: H.State)
    requires v.Ok() && v.w.ops == Ops() && H.Inv(a) && Tracks(v, s, a)
    ensures Follows(a, inputs, b) && Tracks(v, v.w.Next(s, Second), b)
  {
    hide ChildMoves, ParentAt, ChildAt, ParentCalls, ChildCalls, World.Ok, World.Shows, Ops, OpAt, Prog, Names, Comes,
         PairStep, H.Inv, H.Next, By, Failing, SameLog, Logged;
    v.Means();
    var t := v.w.Next(s, Second);
    if s.second.None? {
      inputs, b := [], a;
      Absent(Prog(v.w.ops, v.w.a), v.w.kernel, s);
      return;
    }
    var d :| v.w.Reaches(s.second.value, d) && ChildAt(v, d, a) && ChildCalls(v, By(s.log, Second), a, d);
    ChildPlaces(v, d, a);
    ComesValid(Prog(v.w.ops, v.w.a), s.second.value, d);
    if s.second.value != d {
      inputs, b := [], a;
      OnItsWay(Prog(v.w.ops, v.w.a), v.w.kernel, s, Second, d);
      StillShows(v, s, t, a, a);
      assert v.w.Reaches(t.second.value, d);
    } else {
      Rejoins();
      var e, f;
      inputs, b, e, f := ChildMove(v, s, a);
      ChildCallsStep(v, s, a, b, e, f);
      ChildMovesMeans(v, s, a, b, e, f);
      OtherCalls(s, t, Second, e, First);
      SameParent(v, s.first, a, b, By(s.log, First));
    }
  }

  lemma ParentValid(v: World, d: Cpu, a: H.State)
    requires Names(v.w.ops, v.w.a) && ParentAt(v, d, a)
    ensures d.Valid()
  {
    hide Names, CpuAt;
  }

  lemma NoChildYet(a: H.State)
    requires H.Inv(a) && a.parent == H.P_CLONE
    ensures a.child == H.C_UNBORN
  {
  }

  // ----- whole runs -----

  /** About to execute the first instruction, alone, with the words zero. */
  predicate Started(v: World, s: Pair)
    requires v.Named() && Names(v.w.ops, v.w.a)
  {
    && s.Pair? && s.first.Valid() && s.first.pc == 0 && s.second.None? && s.sent == [] && s.log == []
    && v.Shows(s, H.Init())
  }

  lemma StartTracks(v: World, s: Pair)
    requires v.Ok() && v.w.ops == Ops() && Started(v, s)
    ensures Tracks(v, s, H.Init())
  {
    hide World.Ok, World.Shows, Ops, OpAt, Pinning, Prog, Names, CpuAt, Comes, Keeps2, DistinctMarks, OfflineAt,
         FreezeAt, ReentryAt;
    v.Means();
    AtEntry(v.w, s.first);
    ParentPin();
    var d := ToSetAffinity(v.w, 0, Cpu0Mask(), Cpu0Observed(), 0, s.first);
    assert ParentAt(v, d, H.Init()) && ParentCalls(v, [], H.Init(), d);
  }

  lemma RunMore(before: seq<H.Input>, more: seq<H.Input>, b: H.State)
    requires Follows(H.Run(before), more, b)
    ensures H.Run(before + more) == b
  {
    hide H.Next;
    var inputs := before + more;
    if more == [] {
      assert inputs == before;
    } else if |more| == 1 {
      assert inputs[..|inputs| - 1] == before;
    } else {
      var init := inputs[..|inputs| - 1];
      assert init[..|init| - 1] == before && init[|init| - 1] == more[0];
      assert H.Run(init) == H.Next(H.Run(before), more[0]);
    }
  }

  /** For every schedule there is a run of the transition system that the pair
      of CPUs is on its way from: same words, same output. */
  lemma {:induction false} Refines(v: World, s: Pair, schedule: seq<Who>) returns (inputs: seq<H.Input>)
    requires v.Ok() && v.w.ops == Ops() && Started(v, s)
    ensures Tracks(v, PairRun(Prog(v.w.ops, v.w.a), v.w.kernel, s, schedule), H.Run(inputs))
    decreases |schedule|
  {
    hide Tracks, Started, World.Ok, Ops, Prog, Names, H.Next, H.Inv, H.MarkerInv, PairStep, Follows;
    v.Means();
    if schedule == [] {
      inputs := [];
      StartTracks(v, s);
    } else {
      var init, who := schedule[..|schedule| - 1], schedule[|schedule| - 1];
      var before := Refines(v, s, init);
      var t, a := PairRun(Prog(v.w.ops, v.w.a), v.w.kernel, s, init), H.Run(before);
      H.RunInv(before);
      H.RunMarkers(before);
      var more, b;
      if who == First {
        more, b := FirstSteps(v, t, a);
      } else {
        more, b := SecondSteps(v, t, a);
      }
      inputs := before + more;
      RunMore(before, more, b);
    }
  }

  // ----- what is on the terminal and in the words -----

  /** The first `n` markers. */
  function Markers(n: nat): seq<byte> {
    if n == 0 then []
    else if n == 1 then READY
    else if n == 2 then READY + OFF
    else READY + OFF + DONE
  }

  /** With `n` markers out: from READY on CPU 0 is where it was pinned; from
      OFF on the progress word is the saved baseline, or one past it once the
      child stored 4; with DONE the child did, from CPU 1. */
  ghost predicate Says(v: World, t: Pair, n: nat, baseline: word) {
    && t.Pair? && n <= 3 && t.sent == Markers(n) && Word(v.w, t.mem, Baseline(), baseline)
    && (n >= 1 ==> Word(v.w, t.mem, Cpu0Observed(), 0))
    && (n >= 2 ==> || Word(v.w, t.mem, Progress(), baseline)
                   || (&& Word(v.w, t.mem, Start(), 4)
                       && Word(v.w, t.mem, Progress(), (baseline + 1) % 0x1_0000_0000)))
    && (n == 3 ==> && Word(v.w, t.mem, Start(), 4) && Word(v.w, t.mem, Cpu1Observed(), 1)
                   && Word(v.w, t.mem, Progress(), (baseline + 1) % 0x1_0000_0000))
  }

  lemma RenderMarkers(v: World, n: nat)
    requires n <= 3
    ensures v.Rendered([H.Ready, H.Off, H.Done][..n]) == Markers(n)
  {
    var m := [H.Ready, H.Off, H.Done];
    assert m[..0] == [] && m[..1] == [] + [H.Ready] && m[..2] == [H.Ready] + [H.Off];
    assert m[..3] == [H.Ready, H.Off] + [H.Done];
    RenderOne(v, [], H.Ready);
    RenderOne(v, [H.Ready], H.Off);
    RenderOne(v, [H.Ready, H.Off], H.Done);
    assert [] + READY == READY;
  }

  lemma OutputIsPrefix(s: H.State) returns (n: nat)
    requires H.OutputInv(s)
    ensures n <= 3 && s.output == [H.Ready, H.Off, H.Done][..n]
  {
    var m := [H.Ready, H.Off, H.Done];
    assert m[..0] == [] && m[..1] == [H.Ready] && m[..2] == [H.Ready, H.Off] && m[..3] == [H.Ready, H.Off, H.Done];
    n := |s.output|;
  }

  /** The words behind the markers of an abstract run. */
  lemma MarkersMean(inputs: seq<H.Input>, n: nat)
    requires n <= 3 && H.Run(inputs).output == [H.Ready, H.Off, H.Done][..n]
    ensures var a := H.Run(inputs);
            && a.parent != H.P_THAWED
            && (n >= 1 ==> a.cpu0Observed == 0)
            && (n >= 2 ==> || a.progress == a.baseline
                           || (a.start == 4 && a.progress == (a.baseline + 1) % 0x1_0000_0000))
            && (n == 3 ==> a.start == 4 && a.cpu1Observed == 1 && a.progress == (a.baseline + 1) % 0x1_0000_0000)
  {
    hide H.Run, H.Inv, H.Counting;
    H.NeverThawed(inputs);
    H.RunMarkers(inputs);
    H.OneIncrementAfterThree(inputs);
    var m := [H.Ready, H.Off, H.Done];
    if n == 3 {
      assert m[..n][2] == H.Done;
      H.DoneOnlyAfterReentry(inputs);
    }
  }

  /** In every interleaving, under every kernel that keeps the conventions. */
  lemma HotplugRuns(v: World, s: Pair, schedule: seq<Who>) returns (n: nat, baseline: word)
    requires v.Ok() && v.w.ops == Ops() && Started(v, s)
    ensures Says(v, PairRun(Prog(v.w.ops, v.w.a), v.w.kernel, s, schedule), n, baseline)
  {
    hide Started, World.Ok, Ops, Prog, Names, PairRun, H.Run, H.OutputInv, World.Rendered, Stores, Word, ParentComes,
         ChildComes, Markers;
    v.Means();
    var inputs := Refines(v, s, schedule);
    var t, a := PairRun(Prog(v.w.ops, v.w.a), v.w.kernel, s, schedule), H.Run(inputs);
    H.RunOutput(inputs);
    n := OutputIsPrefix(a);
    RenderMarkers(v, n);
    MarkersMean(inputs, n);
    SharedWords(v, t, a);
    baseline := a.baseline;
  }

  /** Both CPUs' calls follow their scripts. */
  ghost predicate Asks(v: World, t: Pair)
    requires v.Named()
  {
    t.Pair? && ParentLog(v.Addresses(), By(t.log, First)) && ChildLog(v.Addresses(), By(t.log, Second))
  }

  lemma NoCalls(w: Words)
    ensures ChildLog(w, [])
  {
    assert ChildLogTo(w, WithoutYields([]), 0);
  }

  lemma TracksAsks(v: World, t: Pair, a: H.State)
    requires v.Named() && Names(v.w.ops, v.w.a) && Tracks(v, t, a)
    ensures Asks(v, t)
  {
    hide Names, World.Shows, ParentAt, ChildAt, ParentCalls, ChildCalls, Comes, Prog, By, ParentLog, ChildLog,
         World.Addresses;
    var d :| v.w.Reaches(t.first, d) && ParentAt(v, d, a) && ParentCalls(v, By(t.log, First), a, d);
    ParentCallsLog(v, By(t.log, First), a, d);
    if a.child == H.C_UNBORN {
      NoCalls(v.Addresses());
    } else {
      var e :| v.w.Reaches(t.second.value, e) && ChildAt(v, e, a) && ChildCalls(v, By(t.log, Second), a, e);
      ChildCallsLog(v, By(t.log, Second), a, e);
    }
  }

  /** What the kernel is asked, in every interleaving. */
  lemma HotplugAsks(v: World, s: Pair, schedule: seq<Who>)
    requires v.Ok() && v.w.ops == Ops() && Started(v, s)
    ensures Asks(v, PairRun(Prog(v.w.ops, v.w.a), v.w.kernel, s, schedule))
  {
    hide Tracks, Started, World.Ok, Ops, Prog, Names, PairRun, H.Run, Asks;
    v.Means();
    var inputs := Refines(v, s, schedule);
    TracksAsks(v, PairRun(Prog(v.w.ops, v.w.a), v.w.kernel, s, schedule), H.Run(inputs));
  }
}
