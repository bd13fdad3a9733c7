/** The two-CPU hotplug program: a parent pinned to CPU 0 takes CPU 1 offline
    and back while a child pinned to CPU 1 counts. Every shared word is read
    with LDAR and written with STLR, so the two instruction streams interleave
    as single atomic accesses (section B2.3 of DDI 0487). One step below is
    one such access, one system call, or the compare-and-branch after it; the
    kernel's answers are arbitrary. */
module Hotplug {
  type u32 = x: int | 0 <= x < 0x1_0000_0000

  datatype Marker = Ready | Off | Done

  const QUIESCENCE_ITERATIONS := 4095

  // Points of the parent, in program order.
  const P_AFFINITY := 0
  const P_GETCPU := 1
  const P_CHECK_CPU := 2
  const P_MOUNT := 3
  const P_CLONE := 4
  const P_WAIT_READY := 5
  const P_STORE_1 := 6
  const P_WAIT_PROGRESS := 7
  const P_WRITE_READY := 8
  const P_OFFLINE_OPEN := 9
  const P_OFFLINE_WRITE := 10
  const P_OFFLINE_CLOSE := 11
  const P_STORE_2 := 12
  const P_WAIT_QUIESCED := 13
  const P_LOAD_BASELINE := 14
  const P_STORE_BASELINE := 15
  const P_WRITE_OFF := 16
  const P_QUIESCENCE := 17
  const P_FREEZE_LOAD := 18
  const P_FREEZE_BASELINE := 19
  const P_FREEZE_COMPARE := 20
  const P_ONLINE_OPEN := 21
  const P_ONLINE_WRITE := 22
  const P_ONLINE_CLOSE := 23
  const P_STORE_3 := 24
  const P_REENTRY_LOAD := 25
  const P_REENTRY_BASELINE := 26
  const P_REENTRY_COMPARE := 27
  const P_WRITE_DONE := 28
  const P_POWER_OFF := 29
  const P_FAILURE := 30
  /** Failure reached from the freeze comparison. */
  const P_THAWED := 31

  // Points of the child.
  const C_UNBORN := 0
  const C_AFFINITY := 1
  const C_GETCPU := 2
  const C_CHECK_CPU := 3
  const C_STORE_READY := 4
  const C_DISPATCH := 5
  const C_DECIDE := 6
  const C_QUIESCE := 7
  const C_RE_AFFINITY := 8
  const C_RE_GETCPU := 9
  const C_RE_CHECK_CPU := 10
  const C_STORE_4 := 11
  const C_LOAD_PROGRESS := 12
  const C_STORE_PROGRESS := 13
  const C_FAILURE := 14

  /** `x0`, `x2`, `x5` and `c0` are the registers that live across shared
      accesses. The last three fields record history: whether the child read a
      3, how often it stored progress after that, and whether it passed its
      second affinity check. */
  datatype State = State(
    parent: nat, x0: u32, x2: u32, x5: nat,
    child: nat, c0: u32,
    cpu0Observed: u32, cpu1Observed: u32,
    ready: u32, quiesced: u32, start: u32, progress: u32, baseline: u32,
    output: seq<Marker>,
    saw3: bool, after3: nat, recheck: bool)

  function Init(): State {
    State(P_AFFINITY, 0, 0, 0, C_UNBORN, 0, 0, 0, 0, 0, 0, 0, 0, [], false, 0, false)
  }

  function Checked(ok: bool, point: nat): nat { if ok then point else P_FAILURE }

  function ChildChecked(ok: bool, point: nat): nat { if ok then point else C_FAILURE }

  // One parent step, by phase; `result` is the kernel's return value and
  // `observed` what GETCPU stores, where the step is a system call.

  function ParentSetup(s: State, result: int, observed: u32): State {
    if s.parent == P_AFFINITY then s.(parent := Checked(result == 0, P_GETCPU))
    else if s.parent == P_GETCPU then s.(parent := Checked(result == 0, P_CHECK_CPU), cpu0Observed := observed)
    else if s.parent == P_CHECK_CPU then s.(parent := Checked(s.cpu0Observed == 0, P_MOUNT))
    else if s.parent == P_MOUNT then s.(parent := Checked(result == 0, P_CLONE))
    else if s.parent == P_CLONE then
      if result < 0 then s.(parent := P_FAILURE) else s.(parent := P_WAIT_READY, child := C_AFFINITY)
    else if s.parent == P_WAIT_READY then if s.ready == 1 then s.(parent := P_STORE_1) else s
    else s.(parent := P_WAIT_PROGRESS, start := 1)
  }

  function ParentOffline(s: State, result: int): State {
    if s.parent == P_WAIT_PROGRESS then if s.progress != 0 then s.(parent := P_WRITE_READY) else s
    else if s.parent == P_WRITE_READY then s.(parent := P_OFFLINE_OPEN, output := s.output + [Ready])
    else if s.parent == P_OFFLINE_OPEN then s.(parent := Checked(result >= 0, P_OFFLINE_WRITE))
    else if s.parent == P_OFFLINE_WRITE then s.(parent := Checked(result == 1, P_OFFLINE_CLOSE))
    else if s.parent == P_OFFLINE_CLOSE then s.(parent := Checked(result == 0, P_STORE_2))
    else if s.parent == P_STORE_2 then s.(parent := P_WAIT_QUIESCED, start := 2)
    else if s.quiesced == 1 then s.(parent := P_LOAD_BASELINE) else s
  }

  function ParentFreeze(s: State, result: int): State {
    if s.parent == P_LOAD_BASELINE then s.(parent := P_STORE_BASELINE, x0 := s.progress)
    else if s.parent == P_STORE_BASELINE then s.(parent := P_WRITE_OFF, baseline := s.x0)
    else if s.parent == P_WRITE_OFF then
      s.(parent := P_QUIESCENCE, x5 := QUIESCENCE_ITERATIONS, output := s.output + [Off])
    else if s.parent == P_QUIESCENCE then
      if s.x5 > 1 then s.(x5 := s.x5 - 1) else s.(x5 := 0, parent := P_FREEZE_LOAD)
    else if s.parent == P_FREEZE_LOAD then s.(parent := P_FREEZE_BASELINE, x0 := s.progress)
    else if s.parent == P_FREEZE_BASELINE then s.(parent := P_FREEZE_COMPARE, x2 := s.baseline)
    else if s.parent == P_FREEZE_COMPARE then s.(parent := if s.x0 == s.x2 then P_ONLINE_OPEN else P_THAWED)
    else if s.parent == P_ONLINE_OPEN then s.(parent := Checked(result >= 0, P_ONLINE_WRITE))
    else if s.parent == P_ONLINE_WRITE then s.(parent := Checked(result == 1, P_ONLINE_CLOSE))
    else if s.parent == P_ONLINE_CLOSE then s.(parent := Checked(result == 0, P_STORE_3))
    else s.(parent := P_REENTRY_LOAD, start := 3)
  }

  function ParentReentry(s: State): State {
    if s.parent == P_REENTRY_LOAD then s.(parent := P_REENTRY_BASELINE, x0 := s.progress)
    else if s.parent == P_REENTRY_BASELINE then s.(parent := P_REENTRY_COMPARE, x2 := s.baseline)
    else if s.parent == P_REENTRY_COMPARE then s.(parent := if s.x0 == s.x2 then P_REENTRY_LOAD else P_WRITE_DONE)
    else if s.parent == P_WRITE_DONE then s.(parent := P_POWER_OFF, output := s.output + [Done])
    else s
  }

  function NextParent(s: State, result: int, observed: u32): State {
    if s.parent <= P_STORE_1 then ParentSetup(s, result, observed)
    else if s.parent <= P_WAIT_QUIESCED then ParentOffline(s, result)
    else if s.parent <= P_STORE_3 then ParentFreeze(s, result)
    else ParentReentry(s)
  }

  // One child step: pinning itself, then the dispatch loop, then re-entry.

  function ChildSetup(s: State, result: int, observed: u32): State {
    if s.child == C_UNBORN then s
    else if s.child == C_AFFINITY then s.(child := ChildChecked(result == 0, C_GETCPU))
    else if s.child == C_GETCPU then s.(child := ChildChecked(result == 0, C_CHECK_CPU), cpu1Observed := observed)
    else if s.child == C_CHECK_CPU then s.(child := ChildChecked(s.cpu1Observed == 1, C_STORE_READY))
    else s.(child := C_DISPATCH, ready := 1)
  }

  function ChildDispatch(s: State): State {
    if s.child == C_DISPATCH then s.(child := C_DECIDE, c0 := s.start)
    else if s.child == C_DECIDE then
      s.(child := if s.c0 == 1 then C_LOAD_PROGRESS else if s.c0 == 2 then C_QUIESCE
                  else if s.c0 == 3 then C_RE_AFFINITY else C_DISPATCH,
         saw3 := s.saw3 || s.c0 == 3)
    else s.(child := C_DISPATCH, quiesced := 1)
  }

  function ChildReentry(s: State, result: int, observed: u32): State {
    if s.child == C_RE_AFFINITY then s.(child := ChildChecked(result == 0, C_RE_GETCPU))
    else if s.child == C_RE_GETCPU then s.(child := ChildChecked(result == 0, C_RE_CHECK_CPU), cpu1Observed := observed)
    else if s.child == C_RE_CHECK_CPU then
      s.(child := ChildChecked(s.cpu1Observed == 1, C_STORE_4), recheck := s.cpu1Observed == 1)
    else s.(child := C_LOAD_PROGRESS, start := 4)
  }

  function ChildCount(s: State): State {
    if s.child == C_LOAD_PROGRESS then s.(child := C_STORE_PROGRESS, c0 := s.progress)
    else if s.child == C_STORE_PROGRESS then
      s.(child := C_DISPATCH, progress := (s.c0 + 1) % 0x1_0000_0000,
         after3 := if s.saw3 then s.after3 + 1 else s.after3)
    else s
  }

  function NextChild(s: State, result: int, observed: u32): State {
    if s.child <= C_STORE_READY then ChildSetup(s, result, observed)
    else if s.child <= C_QUIESCE then ChildDispatch(s)
    else if s.child <= C_STORE_4 then ChildReentry(s, result, observed)
    else ChildCount(s)
  }

  /** A step of one CPU. */
  datatype Input =
    | Parent(result: int, observed: u32)
    | Child(result: int, observed: u32)

  function Next(s: State, i: Input): State {
    match i
    case Parent(result, observed) => NextParent(s, result, observed)
    case Child(result, observed) => NextChild(s, result, observed)
  }

  /** A run: any interleaving, with any kernel answers. */
  function Run(inputs: seq<Input>): State {
    if inputs == [] then Init() else Next(Run(inputs[..|inputs| - 1]), inputs[|inputs| - 1])
  }

  // ----- invariants -----

  predicate Failed(s: State) { s.parent >= P_FAILURE }

  /** The parent has seen `child_quiesced` and not yet stored 3. */
  predicate Frozen(s: State) { P_LOAD_BASELINE <= s.parent <= P_STORE_3 }

  predicate Reentering(s: State) { C_RE_AFFINITY <= s.child <= C_STORE_4 }

  predicate Counting(s: State) { s.child == C_LOAD_PROGRESS || s.child == C_STORE_PROGRESS }

  /** What the child's place implies about the shared words. */
  predicate ChildInv(s: State) {
    && s.child <= C_FAILURE
    && s.start <= 4 && s.ready <= 1 && s.quiesced <= 1
    && (s.child <= C_STORE_READY ==> s.ready == 0 && s.start == 0)
    && (s.start < 3 ==> !Reentering(s) && !s.recheck && !s.saw3)
    && (s.start == 3 && s.saw3 ==> Reentering(s) || s.child == C_FAILURE)
    && (Reentering(s) ==> s.saw3)
    && (s.start == 0 ==> !Counting(s) && s.child != C_QUIESCE && s.progress == 0)
    && (s.child == C_QUIESCE ==> 2 <= s.start <= 3)
    && (s.child == C_DECIDE ==> s.c0 <= s.start && (s.start == 4 ==> s.c0 == 4) && (s.quiesced == 1 ==> s.c0 >= 2))
    && (s.quiesced == 1 ==> s.start >= 2 && (s.start < 4 ==> !Counting(s)))
    && (s.start >= 3 ==> s.quiesced == 1)
    && (s.start == 4 ==> !Reentering(s) && s.recheck && s.saw3)
    && (s.start == 3 ==> (s.child == C_STORE_4 <==> s.recheck))
    && (s.child == C_STORE_PROGRESS ==> s.c0 == s.progress)
    && s.after3 == if s.start == 4 && !Counting(s) then 1 else 0
  }

  /** `start` is where the parent last put it, unless the child stored 4. */
  predicate ParentInv(s: State) {
    && s.parent <= P_FAILURE
    && (s.parent <= P_CLONE ==> s.child == C_UNBORN)
    && (s.parent <= P_STORE_1 ==> s.start == 0)
    && (s.parent == P_STORE_1 ==> s.ready == 1)
    && (P_STORE_1 < s.parent <= P_STORE_2 ==> s.start == 1)
    && (P_STORE_2 < s.parent <= P_STORE_3 ==> s.start == 2)
    && (P_STORE_3 < s.parent <= P_POWER_OFF ==> s.start == 3 || s.start == 4)
    && (Frozen(s) ==> s.quiesced == 1)
  }

  /** From the store of `offline_baseline` on, progress is the baseline plus
      the increments made after the child read a 3. */
  predicate BaselineInv(s: State) {
    && (s.parent == P_STORE_BASELINE ==> s.x0 == s.progress)
    && (P_STORE_BASELINE < s.parent <= P_STORE_3 ==> s.baseline == s.progress)
    && (s.parent == P_FREEZE_BASELINE || s.parent == P_FREEZE_COMPARE ==> s.x0 == s.baseline)
    && (s.parent == P_FREEZE_COMPARE || s.parent == P_REENTRY_COMPARE ==> s.x2 == s.baseline)
    && (P_STORE_3 < s.parent <= P_POWER_OFF ==> s.progress == (s.baseline + s.after3) % 0x1_0000_0000)
    && (s.parent == P_REENTRY_BASELINE || s.parent == P_REENTRY_COMPARE ==> s.x0 == s.baseline || s.after3 == 1)
    && (s.parent == P_WRITE_DONE || s.parent == P_POWER_OFF ==> s.after3 == 1)
  }

  predicate Inv(s: State) { ChildInv(s) && ParentInv(s) && BaselineInv(s) }

  lemma InitInv()
    ensures Inv(Init())
  {
  }

  lemma ParentSetupKeepsInv(s: State, result: int, observed: u32)
    requires Inv(s) && s.parent <= P_STORE_1
    ensures Inv(ParentSetup(s, result, observed))
  {
  }

  lemma ParentOfflineKeepsInv(s: State, result: int)
    requires Inv(s) && P_STORE_1 < s.parent <= P_WAIT_QUIESCED
    ensures Inv(ParentOffline(s, result))
  {
  }

  lemma ParentFreezeKeepsInv(s: State, result: int)
    requires Inv(s) && P_WAIT_QUIESCED < s.parent <= P_STORE_3
    ensures Inv(ParentFreeze(s, result))
  {
  }

  lemma ParentReentryKeepsInv(s: State)
    requires Inv(s) && P_STORE_3 < s.parent
    ensures Inv(ParentReentry(s))
  {
  }

  lemma ChildSetupKeepsInv(s: State, result: int, observed: u32)
    requires Inv(s) && s.child <= C_STORE_READY
    ensures Inv(ChildSetup(s, result, observed))
  {
  }

  lemma ChildDispatchKeepsInv(s: State)
    requires Inv(s) && C_STORE_READY < s.child <= C_QUIESCE
    ensures Inv(ChildDispatch(s))
  {
  }

  lemma ChildReentryKeepsInv(s: State, result: int, observed: u32)
    requires Inv(s) && C_QUIESCE < s.child <= C_STORE_4
    ensures Inv(ChildReentry(s, result, observed))
  {
  }

  lemma ChildCountKeepsInv(s: State)
    requires Inv(s) && C_STORE_4 < s.child
    ensures Inv(ChildCount(s))
  {
  }

  lemma NextKeepsInv(s: State, i: Input)
    requires Inv(s)
    ensures Inv(Next(s, i))
  {
    hide ChildInv, ParentInv, BaselineInv;
    match i
    case Parent(result, observed) =>
      if s.parent <= P_STORE_1 {
        ParentSetupKeepsInv(s, result, observed);
      } else if s.parent <= P_WAIT_QUIESCED {
        ParentOfflineKeepsInv(s, result);
      } else if s.parent <= P_STORE_3 {
        ParentFreezeKeepsInv(s, result);
      } else {
        ParentReentryKeepsInv(s);
      }
    case Child(result, observed) =>
      if s.child <= C_STORE_READY {
        ChildSetupKeepsInv(s, result, observed);
      } else if s.child <= C_QUIESCE {
        ChildDispatchKeepsInv(s);
      } else if s.child <= C_STORE_4 {
        ChildReentryKeepsInv(s, result, observed);
      } else {
        ChildCountKeepsInv(s);
      }
  }

  lemma {:induction false} RunInv(inputs: seq<Input>)
    ensures Inv(Run(inputs))
  {
    hide Inv, Next;
    if inputs == [] {
      InitInv();
    } else {
      RunInv(inputs[..|inputs| - 1]);
      NextKeepsInv(Run(inputs[..|inputs| - 1]), inputs[|inputs| - 1]);
    }
  }

  // ----- what the program guarantees, over every run -----

  /** The freeze check never fails, whatever the interleaving and the kernel. */
  lemma NeverThawed(inputs: seq<Input>)
    ensures Run(inputs).parent != P_THAWED
  {
    RunInv(inputs);
  }

  /** While the parent holds CPU 1 offline no step of either CPU changes the
      progress word. */
  lemma FrozenStep(s: State, i: Input)
    requires Inv(s) && Frozen(s)
    ensures Next(s, i).progress == s.progress
  {
  }

  /** Over any stretch of a run in which the parent stays frozen, progress is
      the same at both ends. */
  lemma {:induction false} ProgressFrozen(inputs: seq<Input>, from: nat)
    requires from <= |inputs|
    requires forall k | from <= k < |inputs| :: Frozen(Run(inputs[..k]))
    ensures Run(inputs).progress == Run(inputs[..from]).progress
    decreases |inputs|
  {
    hide Inv, Next, Frozen;
    if from == |inputs| {
      assert inputs[..from] == inputs;
    } else {
      var init := inputs[..|inputs| - 1];
      forall k | from <= k < |init| ensures Frozen(Run(init[..k])) {
        assert init[..k] == inputs[..k];
      }
      ProgressFrozen(init, from);
      assert init[..from] == inputs[..from];
      RunInv(init);
      FrozenStep(Run(init), inputs[|inputs| - 1]);
    }
  }

  predicate StartMoves(s: State, t: State) {
    t.start == s.start || (t.start == s.start + 1 && s.start < 4)
  }

  lemma ParentStart(s: State, result: int, observed: u32)
    requires ParentInv(s)
    ensures s.parent <= P_STORE_1 ==> StartMoves(s, ParentSetup(s, result, observed))
    ensures P_STORE_1 < s.parent <= P_WAIT_QUIESCED ==> StartMoves(s, ParentOffline(s, result))
    ensures P_WAIT_QUIESCED < s.parent <= P_STORE_3 ==> StartMoves(s, ParentFreeze(s, result))
    ensures StartMoves(s, ParentReentry(s))
  {
  }

  lemma ChildStart(s: State, result: int, observed: u32)
    requires ChildInv(s)
    ensures StartMoves(s, ChildSetup(s, result, observed)) && StartMoves(s, ChildDispatch(s))
    ensures Reentering(s) ==> StartMoves(s, ChildReentry(s, result, observed))
    ensures StartMoves(s, ChildCount(s))
  {
  }

  /** `start` only ever moves up by one, from 0 to at most 4, although both
      CPUs write it. */
  lemma StartStep(s: State, i: Input)
    requires Inv(s)
    ensures StartMoves(s, Next(s, i))
  {
    hide ParentSetup, ParentOffline, ParentFreeze, ParentReentry, ChildSetup, ChildDispatch, ChildReentry, ChildCount,
         ChildInv, ParentInv, BaselineInv, StartMoves;
    ParentStart(s, i.result, i.observed);
    ChildStart(s, i.result, i.observed);
  }

  /** How often `start` changed along a run is its value: it takes every value
      up to that one exactly once, in order. */
  function StartChanges(inputs: seq<Input>): nat {
    if inputs == [] then 0 else
    var init := inputs[..|inputs| - 1];
    StartChanges(init) + if Run(inputs).start != Run(init).start then 1 else 0
  }

  lemma {:induction false} StartCountsUp(inputs: seq<Input>)
    ensures Run(inputs).start == StartChanges(inputs) <= 4
  {
    hide Inv, Next;
    RunInv(inputs);
    if inputs == [] {
    } else {
      var init := inputs[..|inputs| - 1];
      StartCountsUp(init);
      RunInv(init);
      StartStep(Run(init), inputs[|inputs| - 1]);
    }
    StartBound(Run(inputs));
  }

  lemma StartBound(s: State)
    requires Inv(s)
    ensures s.start <= 4
  {
  }

  /** After reading a 3 the child increments progress at most once, and has
      done so exactly when it has stored 4 and left the counting code, so only
      past its second affinity check. */
  lemma OneIncrementAfterThree(inputs: seq<Input>)
    ensures var s := Run(inputs);
            && s.after3 <= 1 && (s.after3 == 1 <==> s.start == 4 && !Counting(s))
            && (s.after3 == 1 ==> s.saw3 && s.recheck)
  {
    RunInv(inputs);
  }

  /** The markers appear in order, each at most once. */
  predicate OutputInv(s: State) {
    && (s.parent <= P_WRITE_READY ==> s.output == [])
    && (P_WRITE_READY < s.parent <= P_WRITE_OFF ==> s.output == [Ready])
    && (P_WRITE_OFF < s.parent <= P_WRITE_DONE ==> s.output == [Ready, Off])
    && (s.parent == P_POWER_OFF ==> s.output == [Ready, Off, Done])
    && (Failed(s) ==> s.output == [] || s.output == [Ready] || s.output == [Ready, Off])
  }

  lemma NextKeepsOutput(s: State, i: Input)
    requires OutputInv(s)
    ensures OutputInv(Next(s, i))
  {
    hide NextParent, NextChild;
    if i.Child? {
      ChildWritesNothing(s, i.result, i.observed);
    } else {
      ParentWrites(s, i.result, i.observed);
    }
  }

  /** The parent writes one marker at each of three points, and moves forward
      through the program or to failure. */
  lemma ParentWrites(s: State, result: int, observed: u32)
    ensures var s' := NextParent(s, result, observed);
            && (s.parent == P_WRITE_READY ==> s'.output == s.output + [Ready])
            && (s.parent == P_WRITE_OFF ==> s'.output == s.output + [Off])
            && (s.parent == P_WRITE_DONE ==> s'.output == s.output + [Done])
            && (s.parent != P_WRITE_READY && s.parent != P_WRITE_OFF && s.parent != P_WRITE_DONE ==>
                  s'.output == s.output)
            && (s'.parent == s.parent || s'.parent == s.parent + 1
                || s'.parent == P_FAILURE || s'.parent == P_THAWED
                || (s.parent == P_REENTRY_COMPARE && s'.parent == P_REENTRY_LOAD))
            && (s.parent == P_WRITE_READY || s.parent == P_WRITE_OFF || s.parent == P_WRITE_DONE ==>
                  s'.parent == s.parent + 1)
            && (s'.parent >= P_FAILURE && s.parent < P_FAILURE ==> s.parent < P_STORE_3)
  {
  }

  lemma ChildWritesNothing(s: State, result: int, observed: u32)
    ensures NextChild(s, result, observed).output == s.output
    ensures NextChild(s, result, observed).parent == s.parent
  {
  }

  lemma {:induction false} RunOutput(inputs: seq<Input>)
    ensures OutputInv(Run(inputs))
  {
    hide Next;
    if inputs != [] {
      RunOutput(inputs[..|inputs| - 1]);
      NextKeepsOutput(Run(inputs[..|inputs| - 1]), inputs[|inputs| - 1]);
    }
  }

  lemma DoneMeansPoweredOff(s: State)
    requires OutputInv(s) && Done in s.output
    ensures s.parent == P_POWER_OFF
  {
    assert Done !in [Ready] && Done !in [Ready, Off];
  }

  /** DONE is out only after the child passed its second CPU 1 check, stored 4
      and made exactly one increment past the frozen baseline. */
  lemma DoneOnlyAfterReentry(inputs: seq<Input>)
    requires Done in Run(inputs).output
    ensures var s := Run(inputs);
            && s.output == [Ready, Off, Done]
            && s.recheck && s.start == 4 && s.after3 == 1
            && s.progress == (s.baseline + 1) % 0x1_0000_0000
  {
    hide Run;
    RunInv(inputs);
    RunOutput(inputs);
    DoneMeansPoweredOff(Run(inputs));
  }

  /** What each marker stands for in the shared words, also after a failure. */
  predicate MarkerInv(s: State) {
    && (P_MOUNT <= s.parent <= P_POWER_OFF || s.output != [] ==> s.cpu0Observed == 0)
    && (s.child == C_STORE_4 || s.start == 4 ==> s.cpu1Observed == 1)
    && (|s.output| >= 2 ==> s.quiesced == 1 && s.progress == (s.baseline + s.after3) % 0x1_0000_0000)
  }

  lemma ParentKeepsMarkers(s: State, result: int, observed: u32)
    requires ParentInv(s) && BaselineInv(s) && ChildInv(s) && OutputInv(s) && MarkerInv(s)
    ensures s.parent <= P_STORE_1 ==> MarkerInv(ParentSetup(s, result, observed))
    ensures P_STORE_1 < s.parent <= P_WAIT_QUIESCED ==> MarkerInv(ParentOffline(s, result))
    ensures P_WAIT_QUIESCED < s.parent <= P_STORE_3 ==> MarkerInv(ParentFreeze(s, result))
    ensures P_STORE_3 < s.parent ==> MarkerInv(ParentReentry(s))
  {
  }

  lemma ChildKeepsMarkers(s: State, result: int, observed: u32)
    requires ChildInv(s) && MarkerInv(s)
    ensures s.child <= C_STORE_READY ==> MarkerInv(ChildSetup(s, result, observed))
    ensures C_STORE_READY < s.child <= C_QUIESCE ==> MarkerInv(ChildDispatch(s))
    ensures C_QUIESCE < s.child <= C_STORE_4 ==> MarkerInv(ChildReentry(s, result, observed))
    ensures C_STORE_4 < s.child ==> MarkerInv(ChildCount(s))
  {
  }

  lemma {:induction false} RunMarkers(inputs: seq<Input>)
    ensures MarkerInv(Run(inputs))
  {
    hide MarkerInv, ParentInv, ChildInv, BaselineInv, OutputInv, ParentSetup, ParentOffline, ParentFreeze,
         ParentReentry, ChildSetup, ChildDispatch, ChildReentry, ChildCount;
    if inputs == [] {
      NoMarkers(Init());
    } else {
      var init, i := inputs[..|inputs| - 1], inputs[|inputs| - 1];
      RunMarkers(init);
      RunInv(init);
      RunOutput(init);
      ParentKeepsMarkers(Run(init), i.result, i.observed);
      ChildKeepsMarkers(Run(init), i.result, i.observed);
    }
  }

  lemma NoMarkers(s: State)
    requires s.output == [] && s.parent == P_AFFINITY && s.child == C_UNBORN && s.start == 0
    ensures MarkerInv(s)
  {
  }
}
