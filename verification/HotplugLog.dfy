/** The calls of the hotplug program as emitted are those of its script. */
module HotplugLog {
  import opened Bytes
  import opened A64
  import opened Machine
  import opened Assembler
  import opened Syscalls
  import opened Layout
  import opened Blocks
  import opened Templates
  import opened SmpData
  import opened Duo
  import opened DuoOps
  import opened DuoCode
  import opened HotplugPieces
  import opened Calls
  import opened HotplugCalls
  import opened HotplugCode
  import opened HotplugTable
  import H = Hotplug

  // ----- how far a log has come -----

  /** Scripted and all successful. */
  predicate Good(w: Words, p: seq<Made>) {
    forall k | 0 <= k < |p| :: Scripted(w, p, k) && Succeeded(p, k)
  }

  /** Scripted, with a last call the parent cannot go on from. */
  predicate Broken(w: Words, p: seq<Made>, observed: word) {
    && |p| > 0 && Scripted(w, p, |p| - 1)
    && (forall k | 0 <= k < |p| - 1 :: Scripted(w, p, k) && Succeeded(p, k))
    && (!Succeeded(p, |p| - 1) || (|p| == 2 && observed != 0))
  }

  /** Calls made before each point of the parent. */
  function Due(a: H.State): int {
    if a.parent <= H.P_GETCPU then a.parent
    else if a.parent <= H.P_MOUNT then 2
    else if a.parent == H.P_CLONE then 3
    else if a.parent <= H.P_WRITE_READY then 4
    else if a.parent <= H.P_OFFLINE_CLOSE then a.parent - H.P_OFFLINE_OPEN + 5
    else if a.parent <= H.P_WRITE_OFF then 8
    else if a.parent == H.P_QUIESCENCE then YIELDS_TO - a.x5
    else if a.parent <= H.P_FREEZE_COMPARE then YIELDS_TO
    else if a.parent <= H.P_ONLINE_CLOSE then a.parent - H.P_ONLINE_OPEN + YIELDS_TO
    else if a.parent <= H.P_WRITE_DONE then YIELDS_TO + 3
    else YIELDS_TO + 4
  }

  /** The register that keeps the descriptor, and the count of the yields. */
  predicate Keeps(p: seq<Made>, a: H.State, d: Cpu)
    requires d.Valid()
  {
    if a.parent == H.P_OFFLINE_WRITE then |p| > 5 && d.x[6] == p[5].result
    else if a.parent == H.P_OFFLINE_CLOSE then |p| > 5 && d.x[0] == p[5].result
    else if a.parent == H.P_ONLINE_WRITE then |p| > YIELDS_TO && d.x[6] == p[YIELDS_TO].result
    else if a.parent == H.P_ONLINE_CLOSE then |p| > YIELDS_TO && d.x[0] == p[YIELDS_TO].result
    else a.parent == H.P_QUIESCENCE ==> 1 <= a.x5 <= 4095
  }

  /** The parent's calls so far, on its way to `d`. */
  predicate ParentCalls(v: World, p: seq<Made>, a: H.State, d: Cpu)
    requires v.Named() && Names(v.w.ops, v.w.a)
  {
    && d.Valid()
    && if a.parent < H.P_POWER_OFF then Good(v.Addresses(), p) && |p| == Due(a) && Keeps(p, a, d)
       else if a.parent == H.P_POWER_OFF then
         Good(v.Addresses(), p) && |p| == Due(a) + (if v.w.Here(d, 146) then 1 else 0)
       else if v.w.Here(d, 223) then |p| > 0 && ParentLogTo(v.Addresses(), p, |p| - 1)
       else Broken(v.Addresses(), p, a.cpu0Observed)
  }

  lemma ParentCallsLog(v: World, p: seq<Made>, a: H.State, d: Cpu)
    requires v.Named() && Names(v.w.ops, v.w.a) && ParentCalls(v, p, a, d)
    ensures ParentLog(v.Addresses(), p)
  {
    hide Scripted, Succeeded, Names;
    if a.parent > H.P_POWER_OFF && v.w.Here(d, 223) {
      assert ParentLogTo(v.Addresses(), p, |p| - 1);
    } else {
      assert ParentLogTo(v.Addresses(), p, |p|);
    }
  }

  lemma ScriptedMore(w: Words, p: seq<Made>, m: Made, k: nat)
    requires k < |p|
    ensures Scripted(w, p + [m], k) == Scripted(w, p, k) && Succeeded(p + [m], k) == Succeeded(p, k)
  {
    hide SetsAffinity, GetsCpu, Mounts, Clones, Writes, Opens, Closes, Yields, PowersOff, Found;
    assert (p + [m])[k] == p[k];
  }

  lemma Extends(w: Words, p: seq<Made>, m: Made, observed: word)
    requires Good(w, p) && Scripted(w, p + [m], |p|)
    ensures Succeeded(p + [m], |p|) ==> Good(w, p + [m])
    ensures !Succeeded(p + [m], |p|) ==> Broken(w, p + [m], observed)
  {
    hide Scripted, Succeeded;
    forall k | 0 <= k < |p|
      ensures Scripted(w, p + [m], k) == Scripted(w, p, k) && Succeeded(p + [m], k) == Succeeded(p, k)
    {
      ScriptedMore(w, p, m, k);
    }
  }

  lemma ExitExtends(w: Words, p: seq<Made>, m: Made, observed: word)
    requires Broken(w, p, observed) && Exits(m) && Found(m, w.observed0, observed)
    ensures ParentLogTo(w, p + [m], |p|)
  {
    hide Scripted, Succeeded;
    forall k | 0 <= k < |p|
      ensures Scripted(w, p + [m], k) == Scripted(w, p, k) && Succeeded(p + [m], k) == Succeeded(p, k)
    {
      ScriptedMore(w, p, m, k);
    }
  }

  // ----- what each call is -----

  /** The facts a call can rely on. */
  ghost predicate Ready(v: World, mem: Memory, a: H.State) {
    && v.Named() && Constants(v, mem)
    && Word(v.w, mem, Cpu0Observed(), a.cpu0Observed) && Word(v.w, mem, Cpu1Observed(), a.cpu1Observed)
    && Word(v.w, mem, Start(), a.start)
  }

  lemma SetupCall(v: World, mem: Memory, a: H.State, p: seq<Made>, c: Cpu, r: u64)
    requires Names(v.w.ops, v.w.a) && Ready(v, mem, a) && H.MarkerInv(a) && c.Valid() && ParentAt(v, c, a)
    requires a.parent <= H.P_MOUNT && a.parent != H.P_CHECK_CPU && |p| == Due(a)
    ensures Scripted(v.Addresses(), p + [MadeBy(First, c, mem, r)], |p|)
  {
    hide Holds, Load32, Names, CpuAt;
  }

  lemma CloneCall(v: World, mem: Memory, a: H.State, p: seq<Made>, c: Cpu, r: u64)
    requires Names(v.w.ops, v.w.a) && Ready(v, mem, a) && c.Valid() && ParentAt(v, c, a) && a.parent == H.P_CLONE
    requires |p| == Due(a) && v.w.a["child_stack"] % 16 == 0
    ensures Scripted(v.Addresses(), p + [MadeBy(First, c, mem, r)], |p|)
  {
    hide Holds, Load32, Names, CpuAt;
  }

  lemma OfflineCall(v: World, mem: Memory, a: H.State, p: seq<Made>, c: Cpu, r: u64)
    requires Names(v.w.ops, v.w.a) && Ready(v, mem, a) && c.Valid() && ParentAt(v, c, a) && a.start == 1
    requires H.P_WRITE_READY <= a.parent <= H.P_OFFLINE_CLOSE && |p| == Due(a) && Keeps(p, a, c)
    ensures Scripted(v.Addresses(), p + [MadeBy(First, c, mem, r)], |p|)
  {
    hide Holds, Load32, Names, CpuAt;
  }

  lemma FreezeCall(v: World, mem: Memory, a: H.State, p: seq<Made>, c: Cpu, r: u64)
    requires Names(v.w.ops, v.w.a) && Ready(v, mem, a) && c.Valid() && ParentAt(v, c, a) && a.start == 2
    requires (a.parent == H.P_WRITE_OFF || a.parent == H.P_QUIESCENCE) && |p| == Due(a) && Keeps(p, a, c)
    ensures Scripted(v.Addresses(), p + [MadeBy(First, c, mem, r)], |p|)
  {
    hide Holds, Load32, Names, CpuAt;
  }

  lemma OnlineCall(v: World, mem: Memory, a: H.State, p: seq<Made>, c: Cpu, r: u64)
    requires Names(v.w.ops, v.w.a) && Ready(v, mem, a) && c.Valid() && ParentAt(v, c, a) && a.start == 2
    requires H.P_ONLINE_OPEN <= a.parent <= H.P_ONLINE_CLOSE && |p| == Due(a) && Keeps(p, a, c)
    ensures Scripted(v.Addresses(), p + [MadeBy(First, c, mem, r)], |p|)
  {
    hide Holds, Load32, Names, CpuAt;
  }

  lemma DoneCall(v: World, mem: Memory, a: H.State, p: seq<Made>, c: Cpu, r: u64)
    requires Names(v.w.ops, v.w.a) && Ready(v, mem, a) && c.Valid() && ParentAt(v, c, a) && a.start == 4
    requires a.parent == H.P_WRITE_DONE && |p| == Due(a)
    ensures Scripted(v.Addresses(), p + [MadeBy(First, c, mem, r)], |p|)
  {
    hide Holds, Load32, Names, CpuAt;
  }

  lemma PowerCall(v: World, mem: Memory, a: H.State, p: seq<Made>, c: Cpu, r: u64)
    requires Names(v.w.ops, v.w.a) && v.Named() && c.Valid() && PowerGiven(v.w, 140, c) && !v.w.Here(c, 146)
    requires |p| == YIELDS_TO + 4
    ensures Scripted(v.Addresses(), p + [MadeBy(First, c, mem, r)], |p|)
  {
    hide Holds, Load32, Names, CpuAt;
  }

  // ----- one step of the parent -----

  /** A call on the way through the program. */
  lemma CallsGrow(v: World, p: seq<Made>, m: Made, a: H.State, b: H.State, c: Cpu, e: Cpu, d: Cpu)
    requires v.Named() && Names(v.w.ops, v.w.a) && ParentCalls(v, p, a, c) && IsCall(a.parent) && a.parent != H.P_CLONE
    requires Scripted(v.Addresses(), p + [m], |p|) && Told(v, a, b, c, e, d) && JustFailed(v, a, b, d)
    requires ParentAt(v, c, a) && ParentAt(v, d, b) && m.result == e.x[0]
    requires Failing(v.w.ops, 219) && PoweringOff(v.w.ops, 140)
    ensures ParentCalls(v, p + [m], b, d)
  {
    hide Scripted, Good, Broken, Names, CpuAt, World.Addresses, MovImm;
    Extends(v.Addresses(), p, m, b.cpu0Observed);
    if b.parent >= H.P_FAILURE {
      NotPast(v.w, 222, d);
    } else if b.parent == H.P_POWER_OFF {
      NotPast(v.w, 145, d);
    }
  }

  /** An access that is no call. */
  lemma CallsKept(v: World, p: seq<Made>, a: H.State, b: H.State, c: Cpu, e: Cpu, d: Cpu)
    requires v.Named() && Names(v.w.ops, v.w.a) && ParentCalls(v, p, a, c) && a.parent < H.P_POWER_OFF
    requires !IsCall(a.parent) && Told(v, a, b, c, e, d) && JustFailed(v, a, b, d) && b.parent != H.P_THAWED
    requires ParentAt(v, c, a) && Failing(v.w.ops, 219)
    ensures ParentCalls(v, p, b, d)
  {
    hide Scripted, Names, CpuAt, World.Addresses;
    if b.parent >= H.P_FAILURE {
      NotPast(v.w, 222, d);
    }
  }

  /** The last calls. */
  lemma CallsEnd(v: World, p: seq<Made>, m: Made, a: H.State, b: H.State, c: Cpu, e: Cpu, d: Cpu)
    requires v.Named() && Names(v.w.ops, v.w.a) && ParentCalls(v, p, a, c) && a.parent >= H.P_POWER_OFF
    requires Told(v, a, b, c, e, d)
    requires a.parent == H.P_POWER_OFF ==> Scripted(v.Addresses(), p + [m], |p|) && !v.w.Here(c, 146)
    requires a.parent > H.P_POWER_OFF ==>
               Exits(m) && Found(m, v.Addresses().observed0, a.cpu0Observed) && !v.w.Here(c, 223)
    ensures ParentCalls(v, p + [m], b, d)
  {
    hide Scripted, Good, Broken, Names, CpuAt, World.Addresses, Exits, Found, ParentLogTo;
    if a.parent == H.P_POWER_OFF {
      Extends(v.Addresses(), p, m, b.cpu0Observed);
      assert Succeeded(p + [m], |p|);
    } else {
      ExitExtends(v.Addresses(), p, m, a.cpu0Observed);
    }
  }

  lemma EndKept(v: World, p: seq<Made>, a: H.State, b: H.State, c: Cpu, e: Cpu, d: Cpu)
    requires v.Named() && Names(v.w.ops, v.w.a) && ParentCalls(v, p, a, c) && Told(v, a, b, c, e, d)
    requires (a.parent == H.P_POWER_OFF && v.w.Here(c, 146)) || (a.parent > H.P_POWER_OFF && v.w.Here(c, 223))
    ensures ParentCalls(v, p, b, d)
  {
    hide Good, Broken, Names, CpuAt, World.Addresses, ParentLogTo;
  }

  /** What memory shows when a call is made. */
  lemma CallsFind(v: World, s: Pair, a: H.State)
    requires v.Ok() && v.Shows(s, a)
    ensures Ready(v, s.mem, a)
  {
    hide World.Shows, Constants, Word;
    SharedWords(v, s, a);
    TextsHeld(v, s, a);
  }

  /** Which call it is. */
  lemma CallIs(v: World, mem: Memory, a: H.State, p: seq<Made>, c: Cpu, r: u64)
    requires Names(v.w.ops, v.w.a) && Ready(v, mem, a) && H.Inv(a) && H.MarkerInv(a) && c.Valid() && ParentAt(v, c, a)
    requires IsCall(a.parent) && a.parent != H.P_CLONE && |p| == Due(a) && Keeps(p, a, c)
    ensures Scripted(v.Addresses(), p + [MadeBy(First, c, mem, r)], |p|)
  {
    hide Scripted, Ready, ParentAt, Keeps, World.Addresses, Names, MadeBy, H.MarkerInv;
    StartWord(a);
    if a.parent <= H.P_MOUNT {
      SetupCall(v, mem, a, p, c, r);
    } else if a.parent <= H.P_OFFLINE_CLOSE {
      OfflineCall(v, mem, a, p, c, r);
    } else if a.parent <= H.P_QUIESCENCE {
      FreezeCall(v, mem, a, p, c, r);
    } else if a.parent <= H.P_ONLINE_CLOSE {
      OnlineCall(v, mem, a, p, c, r);
    } else {
      DoneCall(v, mem, a, p, c, r);
    }
  }

  /** The start word at the parent's calls. */
  lemma StartWord(a: H.State)
    requires H.Inv(a)
    ensures H.P_STORE_1 < a.parent <= H.P_STORE_2 ==> a.start == 1
    ensures H.P_STORE_2 < a.parent <= H.P_STORE_3 ==> a.start == 2
    ensures a.parent == H.P_WRITE_DONE ==> a.start == 4
    ensures a.parent != H.P_THAWED
  {
  }

  lemma ParentCallsStep(v: World, s: Pair, a: H.State, b: H.State, e: Cpu, d: Cpu)
    requires v.Ok() && s.Pair? && v.Shows(s, a) && H.Inv(a) && H.MarkerInv(a) && H.Inv(b)
    requires ParentMoves(v, s, a, b, e, d) && ParentAt(v, s.first, a) && a.parent != H.P_CLONE
    requires ParentCalls(v, By(s.log, First), a, s.first)
    requires Failing(v.w.ops, 219) && PoweringOff(v.w.ops, 140)
    ensures ParentCalls(v, By(v.w.Next(s, First).log, First), b, d)
  {
    hide Scripted, Ready, ParentAt, Good, Broken, World.Shows, World.Ok, Names, World.Addresses, H.Inv, H.MarkerInv,
         Told,
         JustFailed, Failing, PoweringOff, PairStep, Prog, ParentLogTo, Comes;
    v.Means();
    var p, c, t := By(s.log, First), s.first, v.w.Next(s, First);
    ToldValid(v, a, b, c, e, d);
    var m := MadeBy(First, c, s.mem, e.x[0]);
    CallsFind(v, s, a);
    StartWord(b);
    if IsCall(a.parent) {
      CallIs(v, s.mem, a, p, c, e.x[0]);
      ByAppend(s.log, m, First);
      CallsGrow(v, p, m, a, b, c, e, d);
    } else if a.parent < H.P_POWER_OFF {
      CallsKept(v, p, a, b, c, e, d);
    } else if (a.parent == H.P_POWER_OFF && v.w.Here(c, 146)) || (a.parent > H.P_POWER_OFF && v.w.Here(c, 223)) {
      EndKept(v, p, a, b, c, e, d);
    } else {
      EndIs(v, s.mem, a, p, c, e.x[0]);
      ByAppend(s.log, m, First);
      CallsEnd(v, p, m, a, b, c, e, d);
    }
  }

  lemma ToldValid(v: World, a: H.State, b: H.State, c: Cpu, e: Cpu, d: Cpu)
    requires Names(v.w.ops, v.w.a) && Told(v, a, b, c, e, d)
    ensures c.Valid() && e.Valid() && d.Valid()
  {
  }

  lemma EndIs(v: World, mem: Memory, a: H.State, p: seq<Made>, c: Cpu, r: u64)
    requires Names(v.w.ops, v.w.a) && Ready(v, mem, a) && c.Valid() && ParentAt(v, c, a) && ParentCalls(v, p, a, c)
    requires (a.parent == H.P_POWER_OFF && !v.w.Here(c, 146)) || (a.parent > H.P_POWER_OFF && !v.w.Here(c, 223))
    ensures a.parent == H.P_POWER_OFF ==> Scripted(v.Addresses(), p + [MadeBy(First, c, mem, r)], |p|)
    ensures a.parent > H.P_POWER_OFF ==> Exits(MadeBy(First, c, mem, r))
    ensures Found(MadeBy(First, c, mem, r), v.Addresses().observed0, a.cpu0Observed)
  {
    hide Scripted, Good, Broken, Names, CpuAt, Holds, Load32;
    if a.parent == H.P_POWER_OFF {
      PowerCall(v, mem, a, p, c, r);
    }
  }

  /** The clone. */
  lemma CloneCallsStep(v: World, s: Pair, a: H.State, b: H.State, e: Cpu, d: Cpu)
    requires v.Ok() && s.Pair? && v.Shows(s, a) && ParentAt(v, s.first, a) && a.parent == H.P_CLONE
    requires ParentCalls(v, By(s.log, First), a, s.first) && Logged(s, First, e, v.w.Next(s, First)) && d.Valid()
    requires b.parent == H.Checked(e.x[0] < SIGN, H.P_WAIT_READY) && (e.x[0] >= SIGN ==> Quitting(v.w, 219, d))
    requires Failing(v.w.ops, 219)
    ensures ParentCalls(v, By(v.w.Next(s, First).log, First), b, d)
  {
    hide Scripted, Good, Broken, World.Shows, Names, CpuAt, World.Addresses, PairStep, Prog, Ready, Laid;
    v.Means();
    var p, c := By(s.log, First), s.first;
    var m := MadeBy(First, c, s.mem, e.x[0]);
    CallsFind(v, s, a);
    CloneCall(v, s.mem, a, p, c, e.x[0]);
    ByAppend(s.log, m, First);
    Extends(v.Addresses(), p, m, b.cpu0Observed);
    if e.x[0] >= SIGN {
      NotPast(v.w, 222, d);
    }
  }

  // ----- the child -----

  predicate ChildGood(w: Words, r: seq<Made>) {
    forall k | 0 <= k < |r| :: ChildScripted(w, r[k], k) && r[k].result == 0
  }

  predicate ChildBroken(w: Words, r: seq<Made>, observed: word) {
    && |r| > 0 && ChildScripted(w, r[|r| - 1], |r| - 1)
    && (forall k | 0 <= k < |r| - 1 :: ChildScripted(w, r[k], k) && r[k].result == 0)
    && (r[|r| - 1].result != 0 || (|r| % 2 == 0 && observed != 1))
  }

  /** Calls other than yields made before each point of the child. */
  function ChildDue(a: H.State): nat {
    if a.child <= H.C_AFFINITY then 0
    else if a.child == H.C_GETCPU then 1
    else if a.child <= H.C_STORE_READY then 2
    else if Resting(a.child) then if a.saw3 then 4 else 2
    else if a.child == H.C_RE_AFFINITY then 2
    else if a.child == H.C_RE_GETCPU then 3
    else 4
  }

  predicate ChildCalls(v: World, q: seq<Made>, a: H.State, d: Cpu)
    requires v.Named() && Names(v.w.ops, v.w.a)
  {
    var r := WithoutYields(q);
    && d.Valid()
    && if a.child < H.C_FAILURE then ChildGood(v.Addresses(), r) && |r| == ChildDue(a)
       else if v.w.Here(d, 223) then |r| > 0 && ChildLogTo(v.Addresses(), r, |r| - 1)
       else ChildBroken(v.Addresses(), r, a.cpu1Observed)
  }

  lemma ChildCallsLog(v: World, q: seq<Made>, a: H.State, d: Cpu)
    requires v.Named() && Names(v.w.ops, v.w.a) && ChildCalls(v, q, a, d)
    ensures ChildLog(v.Addresses(), q)
  {
    hide ChildScripted, Names;
    var r := WithoutYields(q);
    if a.child >= H.C_FAILURE && v.w.Here(d, 223) {
      assert ChildLogTo(v.Addresses(), r, |r| - 1);
    } else {
      assert ChildLogTo(v.Addresses(), r, |r|);
    }
  }

  lemma WithoutMore(q: seq<Made>, m: Made)
    ensures WithoutYields(q + [m]) == if Yields(m) then WithoutYields(q) else WithoutYields(q) + [m]
  {
    assert (q + [m])[..|q|] == q;
  }

  lemma ChildExtends(w: Words, r: seq<Made>, m: Made, observed: word)
    requires ChildGood(w, r) && ChildScripted(w, m, |r|)
    ensures m.result == 0 ==> ChildGood(w, r + [m])
    ensures m.result != 0 ==> ChildBroken(w, r + [m], observed)
  {
    hide ChildScripted;
  }

  lemma ChildExitExtends(w: Words, r: seq<Made>, m: Made, observed: word)
    requires ChildBroken(w, r, observed) && Exits(m) && Found(m, w.observed1, observed)
    ensures ChildLogTo(w, r + [m], |r|)
  {
    hide ChildScripted;
  }

  /** Which call the child makes. */
  lemma ChildCallIs(v: World, mem: Memory, a: H.State, c: Cpu, result: u64)
    requires Names(v.w.ops, v.w.a) && Ready(v, mem, a) && c.Valid() && ChildAt(v, c, a)
    ensures var m := MadeBy(Second, c, mem, result);
            && (a.child == H.C_AFFINITY || a.child == H.C_RE_AFFINITY ==> SetsAffinity(m, MASK1))
            && (a.child == H.C_GETCPU || a.child == H.C_RE_GETCPU ==> GetsCpu(m, v.Addresses().observed1))
            && (ChildAsks(a.child) ==> !Yields(m))
            && (a.child == H.C_DISPATCH && !Facing(v, c, 171, Start()) ==> Yields(m))
            && (a.child == H.C_FAILURE && !v.w.Here(c, 223) ==> Exits(m))
            && Found(m, v.Addresses().observed1, a.cpu1Observed)
  {
    hide Holds, Load32, Names, CpuAt;
  }

  predicate ChildAsks(child: nat) {
    child == H.C_AFFINITY || child == H.C_GETCPU || child == H.C_RE_AFFINITY || child == H.C_RE_GETCPU
  }

  /** A call other than a yield. */
  lemma ChildGrow(v: World, q: seq<Made>, m: Made, a: H.State, b: H.State, c: Cpu, e: Cpu, d: Cpu)
    requires v.Named() && Names(v.w.ops, v.w.a) && ChildCalls(v, q, a, c) && ChildAsks(a.child) && !Yields(m)
    requires ChildScripted(v.Addresses(), m, ChildDue(a)) && ChildTold(v, a, b, e, d) && m.result == e.x[0]
    requires Failing(v.w.ops, 219)
    ensures ChildCalls(v, q + [m], b, d)
  {
    hide ChildScripted, ChildGood, ChildBroken, Names, CpuAt, World.Addresses, WithoutYields, Yields;
    WithoutMore(q, m);
    ChildExtends(v.Addresses(), WithoutYields(q), m, b.cpu1Observed);
    if b.child == H.C_FAILURE {
      NotPast(v.w, 222, d);
    }
  }

  /** A yield, or an access that is no call. */
  lemma ChildKept(v: World, q: seq<Made>, a: H.State, b: H.State, c: Cpu, e: Cpu, d: Cpu)
    requires v.Named() && Names(v.w.ops, v.w.a) && ChildCalls(v, q, a, c) && H.C_UNBORN < a.child
    requires a.child < H.C_FAILURE
    requires !ChildAsks(a.child) && ChildTold(v, a, b, e, d) && H.Inv(a) && a.child != H.C_DECIDE
    requires Failing(v.w.ops, 219)
    ensures ChildCalls(v, q, b, d)
  {
    hide ChildScripted, Names, CpuAt, World.Addresses, WithoutYields, H.Inv;
    OnceMore(a);
    if b.child == H.C_FAILURE {
      NotPast(v.w, 222, d);
    }
  }

  lemma ChildEnd(v: World, q: seq<Made>, m: Made, a: H.State, b: H.State, c: Cpu, e: Cpu, d: Cpu)
    requires v.Named() && Names(v.w.ops, v.w.a) && ChildCalls(v, q, a, c) && a.child == H.C_FAILURE
    requires ChildTold(v, a, b, e, d) && !v.w.Here(c, 223) && Exits(m)
    requires Found(m, v.Addresses().observed1, a.cpu1Observed)
    ensures ChildCalls(v, q + [m], b, d)
  {
    hide ChildBroken, ChildLogTo, Names, CpuAt, World.Addresses, WithoutYields, Found;
    WithoutMore(q, m);
    ChildExitExtends(v.Addresses(), WithoutYields(q), m, a.cpu1Observed);
  }

  lemma ChildEndKept(v: World, q: seq<Made>, a: H.State, b: H.State, c: Cpu, e: Cpu, d: Cpu)
    requires v.Named() && Names(v.w.ops, v.w.a) && ChildCalls(v, q, a, c) && a.child == H.C_FAILURE
    requires ChildTold(v, a, b, e, d) && v.w.Here(c, 223)
    ensures ChildCalls(v, q, b, d)
  {
    hide ChildLogTo, Names, CpuAt, World.Addresses, WithoutYields;
  }

  lemma ChildCallsStep(v: World, s: Pair, a: H.State, b: H.State, e: Cpu, d: Cpu)
    requires v.Ok() && s.Pair? && v.Shows(s, a) && H.Inv(a) && s.second.Some?
    requires ChildMoves(v, s, a, b, e, d) && ChildAt(v, s.second.value, a)
    requires ChildCalls(v, By(s.log, Second), a, s.second.value) && Failing(v.w.ops, 219)
    ensures ChildCalls(v, By(v.w.Next(s, Second).log, Second), b, d)
  {
    hide Ready, ChildAt, ChildCalls, World.Shows, World.Ok, Names, World.Addresses, H.Inv, ChildTold, By,
         Failing, PairStep, Prog, Comes, Facing, CpuAt, Found, SetsAffinity, GetsCpu, WithoutYields;
    v.Means();
    var q, c := By(s.log, Second), s.second.value;
    ChildPlaces(v, c, a);
    ChildValid(v, a, b, e, d);
    var m := MadeBy(Second, c, s.mem, e.x[0]);
    CallsFind(v, s, a);
    ByAppend(s.log, m, Second);
    ChildCallIs(v, s.mem, a, c, e.x[0]);
    if ChildAsks(a.child) {
      ChildGrow(v, q, m, a, b, c, e, d);
    } else if a.child < H.C_FAILURE {
      ChildKept(v, q, a, b, c, e, d);
      if a.child == H.C_DISPATCH && !Facing(v, c, 171, Start()) {
        YieldKept(v, q, m, b, d);
      }
    } else if v.w.Here(c, 223) {
      ChildEndKept(v, q, a, b, c, e, d);
    } else {
      ChildEnd(v, q, m, a, b, c, e, d);
    }
  }

  lemma YieldKept(v: World, q: seq<Made>, m: Made, b: H.State, d: Cpu)
    requires v.Named() && Names(v.w.ops, v.w.a) && ChildCalls(v, q, b, d) && Yields(m)
    ensures ChildCalls(v, q + [m], b, d)
  {
    hide ChildGood, ChildBroken, ChildLogTo, Names, CpuAt, World.Addresses, WithoutYields, Yields;
    WithoutMore(q, m);
  }

  lemma ChildPlaces(v: World, c: Cpu, a: H.State)
    requires Names(v.w.ops, v.w.a) && ChildAt(v, c, a)
    ensures c.Valid() && H.C_UNBORN < a.child <= H.C_FAILURE && a.child != H.C_DECIDE
  {
    hide Names, CpuAt;
  }

  lemma ChildValid(v: World, a: H.State, b: H.State, e: Cpu, d: Cpu)
    requires Names(v.w.ops, v.w.a) && ChildTold(v, a, b, e, d)
    ensures e.Valid() && d.Valid()
  {
  }

  /** The child re-enters once. */
  lemma OnceMore(a: H.State)
    requires H.Inv(a)
    ensures a.start == 3 && a.child == H.C_DISPATCH ==> !a.saw3
    ensures a.child == H.C_STORE_4 ==> a.saw3
    ensures a.child <= H.C_STORE_READY ==> !a.saw3
  {
  }
}
