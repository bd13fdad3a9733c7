/** The calls of the progress program as emitted are those of its script. */
module ProgressLog {
  import opened Bytes
  import opened A64
  import opened Machine
  import opened Assembler
  import opened Syscalls
  import opened Layout
  import opened Blocks
  import opened Templates
  import opened SmpData
  import opened Duo
  import opened DuoOps
  import opened DuoCode
  import opened Calls
  import opened ProgressCalls
  import opened ProgressCode
  import P = Progress

  // ----- how far a log has come -----

  /** Scripted and all successful. */
  predicate Good(w: Words, who: Who, p: seq<Made>) {
    forall k | 0 <= k < |p| :: AsScripted(w, who, p[k], k) && Succeeded(who, p[k], k)
  }

  /** Scripted, with a last call its CPU cannot go on from. */
  predicate Broken(w: Words, who: Who, p: seq<Made>, observed: word) {
    && |p| > 0 && AsScripted(w, who, p[|p| - 1], |p| - 1)
    && (forall k | 0 <= k < |p| - 1 :: AsScripted(w, who, p[k], k) && Succeeded(who, p[k], k))
    && (!Succeeded(who, p[|p| - 1], |p| - 1) || (|p| == 2 && observed != Expected(who)))
  }

  /** Calls made before each point of the parent. */
  predicate Due(parent: nat, n: nat) {
    if parent <= P.P_GETCPU then n == parent
    else if parent <= P.P_CLONE then n == 2
    else if parent <= P.P_WRITE_READY then n == 3
    else if parent == P.P_STORE_START then n == 4
    else n >= 4 && (n - 4) % 3 == parent - P.P_TOKEN
  }

  predicate ChildDue(child: nat, n: nat) {
    if child <= P.C_AFFINITY then n == 0
    else if child == P.C_GETCPU then n == 1
    else if child <= P.C_WAIT_START then n == 2
    else n >= 2 && (n - 2) % 3 == child - P.C_TOKEN
  }

  /** A CPU's calls so far, on its way to `d`. */
  predicate CallsSoFar(v: World, who: Who, p: seq<Made>, failed: bool, observed: word, d: Cpu)
    requires v.Named() && Names(v.w.ops, v.w.a)
  {
    && d.Valid()
    && if !failed then Good(v.Addresses(), who, p)
       else if v.w.Here(d, 98) then |p| > 0 && CallLogTo(v.Addresses(), who, p, |p| - 1)
       else Broken(v.Addresses(), who, p, observed)
  }

  predicate ParentCalls(v: World, p: seq<Made>, a: P.State, d: Cpu)
    requires v.Named() && Names(v.w.ops, v.w.a)
  {
    && CallsSoFar(v, First, p, a.parent == P.P_FAILURE, a.cpu0Observed, d)
    && (a.parent != P.P_FAILURE ==> Due(a.parent, |p|))
  }

  predicate ChildCalls(v: World, q: seq<Made>, a: P.State, d: Cpu)
    requires v.Named() && Names(v.w.ops, v.w.a)
  {
    && CallsSoFar(v, Second, q, a.child == P.C_FAILURE, a.cpu1Observed, d)
    && (a.child != P.C_FAILURE ==> ChildDue(a.child, |q|))
  }

  lemma CallsLog(v: World, who: Who, p: seq<Made>, failed: bool, observed: word, d: Cpu)
    requires v.Named() && Names(v.w.ops, v.w.a) && CallsSoFar(v, who, p, failed, observed, d)
    ensures CallLog(v.Addresses(), who, p)
  {
    hide AsScripted, Succeeded, Names;
    if failed && v.w.Here(d, 98) {
      assert CallLogTo(v.Addresses(), who, p, |p| - 1);
    } else {
      assert CallLogTo(v.Addresses(), who, p, |p|);
    }
  }

  lemma Extends(w: Words, who: Who, p: seq<Made>, m: Made, observed: word)
    requires Good(w, who, p) && AsScripted(w, who, m, |p|)
    ensures Succeeded(who, m, |p|) ==> Good(w, who, p + [m])
    ensures !Succeeded(who, m, |p|) ==> Broken(w, who, p + [m], observed)
  {
    hide AsScripted, Succeeded;
  }

  lemma ExitExtends(w: Words, who: Who, p: seq<Made>, m: Made, observed: word)
    requires Broken(w, who, p, observed) && Exits(m) && Found(m, Observed(w, who), observed)
    ensures CallLogTo(w, who, p + [m], |p|)
  {
    hide AsScripted, Succeeded;
  }

  // ----- what each call is -----

  /** The facts a call can rely on. */
  ghost predicate Ready(v: World, mem: Memory, a: P.State) {
    && v.Named() && Constants(v, mem) && v.w.a["child_stack"] % 16 == 0
    && Word(v.w, mem, Cpu0Observed(), a.cpu0Observed) && Word(v.w, mem, Cpu1Observed(), a.cpu1Observed)
    && Word(v.w, mem, Cpu1Ready(), a.ready) && Word(v.w, mem, Start(), a.start)
  }

  lemma CallsFind(v: World, s: Pair, a: P.State)
    requires v.Ok() && v.Shows(s, a)
    ensures Ready(v, s.mem, a)
  {
    hide World.Shows, Constants, Word, Laid;
    SharedWords(v, s, a);
    TextsHeld(v, s, a);
  }

  lemma ParentCall(v: World, mem: Memory, a: P.State, n: nat, c: Cpu, r: u64)
    requires v.Named() && Names(v.w.ops, v.w.a) && Ready(v, mem, a) && P.Inv(a) && ParentAt(v, c, a)
    requires ParentAsks(a.parent) && Due(a.parent, n)
    ensures c.Valid() && Scripted(v.Addresses(), MadeBy(First, c, mem, r), n)
  {
    hide Holds, Load32, Names, CpuAt, P.ReadyFirst;
  }

  lemma ChildCall(v: World, mem: Memory, a: P.State, n: nat, c: Cpu, r: u64)
    requires v.Named() && Names(v.w.ops, v.w.a) && Ready(v, mem, a) && P.Inv(a) && ChildAt(v, c, a)
    requires ChildAsks(a.child) && ChildDue(a.child, n)
    ensures c.Valid() && ChildScripted(v.Addresses(), MadeBy(Second, c, mem, r), n)
  {
    hide Holds, Load32, Names, CpuAt, P.ReadyFirst;
  }

  lemma ExitCall(v: World, mem: Memory, a: P.State, who: Who, c: Cpu, r: u64)
    requires v.Named() && Names(v.w.ops, v.w.a) && Ready(v, mem, a) && Leaving(v.w, 94, c) && !v.w.Here(c, 98)
    ensures c.Valid() && Exits(MadeBy(who, c, mem, r))
    ensures Found(MadeBy(who, c, mem, r), Observed(v.Addresses(), who),
                  if who.First? then a.cpu0Observed else a.cpu1Observed)
  {
    hide Holds, Load32, Names, CpuAt;
  }

  // ----- one step -----

  lemma ParentGrow(v: World, p: seq<Made>, m: Made, a: P.State, b: P.State, c: Cpu, e: Cpu, d: Cpu)
    requires v.Named() && Names(v.w.ops, v.w.a) && ParentCalls(v, p, a, c) && ParentAsks(a.parent)
    requires a.parent != P.P_CLONE
    requires Scripted(v.Addresses(), m, |p|) && Told(v, a, b, e, d) && m.result == e.x[0] && Failing(v.w.ops, 94)
    ensures ParentCalls(v, p + [m], b, d)
  {
    hide Scripted, Good, Broken, Names, CpuAt, World.Addresses;
    Extends(v.Addresses(), First, p, m, b.cpu0Observed);
    if b.parent == P.P_FAILURE {
      NotPast(v.w, 97, d);
    }
  }

  lemma ParentKept(v: World, p: seq<Made>, a: P.State, b: P.State, c: Cpu, e: Cpu, d: Cpu)
    requires v.Named() && Names(v.w.ops, v.w.a) && ParentCalls(v, p, a, c) && !ParentAsks(a.parent)
    requires a.parent < P.P_FAILURE && Told(v, a, b, e, d) && Failing(v.w.ops, 94)
    ensures ParentCalls(v, p, b, d)
  {
    hide Scripted, ChildScripted, Names, CpuAt, World.Addresses;
    if b.parent == P.P_FAILURE {
      NotPast(v.w, 97, d);
    }
  }

  lemma ChildGrow(v: World, q: seq<Made>, m: Made, a: P.State, b: P.State, c: Cpu, e: Cpu, d: Cpu)
    requires v.Named() && Names(v.w.ops, v.w.a) && ChildCalls(v, q, a, c) && ChildAsks(a.child)
    requires ChildScripted(v.Addresses(), m, |q|) && ChildTold(v, a, b, e, d) && m.result == e.x[0]
    requires Failing(v.w.ops, 94)
    ensures ChildCalls(v, q + [m], b, d)
  {
    hide ChildScripted, Good, Broken, Names, CpuAt, World.Addresses;
    Extends(v.Addresses(), Second, q, m, b.cpu1Observed);
    if b.child == P.C_FAILURE {
      NotPast(v.w, 97, d);
    }
  }

  lemma ChildKept(v: World, q: seq<Made>, a: P.State, b: P.State, c: Cpu, e: Cpu, d: Cpu)
    requires v.Named() && Names(v.w.ops, v.w.a) && ChildCalls(v, q, a, c) && !ChildAsks(a.child)
    requires P.C_UNBORN < a.child < P.C_FAILURE && ChildTold(v, a, b, e, d) && Failing(v.w.ops, 94)
    ensures ChildCalls(v, q, b, d)
  {
    hide Scripted, ChildScripted, Names, CpuAt, World.Addresses;
    if b.child == P.C_FAILURE {
      NotPast(v.w, 97, d);
    }
  }

  /** After the failure: the exit, then nothing. */
  lemma ExitGrow(v: World, who: Who, p: seq<Made>, m: Made, observed: word, c: Cpu, d: Cpu)
    requires v.Named() && Names(v.w.ops, v.w.a) && CallsSoFar(v, who, p, true, observed, c) && !v.w.Here(c, 98)
    requires Exits(m) && Found(m, Observed(v.Addresses(), who), observed) && d.Valid() && v.w.Here(d, 98)
    ensures CallsSoFar(v, who, p + [m], true, observed, d)
  {
    hide Broken, CallLogTo, Names, CpuAt, World.Addresses;
    ExitExtends(v.Addresses(), who, p, m, observed);
  }

  lemma ParentCallsStep(v: World, s: Pair, a: P.State, i: P.Input, e: Cpu, d: Cpu)
    requires v.Ok() && s.Pair? && v.Shows(s, a) && P.Inv(a) && ParentMoves(v, s, a, i, e, d) && ParentAt(v, s.first, a)
    requires a.parent != P.P_CLONE && ParentCalls(v, By(s.log, First), a, s.first) && Failing(v.w.ops, 94)
    ensures ParentCalls(v, By(v.w.Next(s, First).log, First), P.Next(a, i), d)
  {
    hide Scripted, Good, Broken, CallLogTo, Ready, World.Shows, World.Ok, Names, World.Addresses, P.Inv, P.Next,
         Failing,
         PairStep, Prog, Comes, CpuAt, Exits, Found, By, Quitting;
    v.Means();
    var p, c, b := By(s.log, First), s.first, P.Next(a, i);
    var m := MadeBy(First, c, s.mem, e.x[0]);
    CallsFind(v, s, a);
    ByAppend(s.log, m, First);
    if ParentAsks(a.parent) {
      ParentCall(v, s.mem, a, |p|, c, e.x[0]);
      ParentGrow(v, p, m, a, b, c, e, d);
    } else if a.parent < P.P_FAILURE {
      ParentKept(v, p, a, b, c, e, d);
    } else if !v.w.Here(c, 98) {
      ExitCall(v, s.mem, a, First, c, e.x[0]);
      ExitGrow(v, First, p, m, a.cpu0Observed, c, d);
    }
  }

  lemma ChildCallsStep(v: World, s: Pair, a: P.State, i: P.Input, e: Cpu, d: Cpu)
    requires v.Ok() && s.Pair? && v.Shows(s, a) && P.Inv(a) && ChildMoves(v, s, a, i, e, d) && s.second.Some?
    requires ChildAt(v, s.second.value, a) && ChildCalls(v, By(s.log, Second), a, s.second.value)
    requires Failing(v.w.ops, 94)
    ensures ChildCalls(v, By(v.w.Next(s, Second).log, Second), P.Next(a, i), d)
  {
    hide ChildScripted, Good, Broken, CallLogTo, Ready, World.Shows, World.Ok, Names, World.Addresses, P.Inv, P.Next,
         Failing, PairStep, Prog, Comes, CpuAt, Exits, Found, By, Quitting;
    v.Means();
    var q, c, b := By(s.log, Second), s.second.value, P.Next(a, i);
    var m := MadeBy(Second, c, s.mem, e.x[0]);
    CallsFind(v, s, a);
    ByAppend(s.log, m, Second);
    if ChildAsks(a.child) {
      ChildCall(v, s.mem, a, |q|, c, e.x[0]);
      ChildGrow(v, q, m, a, b, c, e, d);
    } else if a.child < P.C_FAILURE {
      ChildKept(v, q, a, b, c, e, d);
    } else if !v.w.Here(c, 98) {
      ExitCall(v, s.mem, a, Second, c, e.x[0]);
      ExitGrow(v, Second, q, m, a.cpu1Observed, c, d);
    }
  }

  /** The clone. */
  lemma CloneCallsStep(v: World, s: Pair, a: P.State, b: P.State, e: Cpu, d: Cpu)
    requires v.Ok() && s.Pair? && v.Shows(s, a) && P.Inv(a) && ParentAt(v, s.first, a) && a.parent == P.P_CLONE
    requires ParentCalls(v, By(s.log, First), a, s.first) && Logged(s, First, e, v.w.Next(s, First)) && d.Valid()
    requires b.parent == P.Checked(e.x[0] < SIGN, P.P_WAIT_READY) && (e.x[0] >= SIGN ==> Quitting(v.w, 94, d))
    requires Failing(v.w.ops, 94)
    ensures ParentCalls(v, By(v.w.Next(s, First).log, First), b, d)
  {
    hide Scripted, Good, Broken, World.Shows, Names, CpuAt, World.Addresses, PairStep, Prog, Ready, World.Ok, P.Inv, By;
    v.Means();
    var p, c := By(s.log, First), s.first;
    var m := MadeBy(First, c, s.mem, e.x[0]);
    CallsFind(v, s, a);
    ParentCall(v, s.mem, a, 2, c, e.x[0]);
    ByAppend(s.log, m, First);
    Extends(v.Addresses(), First, p, m, b.cpu0Observed);
    if e.x[0] >= SIGN {
      NotPast(v.w, 97, d);
    }
  }
}
