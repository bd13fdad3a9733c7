/** The two-CPU progress program: the parent announces READY once both CPUs
    are pinned, and only then do both write progress tokens. Steps are single
    shared accesses or system calls, as in the hotplug program. */
module Progress {
  type u32 = x: int | 0 <= x < 0x1_0000_0000

  datatype Event = Ready | Token0 | Token1

  // Points of the parent.
  const P_AFFINITY := 0
  const P_GETCPU := 1
  const P_CHECK_CPU := 2
  const P_CLONE := 3
  const P_WAIT_READY := 4
  const P_WRITE_READY := 5
  const P_STORE_START := 6
  const P_TOKEN := 7
  const P_SLEEP := 8
  const P_YIELD := 9
  const P_FAILURE := 10

  // Points of the child.
  const C_UNBORN := 0
  const C_AFFINITY := 1
  const C_GETCPU := 2
  const C_CHECK_CPU := 3
  const C_STORE_READY := 4
  const C_WAIT_START := 5
  const C_TOKEN := 6
  const C_SLEEP := 7
  const C_YIELD := 8
  const C_FAILURE := 9

  /** `pinned0` and `pinned1` record that the CPU's own affinity check passed. */
  datatype State = State(
    parent: nat, child: nat,
    cpu0Observed: u32, cpu1Observed: u32, ready: u32, start: u32,
    output: seq<Event>, pinned0: bool, pinned1: bool)

  function Init(): State { State(P_AFFINITY, C_UNBORN, 0, 0, 0, 0, [], false, false) }

  datatype Input =
    | Parent(result: int, observed: u32)
    | Child(result: int, observed: u32)

  function Checked(ok: bool, point: nat): nat { if ok then point else P_FAILURE }

  function ChildChecked(ok: bool, point: nat): nat { if ok then point else C_FAILURE }

  function NextParent(s: State, result: int, observed: u32): State {
    if s.parent == P_AFFINITY then s.(parent := Checked(result == 0, P_GETCPU))
    else if s.parent == P_GETCPU then s.(parent := Checked(result == 0, P_CHECK_CPU), cpu0Observed := observed)
    else if s.parent == P_CHECK_CPU then
      s.(parent := Checked(s.cpu0Observed == 0, P_CLONE), pinned0 := s.cpu0Observed == 0)
    else if s.parent == P_CLONE then
      if result < 0 then s.(parent := P_FAILURE) else s.(parent := P_WAIT_READY, child := C_AFFINITY)
    else if s.parent == P_WAIT_READY then if s.ready == 1 then s.(parent := P_WRITE_READY) else s
    else if s.parent == P_WRITE_READY then s.(parent := P_STORE_START, output := s.output + [Ready])
    else if s.parent == P_STORE_START then s.(parent := P_TOKEN, start := 1)
    else if s.parent == P_TOKEN then s.(parent := P_SLEEP, output := s.output + [Token0])
    else if s.parent == P_SLEEP then s.(parent := P_YIELD)
    else if s.parent == P_YIELD then s.(parent := P_TOKEN)
    else s
  }

  function NextChild(s: State, result: int, observed: u32): State {
    if s.child == C_AFFINITY then s.(child := ChildChecked(result == 0, C_GETCPU))
    else if s.child == C_GETCPU then s.(child := ChildChecked(result == 0, C_CHECK_CPU), cpu1Observed := observed)
    else if s.child == C_CHECK_CPU then
      s.(child := ChildChecked(s.cpu1Observed == 1, C_STORE_READY), pinned1 := s.cpu1Observed == 1)
    else if s.child == C_STORE_READY then s.(child := C_WAIT_START, ready := 1)
    else if s.child == C_WAIT_START then if s.start == 1 then s.(child := C_TOKEN) else s
    else if s.child == C_TOKEN then s.(child := C_SLEEP, output := s.output + [Token1])
    else if s.child == C_SLEEP then s.(child := C_YIELD)
    else if s.child == C_YIELD then s.(child := C_TOKEN)
    else s
  }

  function Next(s: State, i: Input): State {
    match i
    case Parent(result, observed) => NextParent(s, result, observed)
    case Child(result, observed) => NextChild(s, result, observed)
  }

  function Run(inputs: seq<Input>): State {
    if inputs == [] then Init() else Next(Run(inputs[..|inputs| - 1]), inputs[|inputs| - 1])
  }

  /** READY is the first event and occurs once. */
  predicate ReadyFirst(output: seq<Event>) {
    output != [] ==> output[0] == Ready && forall k | 1 <= k < |output| :: output[k] != Ready
  }

  predicate Inv(s: State) {
    && s.parent <= P_FAILURE && s.child <= C_FAILURE
    && s.start <= 1 && s.ready <= 1
    && (s.parent <= P_CLONE ==> s.child == C_UNBORN)
    && (P_CLONE <= s.parent <= P_YIELD ==> s.pinned0 && s.cpu0Observed == 0)
    && (C_STORE_READY <= s.child <= C_YIELD ==> s.pinned1 && s.cpu1Observed == 1)
    && (s.ready == 1 ==> s.child > C_STORE_READY && s.child != C_FAILURE)
    && (P_WRITE_READY <= s.parent <= P_YIELD ==> s.ready == 1)
    && (s.parent <= P_STORE_START || s.parent == P_FAILURE ==> s.start == 0)
    && (s.parent <= P_WRITE_READY || s.parent == P_FAILURE ==> s.output == [])
    && (P_WRITE_READY < s.parent <= P_YIELD ==> s.output != [])
    && (C_TOKEN <= s.child <= C_YIELD || P_TOKEN <= s.parent <= P_YIELD ==> s.start == 1)
    && ReadyFirst(s.output)
  }

  lemma ParentKeepsInv(s: State, result: int, observed: u32)
    requires Inv(s)
    ensures Inv(NextParent(s, result, observed))
  {
  }

  lemma ChildKeepsInv(s: State, result: int, observed: u32)
    requires Inv(s)
    ensures Inv(NextChild(s, result, observed))
  {
  }

  lemma {:induction false} RunInv(inputs: seq<Input>)
    ensures Inv(Run(inputs))
  {
    hide Inv, NextParent, NextChild;
    if inputs == [] {
      InitInv();
    } else {
      var s, i := Run(inputs[..|inputs| - 1]), inputs[|inputs| - 1];
      RunInv(inputs[..|inputs| - 1]);
      if i.Parent? {
        ParentKeepsInv(s, i.result, i.observed);
      } else {
        ChildKeepsInv(s, i.result, i.observed);
      }
    }
  }

  lemma InitInv()
    ensures Inv(Init())
  {
  }

  /** In every run no token precedes READY, and READY is out only after both
      CPUs passed their own affinity checks, each on its own CPU. */
  lemma StartBarrier(inputs: seq<Input>)
    ensures var s := Run(inputs);
            && ReadyFirst(s.output)
            && (s.output != [] ==> s.pinned0 && s.pinned1 && s.cpu0Observed == 0 && s.cpu1Observed == 1)
  {
    hide Run;
    RunInv(inputs);
  }
}
