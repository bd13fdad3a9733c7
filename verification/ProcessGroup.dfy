/** Signalling and retiring a provider's process group. The kernel is a model
    of one group: a leader that dies when it likes and stays a zombie until
    reaped, and members that come and go while the group lives. Error numbers
    are arbitrary, except that "no such process" is only ever reported of a
    group without live processes. */
module ProcessGroup {
  datatype Leader = Alive | Zombie(status: int) | Reaped

  datatype Errno = Success | NoSuchProcess | NotPermitted | OtherError

  datatype Signal = Term | Kill

  /** A delivered signal, and whether the leader was still unreaped, so that
      the pid and the group id could not have passed to someone else. */
  datatype Sent = Sent(signal: Signal, pinned: bool)

  datatype Failure = SignalFailed | CleanupFailed

  datatype Result<T> = Done(value: T) | Failed(why: Failure)

  datatype Option<T> = None | Some(value: T)

  /** Which signals an operation may have sent, in order. */
  type Plans = set<seq<Signal>>

  function Pinned(plan: seq<Signal>): (s: seq<Sent>)
    ensures |s| == |plan| && forall i | 0 <= i < |s| :: s[i] == Sent(plan[i], true)
  {
    seq(|plan|, i requires 0 <= i < |plan| => Sent(plan[i], true))
  }

  /** A request to signal, then TERM and KILL only while the group lives. */
  function SignalPlans(kill: bool): Plans {
    if kill then {[], [Kill], [Kill, Term], [Kill, Kill], [Kill, Term, Kill]} else {[], [Term], [Term, Kill]}
  }

  function QuellPlans(kill: bool): Plans {
    if kill then {[], [Term], [Kill], [Term, Kill]} else {[], [Kill]}
  }

  const TERMINATE_PLANS: Plans := {[], [Term], [Kill], [Term, Kill]}

  ghost predicate Escalated(before: seq<Sent>, after: seq<Sent>, plans: Plans) {
    exists plan | plan in plans :: after == before + Pinned(plan)
  }

  lemma PlanAfter(before: seq<Sent>, kill: bool, after: seq<Sent>)
    requires Escalated(before + [Sent(if kill then Kill else Term, true)], after, QuellPlans(kill))
    ensures Escalated(before, after, SignalPlans(kill)) && after != before
  {
    var first := if kill then Kill else Term;
    var plan :| plan in QuellPlans(kill) && after == before + [Sent(first, true)] + Pinned(plan);
    assert [first] + [] == [first] && [first] + [Kill] == [first, Kill];
    assert [first] + [Term] == [first, Term] && [first] + [Term, Kill] == [first, Term, Kill];
    assert [first] + plan in SignalPlans(kill);
    assert before + [Sent(first, true)] + Pinned(plan) == before + Pinned([first] + plan);
  }

  lemma NoneSent(sent: seq<Sent>, kill: bool)
    ensures Escalated(sent, sent, SignalPlans(kill))
  {
    assert sent == sent + Pinned([]);
  }

  /** TERM or nothing if asked to kill, then KILL or nothing. */
  lemma QuellPlan(before: seq<Sent>, told: seq<Sent>, after: seq<Sent>, kill: bool)
    requires told == before || (kill && told == before + [Sent(Term, true)])
    requires after == told || after == told + [Sent(Kill, true)]
    ensures Escalated(before, after, QuellPlans(kill))
  {
    var plan := (if told == before then [] else [Term]) + (if after == told then [] else [Kill]);
    assert [] + [Kill] == [Kill] && [Term] + [] == [Term] && [Term] + [Kill] == [Term, Kill];
    assert plan in QuellPlans(kill);
    assert after == before + Pinned(plan);
  }

  lemma NothingTerminated(sent: seq<Sent>)
    ensures Escalated(sent, sent, TERMINATE_PLANS)
  {
    assert sent == sent + Pinned([]);
  }

  predicate AllPinned(sent: seq<Sent>) {
    forall i | 0 <= i < |sent| :: sent[i].pinned
  }

  datatype Identity = Own | Foreign | Missing | Unreadable

  // ----- what a call has seen and done -----

  /** One thing a call did: asked whose group it is, probed it, ended a wait for
      it to be quiet, sent it a signal, or waited for the leader's status. */
  datatype Deed =
    | Asked(identity: Identity)
    | Probed(answer: Errno)
    | Waited(quiet: bool)
    | Signalled(signal: Signal, outcome: Errno)
    | Collected(status: Option<int>)

  /** What a call was for. */
  datatype Order = Nothing | Terminate | Request(kill: bool)

  datatype Call = Call(order: Order, deeds: seq<Deed>) {
    function Plus(d: Deed): Call { Call(order, deeds + [d]) }
  }

  /** The probe saw live processes. */
  predicate Live(d: Deed) { d == Probed(Success) }

  /** How many waits ran out with the group still alive. */
  function Timeouts(deeds: seq<Deed>): nat {
    if deeds == [] then 0
    else Timeouts(deeds[..|deeds| - 1]) + (if deeds[|deeds| - 1] == Waited(false) then 1 else 0)
  }

  function SignalsIn(deeds: seq<Deed>): seq<Signal> {
    if deeds == [] then []
    else
      var last := deeds[|deeds| - 1];
      SignalsIn(deeds[..|deeds| - 1]) + (if last.Signalled? then [last.signal] else [])
  }

  /** A wait has just run out, and a further probe still sees the group alive. */
  predicate Stubborn(deeds: seq<Deed>) {
    |deeds| >= 2 && deeds[|deeds| - 2] == Waited(false) && Live(deeds[|deeds| - 1])
  }

  /** The signal that must be sent next, if any. Termination sends TERM to a
      group of our own that two probes see alive, and KILL when a wait for it
      has run out once and a probe still sees it alive. A request sends its
      signal to a group of our own, and escalates in the same way. */
  function Due(c: Call): Option<Signal> {
    match c.order
    case Nothing => None
    case Terminate =>
      if |c.deeds| == 3 && c.deeds[0] == Asked(Own) && Live(c.deeds[1]) && Live(c.deeds[2]) then Some(Term)
      else if Stubborn(c.deeds) && Timeouts(c.deeds) == 1 then Some(Kill)
      else None
    case Request(kill) =>
      if c.deeds == [Asked(Own)] then Some(if kill then Kill else Term)
      else if Stubborn(c.deeds) && Timeouts(c.deeds) == 1 then Some(if kill then Term else Kill)
      else if Stubborn(c.deeds) && Timeouts(c.deeds) == 2 && kill then Some(Kill)
      else None
  }

  /** What a deed may be after `before`: a signal exactly when that signal is
      due; a wait ends as its last probe says, and none follows a quiet one; a
      status is collected only from a group seen quiet or said to be missing. */
  predicate Fits(before: Call, d: Deed) {
    && (Due(before) == if d.Signalled? then Some(d.signal) else None)
    && (d.Waited? ==>
          && before.deeds != [] && before.deeds[|before.deeds| - 1].Probed?
          && d.quiet == !Live(before.deeds[|before.deeds| - 1]) && Waited(true) !in before.deeds)
    && (d.Collected? ==> Waited(true) in before.deeds || before.deeds == [Asked(Missing)])
  }

  ghost predicate Follows(c: Call) {
    forall i | 0 <= i < |c.deeds| :: Fits(Call(c.order, c.deeds[..i]), c.deeds[i])
  }

  predicate Collects(deeds: seq<Deed>) {
    exists i | 0 <= i < |deeds| :: deeds[i].Collected?
  }

  /** The call may not end yet: a signal is due, or what it did last has to be
      followed by something. */
  predicate Pending(c: Call) {
    || Due(c).Some?
    || (c.deeds != [] && match c.deeds[|c.deeds| - 1]
                         case Asked(i) => c.order.Terminate? && (i.Own? || i.Missing?)
                         case Signalled(_, e) => e.Success? || (|c.deeds| > 2 && !e.OtherError?)
                         case Waited(quiet) =>
                           quiet || Timeouts(c.deeds) < (if c.order == Request(true) then 3 else 2)
                         case Probed(e) =>
                           && c.deeds[0] == Asked(Own) && !Collects(c.deeds)
                           && (e.NoSuchProcess? || e.NotPermitted?
                               || (e.Success? && c.order.Terminate? && |c.deeds| == 2))
                         case Collected(s) => s.Some? && (c.order == Request(true) ==> s.value == -9))
  }

  /** The call had to act on a live group: its first probe saw one, or a wait for
      it ran out. */
  predicate Forced(c: Call) {
    |c.deeds| > 1 && c.deeds[0] == Asked(Own) && (Live(c.deeds[1]) || Timeouts(c.deeds) > 0)
  }

  /** The call may end, without success. */
  predicate Ended(c: Call) {
    !Pending(c) && c.deeds != [] && c.deeds[|c.deeds| - 1] != Probed(NoSuchProcess)
  }

  /** Probing can go on without anything becoming due. */
  predicate Still(c: Call) {
    && Due(c).None? && (c.deeds != [] ==> c.deeds[|c.deeds| - 1] != Waited(false))
    && (c.order.Terminate? && c.deeds != [] && c.deeds[0] == Asked(Own) ==>
          |c.deeds| >= 3 || (|c.deeds| == 2 && !Live(c.deeds[1])))
  }

  lemma StillProbe(c: Call, e: Errno)
    requires Still(c)
    ensures Still(c.Plus(Probed(e)))
  {
  }

  lemma FollowsPlus(c: Call, d: Deed)
    requires Follows(c) && Fits(c, d)
    ensures Follows(c.Plus(d)) && c.deeds <= c.Plus(d).deeds
    ensures Timeouts(c.Plus(d).deeds) == Timeouts(c.deeds) + (if d == Waited(false) then 1 else 0)
    ensures SignalsIn(c.Plus(d).deeds) == SignalsIn(c.deeds) + (if d.Signalled? then [d.signal] else [])
  {
    hide Fits, Due;
    var next := c.Plus(d);
    assert next.deeds[..|c.deeds|] == c.deeds;
    forall i | 0 <= i < |next.deeds| ensures Fits(Call(next.order, next.deeds[..i]), next.deeds[i]) {
      if i < |c.deeds| {
        assert next.deeds[..i] == c.deeds[..i];
      }
    }
  }

  /** What comes right before a signal. */
  lemma BeforeSignal(c: Call, j: nat)
    requires Follows(c) && j < |c.deeds|
    ensures c.deeds[j].Signalled? ==>
              || (j >= 2 && c.deeds[j - 2] == Waited(false) && c.deeds[j - 1] == Probed(Success))
              || (j == 3 && c.deeds[0].Asked? && c.deeds[1].Probed? && c.deeds[2].Probed?)
              || (j == 1 && c.deeds[0].Asked?)
  {
    hide Timeouts, Follows;
    FitsAt(c, j);
  }

  lemma FitsAt(c: Call, j: nat)
    requires Follows(c) && j < |c.deeds|
    ensures Fits(Call(c.order, c.deeds[..j]), c.deeds[j])
  {
    hide Fits;
  }

  lemma QuietEndsWaiting(c: Call, i: nat, j: nat)
    requires Follows(c) && i < j < |c.deeds| && c.deeds[i] == Waited(true)
    ensures !c.deeds[j].Waited?
  {
    hide Due, Follows;
    FitsAt(c, j);
    assert c.deeds[..j][i] == Waited(true);
  }

  /** A group that a wait saw quiet is sent nothing more by that call. */
  lemma QuietIsFinal(c: Call, i: nat, j: nat)
    requires Follows(c) && i < j < |c.deeds| && c.deeds[i] == Waited(true)
    ensures !c.deeds[j].Signalled?
  {
    hide Follows;
    BeforeSignal(c, j);
    if i < j - 2 {
      QuietEndsWaiting(c, i, j - 2);
    }
  }

  /** Termination sends KILL only after a wait that ended with the group alive,
      and TERM exactly when the first two probes of our own group see it alive. */
  lemma TerminationOrder(c: Call, i: nat)
    requires Follows(c) && c.order.Terminate? && i < |c.deeds|
    ensures c.deeds[i].Signalled? && c.deeds[i].signal.Kill? ==>
              i >= 2 && c.deeds[i - 2] == Waited(false) && c.deeds[i - 1] == Probed(Success)
    ensures c.deeds[i].Signalled? && c.deeds[i].signal.Term? <==>
              i == 3 && c.deeds[0] == Asked(Own) && c.deeds[1] == c.deeds[2] == Probed(Success)
  {
    hide Timeouts, Follows;
    var before := c.deeds[..i];
    FitsAt(c, i);
    assert forall k | 0 <= k < i :: before[k] == c.deeds[k];
  }

  /** When the first probe of our own group sees it alive, the first signal of
      a termination is TERM exactly when the probe before that signal does too. */
  lemma FirstSignal(c: Call, i: nat)
    requires Follows(c) && c.order.Terminate? && i < |c.deeds| && c.deeds[i].Signalled?
    requires forall k | 0 <= k < i :: !c.deeds[k].Signalled?
    requires c.deeds[0] == Asked(Own) && c.deeds[1] == Probed(Success)
    ensures i > 2 && (c.deeds[i].signal.Term? <==> c.deeds[2] == Probed(Success))
  {
    hide Follows;
    TerminationOrder(c, i);
    match c.deeds[i].signal {
      case Term =>
      case Kill => assert c.deeds[i - 2] == Waited(false);
    }
    if c.deeds[2] == Probed(Success) {
      TerminationOrder(c, 3);
    }
  }

  /** A group that is seen alive, then not, then alive until the wait runs out
      is killed without TERM. */
  lemma TermSkipped()
    ensures Follows(Call(Terminate, [Asked(Own), Probed(Success), Probed(NotPermitted), Probed(Success),
                                     Waited(false), Probed(Success), Signalled(Kill, Success)]))
  {
    hide Follows, SignalsIn, Timeouts;
    var a, b, c, killed := Probed(Success), Probed(NotPermitted), Waited(false), Signalled(Kill, Success);
    FollowsNothing(Terminate);
    Grow(Terminate, [], Asked(Own), [Asked(Own)]);
    Grow(Terminate, [Asked(Own)], a, [Asked(Own), a]);
    Grow(Terminate, [Asked(Own), a], b, [Asked(Own), a, b]);
    Grow(Terminate, [Asked(Own), a, b], a, [Asked(Own), a, b, a]);
    Grow(Terminate, [Asked(Own), a, b, a], c, [Asked(Own), a, b, a, c]);
    Grow(Terminate, [Asked(Own), a, b, a, c], a, [Asked(Own), a, b, a, c, a]);
    Grow(Terminate, [Asked(Own), a, b, a, c, a], killed, [Asked(Own), a, b, a, c, a, killed]);
  }

  lemma FollowsNothing(order: Order)
    ensures Follows(Call(order, [])) && Timeouts([]) == 0
  {
  }

  lemma Grow(order: Order, deeds: seq<Deed>, d: Deed, more: seq<Deed>)
    requires more == deeds + [d] && Follows(Call(order, deeds)) && Fits(Call(order, deeds), d)
    ensures Follows(Call(order, more))
    ensures Timeouts(more) == Timeouts(deeds) + (if d == Waited(false) then 1 else 0)
  {
    FollowsPlus(Call(order, deeds), d);
  }

  /** `OwnedProvider`: a child process, leader of its own group. */
  class Provider {
    const pid: int
    var leader: Leader
    var members: nat
    var returncode: Option<int>
    // The status the leader died with, and every signal sent.
    ghost var died: Option<int>
    ghost var sent: seq<Sent>
    // What the current call has done, how much was sent before it, and the
    // calls that are over.
    ghost var now: Call
    ghost var mark: nat
    ghost var past: seq<Call>

    /** The child is reaped exactly when `Popen` has its status, which is the
        one it died with, every signal so far went to a pinned group, and every
        call sent exactly what was due. */
    ghost predicate Valid()
      reads this
    {
      && (returncode.Some? <==> leader.Reaped?)
      && (leader.Alive? <==> died.None?)
      && (leader.Zombie? ==> died == Some(leader.status))
      && (returncode.Some? ==> returncode == died)
      && AllPinned(sent) && Orderly()
      && mark <= |sent| && sent[mark..] == Pinned(SignalsIn(now.deeds))
    }

    ghost predicate Orderly()
      reads this
    {
      Follows(now) && forall i | 0 <= i < |past| :: Follows(past[i])
    }

    /** A new call has been made, for `order`. */
    twostate predicate Called(order: Order)
      reads this
    {
      past == old(past) + [old(now)] && now.order == order && mark == |old(sent)|
    }

    /** The current call has gone on. */
    twostate predicate Onward()
      reads this
    {
      past == old(past) && mark == old(mark) && now.order == old(now).order && old(now).deeds <= now.deeds
    }

    /** A death, a status and retirement, once there, stay. */
    twostate predicate Aged()
      reads this
    {
      && (old(died).Some? ==> died == old(died))
      && (old(returncode).Some? ==> returncode == old(returncode))
      && (old(Retired()) ==> Retired())
    }

    /** No live process is left in the group. */
    predicate Quiet()
      reads this
    {
      !leader.Alive? && members == 0
    }

    /** The leader is reaped and the group is gone. */
    predicate Retired()
      reads this
    {
      leader.Reaped? && members == 0 && returncode.Some?
    }

    constructor (pid: int)
      ensures Valid() && this.pid == pid && leader.Alive? && returncode.None? && sent == []
      ensures now == Call(Nothing, []) && past == []
    {
      this.pid := pid;
      leader, members, returncode := Alive, 0, None;
      died := None;
      sent := [];
      now, mark, past := Call(Nothing, []), 0, [];
    }

    /** What never changes back while the supervisor is not acting. */
    twostate predicate Drifted()
      reads this
    {
      && returncode == old(returncode) && sent == old(sent) && Aged()
      && (old(leader).Alive? ==> !leader.Reaped?)
      && (!old(leader).Alive? ==> leader == old(leader))
      && (old(Quiet()) ==> Quiet())
    }

    /** The world moves on: processes fork, exit and die. */
    method Drift()
      requires Valid()
      modifies this`leader, this`members, this`died
      ensures Valid() && Drifted()
    {
      var forks: nat := *;
      if leader.Alive? || members > 0 {
        members := forks;
      }
      var dies: bool := *;
      var status: int := *;
      if leader.Alive? && dies {
        leader := Zombie(status);
        died := Some(status);
      }
    }

    /** A call begins. */
    ghost method Begin(order: Order)
      requires Valid()
      modifies this`now, this`mark, this`past
      ensures Valid() && Called(order) && now.deeds == []
    {
      past, now, mark := past + [now], Call(order, []), |sent|;
    }

    /** The call has done something else than send a signal. */
    ghost method Note(d: Deed)
      requires Valid() && !d.Signalled? && Fits(now, d)
      modifies this`now
      ensures Valid() && now == old(now).Plus(d)
    {
      FollowsPlus(now, d);
      now := now.Plus(d);
    }

    /** The call has sent a signal. */
    ghost method Record(signal: Signal, outcome: Errno)
      requires Valid() && returncode.None? && Due(now) == Some(signal)
      modifies this`now, this`sent
      ensures Valid() && now == old(now).Plus(Signalled(signal, outcome)) && sent == old(sent) + [Sent(signal, true)]
    {
      hide Due, SignalsIn, Follows;
      FollowsPlus(now, Signalled(signal, outcome));
      sent := sent + [Sent(signal, !leader.Reaped?)];
      now := now.Plus(Signalled(signal, outcome));
      assert sent[mark..] == old(sent)[mark..] + [Sent(signal, true)];
    }

    /** `os.killpg(pid, 0)`. */
    method Probe() returns (e: Errno)
      requires Valid() && Due(now).None?
      modifies this
      ensures Valid() && Drifted() && Onward() && now == old(now).Plus(Probed(e))
      ensures e.NoSuchProcess? ==> Quiet()
    {
      hide Valid, Due;
      Drift();
      e := *;
      if e.NoSuchProcess? && !Quiet() {
        e := Success;
      }
      Note(Probed(e));
    }

    /** `os.killpg` or `os.kill` with a real signal. */
    method Deliver(signal: Signal) returns (e: Errno)
      requires Valid() && returncode.None? && Due(now) == Some(signal)
      modifies this
      ensures Valid() && returncode == old(returncode) && Onward()
      ensures now == old(now).Plus(Signalled(signal, e))
      ensures sent == old(sent) + [Sent(signal, true)] && Aged()
      ensures old(leader).Alive? ==> !leader.Reaped?
      ensures !old(leader).Alive? ==> leader == old(leader)
    {
      hide Valid, Due;
      Drift();
      e := *;
      Record(signal, e);
    }

    /** `os.getpgid(pid)` compared with the pid. */
    method GroupIdentity() returns (i: Identity)
      requires Valid() && Due(now).None?
      modifies this
      ensures Valid() && Drifted() && Onward() && now == old(now).Plus(Asked(i))
    {
      hide Valid, Due;
      Drift();
      i := *;
      Note(Asked(i));
    }

    /** `Popen.poll`. */
    method Poll() returns (status: Option<int>)
      requires Valid()
      modifies this`leader, this`members, this`died, this`returncode
      ensures Valid() && status == returncode && sent == old(sent) && Aged()
      ensures old(Quiet()) ==> Quiet()
    {
      Drift();
      if returncode.None? && leader.Zombie? {
        returncode := Some(leader.status);
        leader := Reaped;
      }
      return returncode;
    }

    /** `Popen.wait(timeout)`: the status, or a timeout. */
    method WaitFor() returns (status: Option<int>)
      requires Valid() && Still(now) && Waited(true) in now.deeds
      modifies this
      ensures Valid() && sent == old(sent) && Aged() && Onward() && now == old(now).Plus(Collected(status))
      ensures status.Some? ==> status == returncode
      ensures old(Quiet()) ==> Quiet()
      ensures Still(now) && Collects(now.deeds) && Timeouts(now.deeds) == Timeouts(old(now).deeds)
    {
      hide Due, Still, Timeouts, SignalsIn, Follows;
      status := Poll();
      var later: bool := *;
      if status.None? && later {
        status := Poll();
      }
      StillMeans(now);
      StillCollected(now, status);
      PlusTimeouts(now, Collected(status));
      Note(Collected(status));
      assert now.deeds[|now.deeds| - 1].Collected?;
    }

    lemma StillCollected(c: Call, status: Option<int>)
      requires Still(c) && c.deeds != [] && (c.deeds[0] == Asked(Own) ==> |c.deeds| > 1)
      ensures Still(c.Plus(Collected(status)))
    {
    }

    // ----- the probes -----

    /** `_provider_group_has_live_members`. */
    method HasLiveMembers() returns (r: Result<bool>)
      requires Valid() && Due(now).None?
      modifies this
      ensures Valid() && Drifted() && Onward()
      ensures exists e :: now == old(now).Plus(Probed(e)) && r == LivenessOf(e)
    {
      var e := Probe();
      match e
      case Success => return Done(true);
      case NoSuchProcess => return Done(false);
      case NotPermitted => return Done(false);
      case OtherError => return Failed(CleanupFailed);
    }

    static function LivenessOf(e: Errno): Result<bool> {
      match e
      case Success => Done(true)
      case NoSuchProcess => Done(false)
      case NotPermitted => Done(false)
      case OtherError => Failed(CleanupFailed)
    }

    /** `_provider_group_absent`: true only of a group without live processes. */
    method Absent() returns (r: Result<bool>)
      requires Valid() && Still(now)
      modifies this
      ensures Valid() && Drifted() && Onward() && Still(now)
      ensures Timeouts(now.deeds) == Timeouts(old(now).deeds)
      ensures |now.deeds| > |old(now).deeds| && now.deeds[|now.deeds| - 1].Probed?
      ensures now.deeds[|old(now).deeds|].Probed?
      ensures r == Done(true) <==> now.deeds[|now.deeds| - 1] == Probed(NoSuchProcess)
      ensures r == Done(true) ==> Quiet()
    {
      ghost var before := now;
      var e := Probe();
      StillProbe(before, e);
      PlusTimeouts(before, Probed(e));
      match e
      case Success => return Done(false);
      case NoSuchProcess => return Done(true);
      case NotPermitted => return Failed(CleanupFailed);
      case OtherError => return Failed(CleanupFailed);
    }

    /** `_wait_provider_group_quiescent`: probe until quiet or out of time. */
    method WaitQuiescent() returns (r: Result<bool>)
      requires Valid() && Still(now) && Waited(true) !in now.deeds
      modifies this
      ensures Valid() && Drifted() && Onward() && |now.deeds| > |old(now).deeds|
      ensures r.Done? ==> now.deeds[|now.deeds| - 1] == Waited(r.value)
      ensures r.Done? ==> Timeouts(now.deeds) == Timeouts(old(now).deeds) + (if r.value then 0 else 1)
      ensures r.Done? && !r.value ==> Waited(true) !in now.deeds
      ensures r.Done? && r.value ==> Still(now)
      ensures r.Failed? ==> Ended(now)
    {
      hide Valid, Due, SignalsIn, Follows, Timeouts, Still, Fits, Pending;
      var polls: nat := *;
      var live;
      while polls > 0
        invariant Valid() && Drifted() && Onward() && Still(now) && Waited(true) !in now.deeds
        invariant Timeouts(now.deeds) == Timeouts(old(now).deeds)
        decreases polls
      {
        live := LookAgain();
        if live.Failed? {
          Erred(now);
          return Failed(live.why);
        }
        if !live.value {
          EndWait(true);
          return Done(true);
        }
        polls := polls - 1;
      }
      live := LookAgain();
      if live.Failed? {
        Erred(now);
        return Failed(live.why);
      }
      EndWait(!live.value);
      return Done(!live.value);
    }

    /** One probe of a wait. */
    method LookAgain() returns (live: Result<bool>)
      requires Valid() && Still(now) && Waited(true) !in now.deeds
      modifies this
      ensures Valid() && Drifted() && Onward() && Still(now) && Waited(true) !in now.deeds
      ensures Timeouts(now.deeds) == Timeouts(old(now).deeds)
      ensures |now.deeds| > |old(now).deeds| && now.deeds[|now.deeds| - 1].Probed?
      ensures live.Done? ==> live.value == Live(now.deeds[|now.deeds| - 1])
      ensures live.Failed? ==> now.deeds[|now.deeds| - 1] == Probed(OtherError)
    {
      hide Still, Due, SignalsIn, Valid, Timeouts;
      ghost var before := now;
      StillMeans(before);
      live := HasLiveMembers();
      ghost var e :| now == before.Plus(Probed(e)) && live == LivenessOf(e);
      StillProbe(before, e);
      PlusTimeouts(before, Probed(e));
    }

    /** The wait is over. */
    ghost method EndWait(quiet: bool)
      requires Valid() && Still(now) && Waited(true) !in now.deeds
      requires now.deeds != [] && now.deeds[|now.deeds| - 1].Probed? && quiet == !Live(now.deeds[|now.deeds| - 1])
      modifies this`now
      ensures Valid() && now == old(now).Plus(Waited(quiet))
      ensures Timeouts(now.deeds) == Timeouts(old(now).deeds) + (if quiet then 0 else 1)
      ensures quiet ==> Still(now)
    {
      hide Valid, Due, SignalsIn, Follows, Timeouts, Still;
      StillMeans(now);
      PlusTimeouts(now, Waited(quiet));
      StillWaited(now, quiet);
      Note(Waited(quiet));
    }

    lemma StillWaited(c: Call, quiet: bool)
      requires Still(c) && c.deeds != []
      ensures quiet ==> Still(c.Plus(Waited(quiet)))
    {
    }

    lemma StillMeans(c: Call)
      requires Still(c)
      ensures Due(c).None?
    {
    }

    /** A probe that failed ends the call. */
    lemma Erred(c: Call)
      requires Still(c) && c.deeds != [] && c.deeds[|c.deeds| - 1] == Probed(OtherError)
      ensures Ended(c)
    {
    }

    /** Once the status is collected, the end of the wait ends the call. */
    lemma AllSeen(c: Call)
      requires Still(c) && Collects(c.deeds) && c.deeds[|c.deeds| - 1].Probed?
      ensures !Pending(c)
    {
    }

    lemma NoStatus(c: Call)
      requires Still(c) && c.deeds != [] && c.deeds[|c.deeds| - 1].Collected?
      ensures Pending(c) <==>
                var s := c.deeds[|c.deeds| - 1].status;
                s.Some? && (c.order == Request(true) ==> s.value == -9)
    {
    }

    /** A wait that ran out and is the last there will be. */
    lemma LastResort(c: Call)
      requires c.deeds != [] && c.deeds[|c.deeds| - 1] == Waited(false) && !c.order.Nothing?
      requires Timeouts(c.deeds) >= if c.order == Request(true) then 3 else 2
      ensures Ended(c)
    {
    }

    /** Waiting for `_provider_group_absent`. */
    method WaitAbsent() returns (r: Result<bool>)
      requires Valid() && Still(now)
      modifies this
      ensures Valid() && Drifted() && Onward() && Still(now)
      ensures Timeouts(now.deeds) == Timeouts(old(now).deeds)
      ensures |now.deeds| > |old(now).deeds| && now.deeds[|now.deeds| - 1].Probed?
      ensures now.deeds[|old(now).deeds|].Probed?
      ensures r == Done(true) <==> now.deeds[|now.deeds| - 1] == Probed(NoSuchProcess)
      ensures r == Done(true) ==> Quiet()
    {
      hide Still, Due, Timeouts, SignalsIn, Follows;
      var polls: nat := *;
      while polls > 0
        invariant Valid() && Drifted() && Onward() && Still(now)
        invariant |now.deeds| > |old(now).deeds| ==> now.deeds[|old(now).deeds|].Probed?
        invariant Timeouts(now.deeds) == Timeouts(old(now).deeds)
      {
        var absent := Absent();
        if absent.Failed? || absent.value {
          return absent;
        }
        polls := polls - 1;
      }
      r := Absent();
    }

    /** `_send_group_cleanup_signal`: sends the signal that one more sight of a
        live group makes due. */
    method SendCleanup(signal: Signal) returns (r: Result<()>)
      requires Valid() && returncode.None?
      requires Due(now).None? && Due(now.Plus(Probed(Success))) == Some(signal)
      requires Still(now.Plus(Probed(NoSuchProcess))) && Waited(true) !in now.deeds && |now.deeds| > 1
      modifies this
      ensures Valid() && returncode.None? && Aged() && Onward()
      ensures sent == old(sent) || sent == old(sent) + [Sent(signal, true)]
      ensures Still(now) && Waited(true) !in now.deeds && Timeouts(now.deeds) == Timeouts(old(now).deeds)
      ensures r.Failed? ==> Ended(now)
    {
      hide SignalsIn, Timeouts, Still, Follows, Valid, Due, Pending;
      ghost var before := now;
      var live := HasLiveMembers();
      ghost var e :| now == before.Plus(Probed(e)) && live == LivenessOf(e);
      PlusTimeouts(before, Probed(e));
      StillAfter(before, e);
      if live.Failed? {
        Erred(now);
        return Failed(live.why);
      }
      if !live.value {
        return Done(());
      }
      r := SendDue(signal);
    }

    /** The signal itself, to a group just seen alive. */
    method SendDue(signal: Signal) returns (r: Result<()>)
      requires Valid() && returncode.None? && Due(now) == Some(signal) && Waited(true) !in now.deeds && |now.deeds| > 2
      modifies this
      ensures Valid() && returncode.None? && Aged() && Onward() && sent == old(sent) + [Sent(signal, true)]
      ensures Still(now) && Waited(true) !in now.deeds && Timeouts(now.deeds) == Timeouts(old(now).deeds)
      ensures r.Failed? ==> Ended(now)
    {
      hide SignalsIn, Timeouts, Still, Follows, Valid, Due, Pending;
      ghost var before := now;
      var answer := Deliver(signal);
      PlusTimeouts(before, Signalled(signal, answer));
      StillSignalled(before, signal, answer);
      ghost var told := now;
      match answer
      case Success => return Done(());
      case OtherError =>
        NotDelivered(now);
        return Failed(CleanupFailed);
      case _ =>
        StillMeans(now);
        var live := HasLiveMembers();
        ghost var again :| now == told.Plus(Probed(again)) && live == LivenessOf(again);
        PlusTimeouts(told, Probed(again));
        StillProbe(told, again);
        if live.Failed? || live.value {
          StillThere(now);
          return Failed(CleanupFailed);
        }
        return Done(());
    }

    lemma PlusTimeouts(c: Call, d: Deed)
      ensures Timeouts(c.Plus(d).deeds) == Timeouts(c.deeds) + (if d == Waited(false) then 1 else 0)
    {
      assert c.Plus(d).deeds[..|c.deeds|] == c.deeds;
    }

    /** Only a sight of life makes a signal due. */
    lemma StillAfter(c: Call, e: Errno)
      requires Still(c.Plus(Probed(NoSuchProcess)))
      ensures !e.Success? ==> Still(c.Plus(Probed(e)))
    {
      PlusTimeouts(c, Probed(e));
      PlusTimeouts(c, Probed(NoSuchProcess));
    }

    lemma StillSignalled(c: Call, signal: Signal, e: Errno)
      requires Due(c) == Some(signal)
      ensures Still(c.Plus(Signalled(signal, e)))
    {
    }

    lemma NotDelivered(c: Call)
      requires Still(c) && c.deeds != [] && c.deeds[|c.deeds| - 1].Signalled?
      requires !c.deeds[|c.deeds| - 1].outcome.Success?
      requires |c.deeds| > 2 ==> c.deeds[|c.deeds| - 1].outcome.OtherError?
      ensures Ended(c)
    {
    }

    lemma StillThere(c: Call)
      requires Still(c) && |c.deeds| > 2 && c.deeds[|c.deeds| - 1].Probed?
      requires c.deeds[|c.deeds| - 1].answer.Success? || c.deeds[|c.deeds| - 1].answer.OtherError?
      ensures Ended(c)
    {
    }

    /** Reap the leader, then see the group gone: the common end of both
        operations below. */
    method ReapAndConfirm(kill: bool) returns (r: Result<int>)
      requires Valid() && Still(now) && Waited(true) in now.deeds && now.order != Nothing
      requires kill == (now.order == Request(true))
      modifies this
      ensures Valid() && sent == old(sent) && Aged() && Onward() && !Pending(now)
      ensures Timeouts(now.deeds) == Timeouts(old(now).deeds)
      ensures r.Done? ==> Retired() && returncode == Some(r.value)
      ensures now.deeds != [] && (r.Done? <==> now.deeds[|now.deeds| - 1] == Probed(NoSuchProcess))
      ensures r.Done? && kill ==> r.value == -9
    {
      hide Still, Due, Timeouts, SignalsIn, Follows, Pending;
      var status := WaitFor();
      NoStatus(now);
      if status.None? {
        return Failed(CleanupFailed);
      }
      if kill && status.value != -9 {
        return Failed(SignalFailed);
      }
      ghost var seen := now.deeds;
      var absent := WaitAbsent();
      assert Collects(now.deeds) by {
        assert now.deeds[|seen| - 1].Collected?;
      }
      AllSeen(now);
      if absent.Failed? || !absent.value {
        return Failed(CleanupFailed);
      }
      return Done(status.value);
    }

    /** After the requested signal: wait, and escalate while the group lives. */
    method Quell(kill: bool) returns (r: Result<bool>)
      requires Valid() && returncode.None? && now == Call(Request(kill), [Asked(Own), Signalled(Named(kill), Success)])
      modifies this
      ensures Valid() && returncode.None? && Aged() && Onward() && (r != Done(true) ==> Ended(now))
      ensures Escalated(old(sent), sent, QuellPlans(kill))
      ensures r.Done? ==> now.deeds[|now.deeds| - 1] == Waited(r.value) && (r.value ==> Still(now))
    {
      hide SignalsIn, Follows, Valid, Due, Still, Timeouts, Pending, Escalated, QuellPlans;
      QuellPlan(sent, sent, sent, kill);
      AtFirst(kill);
      r := WaitQuiescent();
      if r.Failed? || r.value {
        return;
      }
      if kill {
        RanOut(now);
        var s := SendCleanup(Term);
        QuellPlan(old(sent), sent, sent, kill);
        if s.Failed? {
          return Failed(s.why);
        }
        r := WaitQuiescent();
        if r.Failed? || r.value {
          return;
        }
      }
      ghost var told := sent;
      r := KillLast();
      QuellPlan(old(sent), told, sent, kill);
    }

    /** The last resort of a request. */
    method KillLast() returns (r: Result<bool>)
      requires Valid() && returncode.None? && now.order.Request? && Waited(true) !in now.deeds
      requires |now.deeds| > 1 && now.deeds[|now.deeds| - 1] == Waited(false)
      requires Timeouts(now.deeds) == if now.order.kill then 2 else 1
      modifies this
      ensures Valid() && returncode.None? && Aged() && Onward() && (r != Done(true) ==> Ended(now))
      ensures sent == old(sent) || sent == old(sent) + [Sent(Kill, true)]
      ensures r.Done? ==>
                && now.deeds != [] && now.deeds[|now.deeds| - 1] == Waited(r.value)
                && (r.value ==> Still(now))
    {
      hide SignalsIn, Follows, Valid, Due, Still, Timeouts, Pending;
      RanOut(now);
      var s := SendCleanup(Kill);
      if s.Failed? {
        return Failed(s.why);
      }
      r := WaitQuiescent();
      if r == Done(false) {
        LastResort(now);
      }
    }

    static function Named(kill: bool): Signal { if kill then Kill else Term }

    lemma RequestStart(kill: bool)
      ensures !Pending(Call(Request(kill), [])) && Due(Call(Request(kill), [])).None?
    {
    }

    lemma RequestAsked(kill: bool, i: Identity)
      ensures var c := Call(Request(kill), [Asked(i)]);
              if i.Own? then Due(c) == Some(Named(kill)) else Due(c).None? && !Pending(c)
    {
    }

    lemma AtFirst(kill: bool)
      ensures var c := Call(Request(kill), [Asked(Own), Signalled(Named(kill), Success)]);
              Still(c) && Waited(true) !in c.deeds && Timeouts(c.deeds) == 0
    {
      var c := Call(Request(kill), [Asked(Own)]);
      PlusTimeouts(Call(Request(kill), []), Asked(Own));
      PlusTimeouts(c, Signalled(Named(kill), Success));
      assert c.Plus(Signalled(Named(kill), Success)).deeds == [Asked(Own), Signalled(Named(kill), Success)];
      assert Call(Request(kill), []).Plus(Asked(Own)).deeds == [Asked(Own)];
    }

    /** After a wait that ran out, one more sight of life makes a signal due. */
    lemma RanOut(c: Call)
      requires c.deeds != [] && c.deeds[|c.deeds| - 1] == Waited(false) && !c.order.Nothing?
      requires c.order.Terminate? ==> |c.deeds| >= 3
      ensures Due(c).None? && Still(c.Plus(Probed(NoSuchProcess)))
      ensures var n, next := Timeouts(c.deeds), Due(c.Plus(Probed(Success)));
              && (c.order.Terminate? && n == 1 ==> next == Some(Kill))
              && (c.order == Request(false) && n == 1 ==> next == Some(Kill))
              && (c.order == Request(true) && n == 1 ==> next == Some(Term))
              && (c.order == Request(true) && n == 2 ==> next == Some(Kill))
    {
      PlusTimeouts(c, Probed(NoSuchProcess));
      PlusTimeouts(c, Probed(Success));
    }

    /** `_signal_provider`. */
    method SignalProvider(kill: bool) returns (r: Result<int>)
      requires Valid()
      modifies this
      ensures Valid() && Aged() && Called(Request(kill)) && !Pending(now)
      ensures r.Done? ==> Retired() && returncode == Some(r.value) && old(returncode).None?
      ensures r.Done? <==> now.deeds != [] && now.deeds[|now.deeds| - 1] == Probed(NoSuchProcess)
      ensures old(returncode).None? ==> now.deeds != [] && now.deeds[0].Asked?
      ensures old(returncode).Some? ==> r == Failed(SignalFailed)
      ensures Escalated(old(sent), sent, SignalPlans(kill))
      ensures r.Done? ==> sent != old(sent) && (kill ==> r.value == -9)
    {
      hide SignalsIn, Follows, Timeouts, Valid, Due, Pending, QuellPlans, SignalPlans, Escalated, Still;
      NoneSent(sent, kill);
      Begin(Request(kill));
      RequestStart(kill);
      if returncode.Some? {
        return Failed(SignalFailed);
      }
      var i := GroupIdentity();
      assert now.deeds == [Asked(i)];
      RequestAsked(kill, i);
      if !i.Own? {
        return Failed(SignalFailed);
      }
      var e := Deliver(Named(kill));
      assert now.deeds == [Asked(Own), Signalled(Named(kill), e)];
      QuellPlan(sent, sent, sent, kill);
      PlanAfter(old(sent), kill, sent);
      if !e.Success? {
        Refused(kill, e);
        return Failed(SignalFailed);
      }
      r := QuellAndReap(kill);
      PlanAfter(old(sent), kill, sent);
    }

    lemma Refused(kill: bool, e: Errno)
      requires !e.Success?
      ensures !Pending(Call(Request(kill), [Asked(Own), Signalled(Named(kill), e)]))
    {
    }

    /** The rest of `_signal_provider`, once the signal is delivered. */
    method QuellAndReap(kill: bool) returns (r: Result<int>)
      requires Valid() && returncode.None?
      requires now == Call(Request(kill), [Asked(Own), Signalled(Named(kill), Success)])
      modifies this
      ensures Valid() && Aged() && Onward() && !Pending(now)
      ensures r.Done? ==> Retired() && returncode == Some(r.value)
      ensures now.deeds != [] && (r.Done? <==> now.deeds[|now.deeds| - 1] == Probed(NoSuchProcess))
      ensures Escalated(old(sent), sent, QuellPlans(kill))
      ensures r.Done? && kill ==> r.value == -9
    {
      hide SignalsIn, Follows, Due, Still, Timeouts, Pending, Escalated, QuellPlans, Valid, Fits;
      var quiet := Quell(kill);
      if quiet.Failed? {
        return Failed(quiet.why);
      }
      if !quiet.value {
        return Failed(CleanupFailed);
      }
      r := ReapAndConfirm(kill);
    }

    /** `_terminate_provider`: returns normally only once the leader is reaped
        and the group is gone; the result says whether it had to signal. */
    method TerminateProvider() returns (r: Result<bool>)
      requires Valid()
      modifies this
      ensures Valid() && Aged() && Called(Terminate) && Follows(now) && !Pending(now)
      ensures r.Done? ==> Retired()
      ensures r == Done(false) ==> |sent| == |old(sent)|
      ensures old(returncode).Some? ==> sent == old(sent)
      ensures old(returncode).None? ==> now.deeds != [] && now.deeds[0].Asked?
      ensures r.Done? <==> now.deeds != [] && now.deeds[|now.deeds| - 1] == Probed(NoSuchProcess)
      ensures r.Done? ==> (r.value <==> Forced(now))
      ensures r.Done? && old(returncode).None? && now.deeds[0] == Asked(Own) ==> Waited(true) in now.deeds
      ensures Escalated(old(sent), sent, TERMINATE_PLANS)
    {
      hide SignalsIn, Timeouts, Follows, Due, Still, Pending, Valid, Escalated, Live;
      NothingTerminated(sent);
      Begin(Terminate);
      if returncode.Some? {
        r := ConfirmGone();
      } else {
        r := TerminateUnreaped();
      }
      ValidFollows();
    }

    /** A leader already reaped: only the absence of its group is awaited. */
    method ConfirmGone() returns (r: Result<bool>)
      requires Valid() && returncode.Some? && now == Call(Terminate, [])
      modifies this
      ensures Valid() && Aged() && Onward() && sent == old(sent) && !Pending(now)
      ensures now.deeds != [] && (r.Done? <==> now.deeds[|now.deeds| - 1] == Probed(NoSuchProcess))
      ensures r.Done? ==> r == Done(false) && Retired() && now.deeds[0].Probed?
    {
      hide SignalsIn, Timeouts, Follows, Due, Still, Pending;
      Starting();
      var absent := WaitAbsent();
      NotOurs(now);
      if absent.Failed? || !absent.value {
        return Failed(CleanupFailed);
      }
      return Done(false);
    }

    /** A leader not yet reaped: whose its group is decides. */
    method TerminateUnreaped() returns (r: Result<bool>)
      requires Valid() && returncode.None? && now == Call(Terminate, [])
      modifies this
      ensures Valid() && Aged() && Onward() && !Pending(now)
      ensures r.Done? ==> Retired()
      ensures r == Done(false) ==> |sent| == |old(sent)|
      ensures now.deeds != [] && now.deeds[0].Asked?
      ensures r.Done? <==> now.deeds[|now.deeds| - 1] == Probed(NoSuchProcess)
      ensures r.Done? && now.deeds[0] != Asked(Own) ==> !r.value
      ensures r.Done? && now.deeds[0] == Asked(Own) ==>
                && Waited(true) in now.deeds && |now.deeds| > 1
                && (r.value <==> Live(now.deeds[1]) || Timeouts(now.deeds) > 0)
      ensures Escalated(old(sent), sent, TERMINATE_PLANS)
    {
      hide SignalsIn, Timeouts, Follows, Due, Still, Pending, Valid, Escalated, Live;
      NothingTerminated(sent);
      Starting();
      var i := GroupIdentity();
      assert now.deeds == [Asked(i)];
      Identified(i);
      match i
      case Foreign => return Failed(CleanupFailed);
      case Unreadable => return Failed(CleanupFailed);
      case Missing => r := ConfirmMissing();
      case Own => r := TerminateGroup();
    }

    lemma ValidFollows()
      requires Valid()
      ensures Follows(now) && (returncode.Some? ==> leader.Reaped?)
    {
    }

    lemma Starting()
      ensures Due(Call(Terminate, [])).None? && Still(Call(Terminate, []))
    {
    }

    lemma Identified(i: Identity)
      ensures var c := Call(Terminate, [Asked(i)]);
              Due(c).None? && (!i.Own? ==> Still(c)) && (!i.Own? && !i.Missing? ==> !Pending(c))
    {
    }

    /** The probes of a group that is not ours to signal may end at any time. */
    lemma NotOurs(c: Call)
      requires Still(c) && c.deeds != [] && c.deeds[0] != Asked(Own) && c.deeds[|c.deeds| - 1].Probed?
      ensures !Pending(c)
    {
    }

    /** A leader said to be missing must have a status, and its group be gone. */
    method ConfirmMissing() returns (r: Result<bool>)
      requires Valid() && now == Call(Terminate, [Asked(Missing)])
      modifies this
      ensures Valid() && Aged() && Onward() && sent == old(sent) && !Pending(now)
      ensures r.Done? <==> now.deeds[|now.deeds| - 1] == Probed(NoSuchProcess)
      ensures r.Done? ==> r == Done(false) && Retired()
    {
      hide SignalsIn, Timeouts, Follows, Due, Still, Pending;
      Identified(Missing);
      var status := Poll();
      StillCollected(now, status);
      Note(Collected(status));
      NoStatus(now);
      if status.None? {
        return Failed(CleanupFailed);
      }
      var absent := Absent();
      NotOurs(now);
      if absent.Failed? || !absent.value {
        return Failed(CleanupFailed);
      }
      return Done(false);
    }

    /** The signalling part of `_terminate_provider`. */
    method TerminateGroup() returns (r: Result<bool>)
      requires Valid() && returncode.None? && now == Call(Terminate, [Asked(Own)])
      modifies this
      ensures Valid() && Aged() && Onward() && !Pending(now)
      ensures r.Done? ==> Retired()
      ensures r == Done(false) ==> |sent| == |old(sent)|
      ensures now.deeds != [] && (r.Done? <==> now.deeds[|now.deeds| - 1] == Probed(NoSuchProcess))
      ensures r.Done? ==>
                && Waited(true) in now.deeds && |now.deeds| > 1
                && (r.value <==> Live(now.deeds[1]) || Timeouts(now.deeds) > 0)
      ensures Escalated(old(sent), sent, TERMINATE_PLANS)
    {
      hide SignalsIn, Follows, Valid, Due, Still, Timeouts, Pending;
      var forced := false;
      ghost var before := now;
      FirstLook(Success);
      var live := HasLiveMembers();
      ghost var e :| now == before.Plus(Probed(e)) && live == LivenessOf(e);
      FirstLook(e);
      if live.Failed? {
        Erred(now);
        return Failed(live.why);
      }
      if live.value {
        var s := SendCleanup(Term);
        if s.Failed? {
          return Failed(s.why);
        }
        forced := true;
      }
      r := EscalateAndReap(forced);
    }

    /** After TERM, or none: wait, KILL if the group is still alive, reap. */
    method EscalateAndReap(told: bool) returns (r: Result<bool>)
      requires Valid() && returncode.None? && now.order.Terminate? && |now.deeds| > 1
      requires Still(now) && Waited(true) !in now.deeds && Timeouts(now.deeds) == 0
      modifies this
      ensures Valid() && Aged() && Onward() && !Pending(now)
      ensures r.Done? <==> now.deeds[|now.deeds| - 1] == Probed(NoSuchProcess)
      ensures r.Done? ==> Retired() && Waited(true) in now.deeds && (r.value <==> told || Timeouts(now.deeds) > 0)
      ensures sent == old(sent) || sent == old(sent) + [Sent(Kill, true)]
      ensures r == Done(false) ==> sent == old(sent)
    {
      hide SignalsIn, Follows, Valid, Due, Still, Timeouts, Pending;
      var forced := told;
      var quiet := WaitQuiescent();
      if quiet.Failed? {
        return Failed(quiet.why);
      }
      if !quiet.value {
        RanOut(now);
        var s := SendCleanup(Kill);
        if s.Failed? {
          return Failed(s.why);
        }
        forced := true;
        quiet := WaitQuiescent();
        if quiet.Failed? {
          return Failed(quiet.why);
        }
      }
      if !quiet.value {
        LastResort(now);
        return Failed(CleanupFailed);
      }
      var done := ReapAndConfirm(false);
      if done.Failed? {
        return Failed(done.why);
      }
      return Done(forced);
    }

    lemma FirstLook(e: Errno)
      ensures var c := Call(Terminate, [Asked(Own)]).Plus(Probed(e));
              && Due(Call(Terminate, [Asked(Own)])).None?
              && Due(c).None? && Waited(true) !in c.deeds && Timeouts(c.deeds) == 0
              && (!e.Success? ==> Still(c))
              && (e.Success? ==> Due(c.Plus(Probed(Success))) == Some(Term) && Still(c.Plus(Probed(NoSuchProcess))))
    {
      hide Timeouts;
      NoTimeouts();
      PlusTimeouts(Call(Terminate, [Asked(Own)]), Probed(e));
    }

    lemma NoTimeouts()
      ensures Timeouts([Asked(Own)]) == 0
    {
      assert [Asked(Own)][..0] == [];
    }
  }
}
