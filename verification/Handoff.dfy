/** The supervisor's handle table and the controller's mirror of it, kept
    together by request-reply exchanges over the sequenced session. */
module Handoff {
  import opened Bytes
  import opened Wire
  import opened Session
  import PG = ProcessGroup

  const MAX_LIVE: nat := 8
  const MAX_HANDLE: int := 0xFFFF_FFFF

  /** A provider as the supervisor holds it; the status is set once reaped. */
  datatype Provider = Provider(pid: int, returncode: Option<int>)

  datatype Table = Table(providers: map<int, Provider>, nextHandle: int)

  /** What the operating system answers while one request is served: the pid
      of a new child, a status found by polling, whether the group is gone,
      the status after a signal, whether termination succeeded, whether the
      leases hold. */
  datatype Answers = Answers(
    spawned: Option<int>, polled: Option<int>, groupGone: bool, signalled: Option<int>, terminated: bool, leased: bool)

  datatype Served = Reply(state: Table, message: Message) | Raise

  // ----- the supervisor -----

  function Known(p: Provider, k: Answers): Option<int> {
    if p.returncode.Some? then p.returncode else k.polled
  }

  function StatusMessage(r: Record, status: Option<int>): Message {
    if status.None? then Message(Running, r.sequence, r.handle, 0, [], 0)
    else Message(Exited, r.sequence, r.handle, status.value, [], 0)
  }

  predicate NamesProvider(s: Table, r: Record) {
    r.payload == [] && r.descriptors == 0 && r.handle != 0 && r.handle in s.providers
  }

  function Keep(s: Table, h: int, status: Option<int>): Table
    requires h in s.providers
  {
    s.(providers := s.providers[h := s.providers[h].(returncode := status)])
  }

  function ServeSpawn(s: Table, r: Record, k: Answers): Served {
    if r.handle != 0 || r.value != 0 || DecodePayload(r.payload).None? then Raise
    else if s.nextHandle > MAX_HANDLE || |s.providers| >= MAX_LIVE then Raise
    else if k.spawned.None? || k.spawned.value <= 1 then Raise
    else
      Reply(Table(s.providers[s.nextHandle := Provider(k.spawned.value, None)], s.nextHandle + 1),
            Message(Spawned, r.sequence, s.nextHandle, k.spawned.value, [], 2))
  }

  function ServeStatus(s: Table, r: Record, k: Answers): Served
    requires r.kind.Poll? || r.kind.Wait?
  {
    if !NamesProvider(s, r) then Raise
    else if r.kind.Poll? && r.value != 0 then Raise
    else if r.kind.Wait? && (!(1 <= r.value <= 1000) || !k.leased) then Raise
    else
      var status := Known(s.providers[r.handle], k);
      if r.kind.Poll? && status.Some? && !k.groupGone then Raise
      else Reply(Keep(s, r.handle, status), StatusMessage(r, status))
  }

  function ServeSignal(s: Table, r: Record, k: Answers): Served
    requires r.kind.Term? || r.kind.Kill?
  {
    if !NamesProvider(s, r) || r.value != 0 then Raise
    else if s.providers[r.handle].returncode.Some? || k.signalled.None? then Raise
    else if r.kind.Kill? && k.signalled.value != -9 then Raise
    else Reply(Keep(s, r.handle, k.signalled), StatusMessage(r, k.signalled))
  }

  function ServeClose(s: Table, r: Record, k: Answers): Served {
    if !NamesProvider(s, r) || r.value != 0 || !k.terminated then Raise
    else
      var status := Known(s.providers[r.handle], k);
      if status.None? then Raise
      else Reply(s.(providers := s.providers - {r.handle}), Message(Closed, r.sequence, r.handle, status.value, [], 0))
  }

  function ServeFinish(s: Table, r: Record): Served {
    if r.handle != 0 || r.value != 0 || r.payload != [] || s.providers != map[] then Raise
    else Reply(s, Message(Finished, r.sequence, 0, 0, [], 0))
  }

  /** One turn of `serve` on a received request. */
  function Serve(s: Table, r: Record, k: Answers): Served {
    if r.descriptors != 0 || r.correlation != 0 then Raise
    else
      match r.kind
      case Spawn => ServeSpawn(s, r, k)
      case Poll => ServeStatus(s, r, k)
      case Wait => ServeStatus(s, r, k)
      case Term => ServeSignal(s, r, k)
      case Kill => ServeSignal(s, r, k)
      case Close => ServeClose(s, r, k)
      case Finish => ServeFinish(s, r)
      case _ => Raise
  }

  // ----- the controller -----

  /** Handles of live remote processes with the status each has seen. */
  datatype Proxy = Proxy(processes: map<int, Option<int>>, finished: bool)

  /** Calls that go to the wire: `spawn`, the status calls of a process that
      has no status yet, `_close_process` and `finish`. */
  datatype Call =
    | SpawnCall(arguments: seq<seq<byte>>)
    | StatusCall(kind: Kind, handle: int, value: int)
    | CloseCall(handle: int)
    | FinishCall

  function Request(c: Call): Message {
    match c
    case SpawnCall(args) => Message(Spawn, 0, 0, 0, ArgumentPayload(args), 0)
    case StatusCall(kind, h, v) => Message(kind, 0, h, v, [], 0)
    case CloseCall(h) => Message(Close, 0, h, 0, [], 0)
    case FinishCall => Message(Finish, 0, 0, 0, [], 0)
  }

  /** What the proxy checks before it sends. */
  predicate Sendable(p: Proxy, c: Call) {
    && !p.finished
    && match c
       case SpawnCall(args) => ValidArguments(args)
       case StatusCall(kind, h, _) =>
         (kind.Poll? || kind.Wait? || kind.Term? || kind.Kill?) && h in p.processes && p.processes[h].None?
       case CloseCall(h) => h in p.processes
       case FinishCall => p.processes == map[]
  }

  /** The proxy's state after a reply it accepts; `None` when it raises. */
  function Absorb(p: Proxy, c: Call, r: Record): Option<Proxy> {
    match c
    case SpawnCall(_) =>
      if r.kind.Spawned? && r.handle != 0 && 1 < r.value <= 0x7FFF_FFFF && r.payload == [] && r.descriptors == 2
      then Some(p.(processes := p.processes[r.handle := None])) else None
    case StatusCall(_, h, _) =>
      if r.descriptors != 0 || r.handle != h || r.payload != [] then None
      else if r.kind.Running? && r.value == 0 then Some(p)
      else if r.kind.Exited? && -255 <= r.value <= 255 then Some(p.(processes := p.processes[h := Some(r.value)]))
      else None
    case CloseCall(h) =>
      if r.descriptors == 0 && r.kind.Closed? && r.handle == h && r.payload == [] && -255 <= r.value <= 255
      then Some(p.(processes := p.processes - {h})) else None
    case FinishCall =>
      if r.descriptors == 0 && r.kind.Finished? && r.handle == 0 && r.value == 0 && r.payload == []
      then Some(p.(finished := true)) else None
  }

  // ----- both sides, one exchange at a time -----

  /** `issued` lists the handles given out, `exits` every status reported, by
      handle; both are history. */
  datatype Joint = Joint(
    supervisor: Table, proxy: Proxy, near: Endpoint, far: Endpoint, issued: seq<int>, exits: map<int, int>)

  function Start(session: seq<byte>): Joint {
    Joint(Table(map[], 1), Proxy(map[], false),
          Endpoint(Controller, Some(session), 1, 1, false), Endpoint(Role.Supervisor, Some(session), 1, 1, false),
          [], map[])
  }

  datatype Exchanged = Completed(state: Joint, reply: Record) | Broken

  function Noted(s: Joint, sup: Table, p: Proxy, near: Endpoint, far: Endpoint, r: Record): Joint {
    Joint(sup, p, near, far,
           if r.kind.Spawned? then s.issued + [r.handle] else s.issued,
           if r.kind.Exited? then s.exits[r.handle := r.value] else s.exits)
  }

  /** A whole exchange: request out, served, reply back. Any check that fails
      on either side breaks it. */
  function Exchange(s: Joint, c: Call, k: Answers): Exchanged {
    if !Sendable(s.proxy, c) || !Sends(s.near, Request(c), true) then Broken
    else
      var request := Stamp(s.near, Request(c));
      if !Accepts(s.far, request, false) then Broken
      else
        var far := AfterReceive(s.far, request);
        match Serve(s.supervisor, request, k)
        case Raise => Broken
        case Reply(sup, message) =>
          if !Sends(far, message, true) then Broken
          else
            var reply := Stamp(far, message);
            var near := AfterSend(s.near);
            if !Accepts(near, reply, false) || reply.correlation != request.sequence then Broken
            else
              match Absorb(s.proxy, c, reply)
              case None => Broken
              case Some(p) => Completed(Noted(s, sup, p, AfterReceive(near, reply), AfterSend(far), reply), reply)
  }

  datatype Step = Step(call: Call, answers: Answers)

  /** The state after a run in which every exchange completed. */
  function Run(session: seq<byte>, steps: seq<Step>): Option<Joint> {
    if steps == [] then Some(Start(session))
    else
      match Run(session, steps[..|steps| - 1])
      case None => None
      case Some(s) =>
        match Exchange(s, steps[|steps| - 1].call, steps[|steps| - 1].answers)
        case Broken => None
        case Completed(s', _) => Some(s')
  }

  // ----- agreement -----

  predicate Counting(issued: seq<int>, next: int) {
    |issued| == next - 1 && forall i | 0 <= i < |issued| :: issued[i] == i + 1
  }

  predicate Inv(s: Joint) {
    && s.proxy.processes.Keys == s.supervisor.providers.Keys
    && s.supervisor.nextHandle >= 1
    && (forall h | h in s.supervisor.providers :: 1 <= h < s.supervisor.nextHandle)
    && |s.supervisor.providers| <= MAX_LIVE
    && Counting(s.issued, s.supervisor.nextHandle)
    && (forall h | h in s.exits :: 1 <= h < s.supervisor.nextHandle)
    && (forall h | h in s.exits && h in s.supervisor.providers ::
          s.supervisor.providers[h].returncode == Some(s.exits[h]))
    && (forall h | h in s.proxy.processes && s.proxy.processes[h].Some? ::
          h in s.exits && s.proxy.processes[h].value == s.exits[h])
    && (s.proxy.finished ==> s.supervisor.providers == map[])
  }

  lemma StartInv(session: seq<byte>)
    ensures Inv(Start(session))
  {
  }

  /** What a completed exchange did, by call. */
  lemma ExchangeCases(s: Joint, c: Call, k: Answers)
    requires Exchange(s, c, k).Completed?
    ensures var s', r := Exchange(s, c, k).state, Exchange(s, c, k).reply;
            && !s.proxy.finished
            && (c.SpawnCall? ==>
                  && r.kind.Spawned? && r.handle == s.supervisor.nextHandle
                  && |s.supervisor.providers| < MAX_LIVE
                  && s'.supervisor == Table(s.supervisor.providers[r.handle := Provider(r.value, None)], r.handle + 1)
                  && s'.proxy == s.proxy.(processes := s.proxy.processes[r.handle := None]))
            && (c.StatusCall? ==>
                  && r.handle == c.handle && c.handle in s.supervisor.providers
                  && (r.kind.Running? || r.kind.Exited?)
                  && (var known := s.supervisor.providers[c.handle].returncode;
                      known.Some? ==> r.kind.Exited? && known.value == r.value)
                  && s'.supervisor == Keep(s.supervisor, c.handle, if r.kind.Exited? then Some(r.value) else None)
                  && s'.proxy == (if r.kind.Exited?
                                  then s.proxy.(processes := s.proxy.processes[c.handle := Some(r.value)])
                                  else s.proxy))
            && (c.CloseCall? ==>
                  && r.kind.Closed? && r.handle == c.handle && c.handle in s.supervisor.providers
                  && (var known := s.supervisor.providers[c.handle].returncode; known.Some? ==> known.value == r.value)
                  && s'.supervisor == s.supervisor.(providers := s.supervisor.providers - {c.handle})
                  && s'.proxy == s.proxy.(processes := s.proxy.processes - {c.handle}))
            && (c.FinishCall? ==>
                  && r.kind.Finished? && s.supervisor.providers == map[]
                  && s'.supervisor == s.supervisor && s'.proxy == s.proxy.(finished := true))
            && s'.issued == (if c.SpawnCall? then s.issued + [r.handle] else s.issued)
            && s'.exits == (if c.StatusCall? && r.kind.Exited? then s.exits[c.handle := r.value] else s.exits)
  {
    hide DecodePayload, ArgumentPayload, ValidArguments, Record.Valid;
  }

  lemma SpawnKeeps(s: Joint, c: Call, k: Answers)
    requires Inv(s) && c.SpawnCall? && Exchange(s, c, k).Completed?
    ensures Inv(Exchange(s, c, k).state)
  {
    hide Exchange;
    ExchangeCases(s, c, k);
    var s', h := Exchange(s, c, k).state, s.supervisor.nextHandle;
    assert s'.supervisor.providers.Keys == s.supervisor.providers.Keys + {h};
    assert s'.proxy.processes.Keys == s.proxy.processes.Keys + {h};
    assert |s'.supervisor.providers| == |s'.supervisor.providers.Keys| == |s.supervisor.providers.Keys| + 1;
  }

  lemma StatusKeeps(s: Joint, c: Call, k: Answers)
    requires Inv(s) && c.StatusCall? && Exchange(s, c, k).Completed?
    ensures Inv(Exchange(s, c, k).state)
  {
    hide Exchange;
    ExchangeCases(s, c, k);
    var s' := Exchange(s, c, k).state;
    assert s'.supervisor.providers.Keys == s.supervisor.providers.Keys;
    assert s'.proxy.processes.Keys == s.proxy.processes.Keys;
    assert |s'.supervisor.providers| == |s'.supervisor.providers.Keys|;
  }

  lemma CloseKeeps(s: Joint, c: Call, k: Answers)
    requires Inv(s) && c.CloseCall? && Exchange(s, c, k).Completed?
    ensures Inv(Exchange(s, c, k).state)
  {
    hide Exchange;
    ExchangeCases(s, c, k);
    var s' := Exchange(s, c, k).state;
    assert s'.supervisor.providers.Keys == s.supervisor.providers.Keys - {c.handle};
    assert s'.proxy.processes.Keys == s.proxy.processes.Keys - {c.handle};
    assert |s'.supervisor.providers| == |s'.supervisor.providers.Keys|;
  }

  /** Every completed exchange keeps the two tables together. */
  lemma ExchangeKeeps(s: Joint, c: Call, k: Answers)
    requires Inv(s) && Exchange(s, c, k).Completed?
    ensures Inv(Exchange(s, c, k).state)
  {
    hide Exchange;
    match c
    case SpawnCall(_) => SpawnKeeps(s, c, k);
    case StatusCall(_, _, _) => StatusKeeps(s, c, k);
    case CloseCall(_) => CloseKeeps(s, c, k);
    case FinishCall => ExchangeCases(s, c, k);
  }

  lemma {:induction false} RunInv(session: seq<byte>, steps: seq<Step>)
    requires Run(session, steps).Some?
    ensures Inv(Run(session, steps).value)
  {
    hide Exchange, Inv;
    if steps == [] {
      StartInv(session);
    } else {
      RunInv(session, steps[..|steps| - 1]);
      var s, t := Run(session, steps[..|steps| - 1]).value, steps[|steps| - 1];
      ExchangeKeeps(s, t.call, t.answers);
    }
  }

  /** After every completed exchange of every run the controller's handles are
      the supervisor's, at most eight are live, and the handles given out so
      far are 1, 2, 3, ... : none is ever reused. */
  lemma TablesAgree(session: seq<byte>, steps: seq<Step>)
    requires Run(session, steps).Some?
    ensures var s := Run(session, steps).value;
            && s.proxy.processes.Keys == s.supervisor.providers.Keys
            && |s.supervisor.providers| <= MAX_LIVE
            && Counting(s.issued, s.supervisor.nextHandle)
  {
    hide Run;
    RunInv(session, steps);
  }

  /** The status in CLOSED is any status reported for that handle before, so
      the controller's comparison of the two never fails. */
  lemma ClosedStatusAgrees(session: seq<byte>, steps: seq<Step>, c: Call, k: Answers)
    requires Run(session, steps).Some? && c.CloseCall?
    requires Exchange(Run(session, steps).value, c, k).Completed?
    ensures var s := Run(session, steps).value;
            var r := Exchange(s, c, k).reply;
            && (c.handle in s.exits ==> r.value == s.exits[c.handle])
            && (c.handle in s.proxy.processes && s.proxy.processes[c.handle].Some? ==>
                  s.proxy.processes[c.handle].value == r.value)
  {
    hide Run, Exchange;
    RunInv(session, steps);
    ExchangeCases(Run(session, steps).value, c, k);
  }

  /** FINISHED is only ever exchanged with both tables empty. */
  lemma FinishedMeansEmpty(session: seq<byte>, steps: seq<Step>, k: Answers)
    requires Run(session, steps).Some? && Exchange(Run(session, steps).value, FinishCall, k).Completed?
    ensures var s := Run(session, steps).value;
            s.supervisor.providers == map[] && s.proxy.processes == map[]
  {
    hide Run, Exchange;
    RunInv(session, steps);
    ExchangeCases(Run(session, steps).value, FinishCall, k);
    assert Run(session, steps).value.proxy.processes.Keys == {};
  }

  // ----- when an exchange completes -----

  /** Both ends of the session have sent and received the same number. */
  predicate InStep(s: Joint, session: seq<byte>, n: int) {
    && 1 <= n <= 0xFFFF_FFFF_FFFF_FFFF
    && s.near == Endpoint(Controller, Some(session), n, n, false)
    && s.far == Endpoint(Role.Supervisor, Some(session), n, n, false)
    && s.supervisor.nextHandle <= 0x1_0000_0000
  }

  predicate Status8(status: int) { -255 <= status <= 255 }

  /** What the operating system and the table must allow for this call. */
  predicate Allowed(s: Table, c: Call, k: Answers) {
    match c
    case SpawnCall(_) =>
      && s.nextHandle <= 0xFFFF_FFFF && |s.providers| < 8
      && k.spawned.Some? && 1 < k.spawned.value <= 0x7FFF_FFFF
    case StatusCall(kind, h, v) =>
      && h in s.providers
      && if kind.Poll? || kind.Wait? then
           var status := if s.providers[h].returncode.Some? then s.providers[h].returncode else k.polled;
           && (if kind.Poll? then v == 0 else 1 <= v <= 1000 && k.leased)
           && (status.Some? ==> Status8(status.value) && (kind.Poll? ==> k.groupGone))
         else
           && v == 0 && s.providers[h].returncode.None? && k.signalled.Some? && Status8(k.signalled.value)
           && (kind.Kill? ==> k.signalled.value == -9)
    case CloseCall(h) =>
      && h in s.providers && k.terminated
      && var status := if s.providers[h].returncode.Some? then s.providers[h].returncode else k.polled;
         status.Some? && Status8(status.value)
    case FinishCall => s.providers == map[]
  }

  lemma {:induction false} RunInStep(session: seq<byte>, steps: seq<Step>)
    requires Run(session, steps).Some? && |session| == 32 && |steps| < 0xFFFF_FFFF_FFFF_FFFF
    ensures InStep(Run(session, steps).value, session, |steps| + 1)
  {
    hide Exchange, InStep;
    if steps == [] {
      StartInStep(session);
    } else {
      RunInStep(session, steps[..|steps| - 1]);
      var s, t := Run(session, steps[..|steps| - 1]).value, steps[|steps| - 1];
      ExchangeInStep(s, t.call, t.answers, session, |steps|);
    }
  }

  lemma StartInStep(session: seq<byte>)
    ensures InStep(Start(session), session, 1)
  {
  }

  lemma ExchangeInStep(s: Joint, c: Call, k: Answers, session: seq<byte>, n: int)
    requires InStep(s, session, n) && n < 0xFFFF_FFFF_FFFF_FFFF && Exchange(s, c, k).Completed?
    ensures InStep(Exchange(s, c, k).state, session, n + 1)
  {
    hide DecodePayload, ArgumentPayload, ValidArguments, Record.Valid;
  }

  lemma SpawnExactly(s: Joint, c: Call, k: Answers, session: seq<byte>, n: int)
    requires Inv(s) && InStep(s, session, n) && |session| == 32 && n < 0xFFFF_FFFF_FFFF_FFFF && c.SpawnCall?
    ensures Exchange(s, c, k).Completed? <==> Sendable(s.proxy, c) && Allowed(s.supervisor, c, k)
  {
    if ValidArguments(c.arguments) {
      ArgumentsDecodeEncode(c.arguments);
    }
    hide DecodePayload, ArgumentPayload, AllArguments;
  }

  lemma StatusExactly(s: Joint, c: Call, k: Answers, session: seq<byte>, n: int)
    requires Inv(s) && InStep(s, session, n) && |session| == 32 && n < 0xFFFF_FFFF_FFFF_FFFF && c.StatusCall?
    ensures Exchange(s, c, k).Completed? <==> Sendable(s.proxy, c) && Allowed(s.supervisor, c, k)
  {
    hide DecodePayload, ArgumentPayload, AllArguments, Counting;
  }

  lemma CloseExactly(s: Joint, c: Call, k: Answers, session: seq<byte>, n: int)
    requires Inv(s) && InStep(s, session, n) && |session| == 32 && n < 0xFFFF_FFFF_FFFF_FFFF
    requires c.CloseCall? || c.FinishCall?
    ensures Exchange(s, c, k).Completed? <==> Sendable(s.proxy, c) && Allowed(s.supervisor, c, k)
  {
    hide DecodePayload, ArgumentPayload, AllArguments, Counting;
    assert s.supervisor.providers == map[] <==> s.supervisor.providers.Keys == {};
    assert s.proxy.processes == map[] <==> s.proxy.processes.Keys == {};
  }

  /** In every run an exchange completes exactly when the proxy may make the
      call and the table and the operating system allow it: no check on either
      side refuses a well-formed request or its reply. */
  lemma ExchangeExactly(session: seq<byte>, steps: seq<Step>, c: Call, k: Answers)
    requires Run(session, steps).Some? && |session| == 32 && |steps| < 0xFFFF_FFFF_FFFF_FFFE
    ensures var s := Run(session, steps).value;
            Exchange(s, c, k).Completed? <==> Sendable(s.proxy, c) && Allowed(s.supervisor, c, k)
  {
    hide Exchange, Inv, InStep, Run, Sendable, Allowed;
    var s := Run(session, steps).value;
    RunInv(session, steps);
    RunInStep(session, steps);
    match c
    case SpawnCall(_) => SpawnExactly(s, c, k, session, |steps| + 1);
    case StatusCall(_, _, _) => StatusExactly(s, c, k, session, |steps| + 1);
    case _ => CloseExactly(s, c, k, session, |steps| + 1);
  }

  // ----- the classes -----

  function Lift(o: PG.Option<int>): Option<int> {
    if o.Some? then Some(o.value) else None
  }

  /** How far the calls on a provider have got. */
  datatype Mark = Mark(past: seq<PG.Call>, now: PG.Call, size: nat)

  ghost predicate Listed(table: map<int, PG.Provider>, p: PG.Provider) {
    exists h | h in table :: table[h] == p
  }

  datatype Outcome = Done | Aborted

  /** `ProviderSupervisor`. `started` are all children ever spawned, `owned`
      those that ever got a handle. */
  class ProviderSupervisor {
    var providers: map<int, PG.Provider>
    var nextHandle: int
    ghost var owned: set<PG.Provider>
    ghost var started: set<PG.Provider>

    ghost predicate Valid()
      reads this, started
    {
      && nextHandle >= 1 && owned <= started
      && (forall h | h in providers :: providers[h] in owned && 0 < h < nextHandle)
      && (forall h, g | h in providers && g in providers && providers[h] == providers[g] :: h == g)
      && (forall p | p in started :: p.Valid())
      // A provider outside the table was dropped only once retired.
      && (forall p | p in owned :: p.Retired() || Listed(providers, p))
    }

    /** The handle table as the protocol sees it. */
    function View(): Table
      reads this, providers.Values
    {
      Table(map h | h in providers :: Provider(providers[h].pid, Lift(providers[h].returncode)), nextHandle)
    }

    constructor ()
      ensures Valid() && View() == Table(map[], 1) && started == {}
    {
      providers, nextHandle := map[], 1;
      owned, started := {}, {};
    }

    /** Only providers we own change, and nothing is forgotten. */
    twostate predicate Grown()
      reads this
    {
      && old(owned) <= owned && fresh(owned - old(owned))
      && old(started) <= started && fresh(started - old(started))
    }

    /** `_spawn`: a child that does not lead its own group is terminated at
        once and never gets a handle. */
    method Start() returns (p: PG.Provider?)
      requires Valid()
      modifies this
      ensures Valid() && Grown()
      ensures p == null ==> providers == old(providers) && nextHandle == old(nextHandle)
      ensures p != null ==>
                && fresh(p) && p.pid > 1 && p.returncode.None?
                && old(nextHandle) <= MAX_HANDLE && |old(providers)| < MAX_LIVE
                && providers == old(providers)[old(nextHandle) := p] && nextHandle == old(nextHandle) + 1
    {
      hide PG.Provider.Valid, PG.Pending, PG.Timeouts, PG.Escalated, PG.Provider.Called, PG.Provider.Aged, PG.Forced,
           PG.Follows;
      if nextHandle > MAX_HANDLE || |providers| >= MAX_LIVE {
        return null;
      }
      var spawns: bool := *;
      if !spawns {
        return null;
      }
      var pid: int := *;
      var child := new PG.Provider(pid);
      started := started + {child};
      var leads: bool := *;
      if pid <= 1 || !leads {
        var _ := child.TerminateProvider();
        return null;
      }
      Admit(child);
      return child;
    }

    /** A new child enters the table. */
    method Admit(child: PG.Provider)
      requires Valid() && child in started && child !in owned && child.Valid()
      modifies this
      ensures Valid() && started == old(started) && owned == old(owned) + {child}
      ensures providers == old(providers)[old(nextHandle) := child] && nextHandle == old(nextHandle) + 1
    {
      ghost var before := providers;
      owned := owned + {child};
      providers := providers[nextHandle := child];
      nextHandle := nextHandle + 1;
      forall q | q in owned ensures q.Retired() || Listed(providers, q) {
        if q == child {
          assert providers[nextHandle - 1] == child;
        } else if !q.Retired() {
          var h :| h in before && before[h] == q;
          assert providers[h] == q;
        }
      }
    }

    method Drop(handle: int)
      requires Valid() && handle in providers && providers[handle].Retired()
      modifies this
      ensures Valid() && owned == old(owned) && started == old(started)
      ensures providers == old(providers) - {handle} && nextHandle == old(nextHandle)
    {
      ghost var before := providers;
      providers := providers - {handle};
      forall q | q in owned ensures q.Retired() || Listed(providers, q) {
        if !q.Retired() {
          var h :| h in before && before[h] == q;
          assert h != handle && providers[h] == q;
        }
      }
    }

    /** What one provider's own methods may have done to it while nothing else
        changed. */
    twostate lemma OneAged(handle: int)
      requires old(Valid()) && handle in providers
      requires providers == old(providers) && nextHandle == old(nextHandle)
      requires owned == old(owned) && started == old(started)
      requires providers[handle].Valid() && providers[handle].Aged()
      requires forall p | p in started && p != providers[handle] :: unchanged(p)
      ensures Valid()
      ensures handle in old(View()).providers && View() == Keep(old(View()), handle, Lift(providers[handle].returncode))
    {
      hide PG.Provider.Valid;
      forall q | q in owned ensures q.Retired() || Listed(providers, q) {
        if q == providers[handle] {
        } else {
          assert unchanged(q);
          assert old(q.Retired()) ==> q.Retired();
        }
      }
      forall h | h in providers && h != handle ensures providers[h].returncode == old(providers[h].returncode) {
        assert providers[h] != providers[handle];
        assert unchanged(providers[h]);
      }
      assert View().providers == Keep(old(View()), handle, Lift(providers[handle].returncode)).providers;
    }

    /** The request was answered, or refused, as the protocol says for some
        answers of the operating system. */
    twostate predicate Follows(r: Record, new m: Option<Message>, new k: Answers)
      reads this, providers.Values
    {
      match Serve(old(View()), r, k)
      case Raise => m.None?
      case Reply(state, message) => m == Some(message) && View() == state
    }

    /** A status told to the controller is the one the leader died with. */
    twostate predicate Truthful(r: Record, new m: Option<Message>)
      reads this, started
    {
      m.Some? && (m.value.kind.Exited? || m.value.kind.Closed?) ==>
        && r.handle in old(providers) && old(providers)[r.handle] in started
        && old(providers)[r.handle].died == PG.Some(m.value.value)
    }

    /** SPAWN. */
    method ServeSpawnRequest(r: Record) returns (m: Option<Message>, ghost k: Answers)
      requires Valid() && r.kind.Spawn? && r.descriptors == 0 && r.correlation == 0
      modifies this
      ensures Valid() && Grown() && Follows(r, m, k)
      ensures m.Some? ==> m.value.kind.Spawned? && m.value.handle in providers
      ensures m.None? ==> providers == old(providers)
    {
      hide DecodePayload, Valid;
      k := Answers(None, None, false, None, false, false);
      if r.handle != 0 || r.value != 0 {
        return None, k;
      }
      var arguments := DecodeArguments(r.payload);
      if arguments.None? {
        return None, k;
      }
      var p := Start();
      if p == null {
        return None, k;
      }
      k := k.(spawned := Some(p.pid));
      ghost var seen := old(View()).providers;
      assert seen.Keys == old(providers).Keys;
      assert |seen| == |seen.Keys| == |old(providers)|;
      assert View().providers == seen[old(nextHandle) := Provider(p.pid, None)];
      return Some(Message(Spawned, r.sequence, nextHandle - 1, p.pid, [], 2)), k;
    }

    /** POLL: a found status is told only once the group is gone. */
    method ServePollRequest(r: Record) returns (m: Option<Message>, ghost k: Answers)
      requires Valid() && r.kind.Poll? && r.descriptors == 0 && r.correlation == 0
      modifies owned
      ensures Valid() && Follows(r, m, k) && Truthful(r, m)
      ensures m.Some? && m.value.kind.Exited? ==> r.handle in providers && providers[r.handle].Retired()
    {
      hide PG.Pending, PG.Follows, PG.Timeouts, PG.SignalsIn, DecodePayload;
      k := Answers(None, None, false, None, false, false);
      if !NamesProvider(View(), r) || r.value != 0 {
        return None, k;
      }
      var p := providers[r.handle];
      var status := p.Poll();
      k := k.(polled := Lift(status));
      var gone := true;
      if status.Some? {
        p.Begin(PG.Nothing);
        var absent := p.WaitAbsent();
        gone := absent == PG.Done(true);
      }
      k := k.(groupGone := gone);
      OneAged(r.handle);
      if !gone {
        return None, k;
      }
      return Some(StatusMessage(r, Lift(status))), k;
    }

    /** WAIT: poll until a status, a lost lease or the deadline. */
    method ServeWaitRequest(r: Record) returns (m: Option<Message>, ghost k: Answers)
      requires Valid() && r.kind.Wait? && r.descriptors == 0 && r.correlation == 0
      modifies owned
      ensures Valid() && Follows(r, m, k) && Truthful(r, m)
    {
      k := Answers(None, None, false, None, false, false);
      if !NamesProvider(View(), r) || !(1 <= r.value <= 1000) {
        return None, k;
      }
      var status, leased := PollUntil(r.handle);
      k := k.(polled := Lift(status), leased := leased);
      if !leased {
        return None, k;
      }
      return Some(StatusMessage(r, Lift(status))), k;
    }

    /** The polling loop of WAIT. */
    method PollUntil(handle: int) returns (status: PG.Option<int>, leased: bool)
      requires Valid() && handle in providers
      modifies owned
      ensures Valid() && View() == Keep(old(View()), handle, Lift(providers[handle].returncode))
      ensures leased ==> status == providers[handle].returncode
      ensures !leased ==> status.None?
      ensures handle in old(View()).providers && providers[handle].Aged()
      ensures forall q | q in started && q != providers[handle] :: unchanged(q)
    {
      hide PG.Provider.Valid;
      var p := providers[handle];
      var polls: nat := *;
      status, leased := PG.None, true;
      while polls > 0 && status.None? && leased
        invariant p.Valid() && p.Aged() && (status.Some? ==> p.returncode == status && leased)
        invariant forall q | q in started && q != p :: unchanged(q)
      {
        status := p.Poll();
        if status.None? {
          leased := *;
        }
        polls := polls - 1;
      }
      if leased && status.None? {
        status := p.Poll();
      }
      OneAged(handle);
    }

    /** `_signal_provider` of a handle. */
    method Signal(handle: int, kill: bool) returns (status: PG.Result<int>)
      requires Valid() && handle in providers
      modifies owned
      ensures Valid() && View() == Keep(old(View()), handle, Lift(providers[handle].returncode))
      ensures status.Done? ==>
                && providers[handle].Retired() && providers[handle].returncode == PG.Some(status.value)
                && old(providers[handle].returncode).None? && (kill ==> status.value == -9)
      ensures handle in old(View()).providers && providers[handle] in started
      ensures providers[handle].Called(PG.Request(kill)) && !PG.Pending(providers[handle].now)
      ensures PG.Follows(providers[handle].now)
      ensures status.Done? ==> providers[handle].died == providers[handle].returncode
      ensures forall q | q in started && q != providers[handle] :: unchanged(q)
    {
      hide PG.Pending, PG.Due, PG.Still, PG.Timeouts, PG.Escalated, PG.SignalsIn;
      var p := providers[handle];
      status := p.SignalProvider(kill);
      OneAged(handle);
    }

    /** TERM and KILL. */
    method ServeSignalRequest(r: Record) returns (m: Option<Message>, ghost k: Answers)
      requires Valid() && (r.kind.Term? || r.kind.Kill?) && r.descriptors == 0 && r.correlation == 0
      modifies owned
      ensures Valid() && Follows(r, m, k) && Truthful(r, m)
      ensures NamesProvider(old(View()), r) && r.value == 0 ==>
                && providers[r.handle].Called(PG.Request(r.kind.Kill?)) && !PG.Pending(providers[r.handle].now)
                && PG.Follows(providers[r.handle].now)
    {
      hide PG.Pending, PG.Follows, PG.Provider.Called, PG.Provider.Valid, DecodePayload;
      k := Answers(None, None, false, None, false, false);
      if !NamesProvider(View(), r) || r.value != 0 {
        return None, k;
      }
      var status := Signal(r.handle, r.kind.Kill?);
      if status.Failed? {
        return None, k;
      }
      k := k.(signalled := Some(status.value));
      return Some(StatusMessage(r, Some(status.value))), k;
    }

    /** CLOSE drops a handle only when its leader is reaped and its group is
        gone. */
    method ServeCloseRequest(r: Record) returns (m: Option<Message>, ghost k: Answers)
      requires Valid() && r.kind.Close? && r.descriptors == 0 && r.correlation == 0
      modifies this, owned
      ensures Valid() && Grown() && started == old(started) && Follows(r, m, k) && Truthful(r, m)
      ensures m.Some? ==> r.handle in old(providers) && old(providers)[r.handle].Retired()
      ensures m.None? ==> providers == old(providers)
      ensures NamesProvider(old(View()), r) && r.value == 0 ==>
                r.handle in old(providers) && Terminated(old(providers)[r.handle])
    {
      hide Serve, Valid;
      k := Answers(None, None, false, None, false, false);
      CloseAnswer(View(), r, k);
      if !NamesProvider(View(), r) || r.value != 0 {
        return None, k;
      }
      var status := Terminate(r.handle);
      if status.None? {
        return None, k;
      }
      k := k.(terminated := true, polled := Lift(status));
      CloseAnswer(old(View()), r, k);
      ghost var seen := View();
      ClosedIsTrue(r.handle);
      Drop(r.handle);
      assert View().providers == seen.providers - {r.handle};
      assert seen.providers - {r.handle} == old(View()).providers - {r.handle};
      return Some(Message(Closed, r.sequence, r.handle, status.value, [], 0)), k;
    }

    lemma ClosedIsTrue(handle: int)
      requires Valid() && handle in providers && providers[handle].Retired()
      ensures providers[handle] in started && providers[handle].died == providers[handle].returncode
    {
    }

    /** `_terminate_provider` of a handle and the poll after it. */
    method Terminate(handle: int) returns (status: PG.Option<int>)
      requires Valid() && handle in providers
      modifies owned
      ensures Valid() && View() == Keep(old(View()), handle, Lift(providers[handle].returncode))
      ensures status.Some? ==> providers[handle].Retired() && providers[handle].returncode == status
      ensures providers[handle].Aged() && Terminated(providers[handle])
      ensures forall q | q in started && q != providers[handle] :: unchanged(q)
    {
      var p := providers[handle];
      var done := p.TerminateProvider();
      status := PG.None;
      if done.Done? {
        status := p.Poll();
      }
      OneAged(handle);
    }

    /** One request of `serve`: the message it amounts to, and whether it could
        be sent. A provider whose SPAWNED could not be sent is terminated. */
    method ServeRequest(r: Record, sends: bool) returns (m: Option<Message>, ok: bool, ghost k: Answers)
      requires Valid()
      modifies this, owned
      ensures Valid() && Grown()
      ensures sends ==> Follows(r, m, k) && Truthful(r, m)
      ensures ok <==> m.Some? && sends
      ensures ok && r.kind.Finish? ==> providers == map[]
    {
      hide Serve, DecodePayload;
      k := Answers(None, None, false, None, false, false);
      m := None;
      if r.descriptors == 0 && r.correlation == 0 {
        if r.kind.Spawn? {
          m, k := ServeSpawnRequest(r);
          if m.Some? && !sends {
            var status := Terminate(m.value.handle);
            if status.Some? {
              Drop(m.value.handle);
            }
          }
        } else if r.kind.Poll? {
          m, k := ServePollRequest(r);
        } else if r.kind.Wait? {
          m, k := ServeWaitRequest(r);
        } else if r.kind.Term? || r.kind.Kill? {
          m, k := ServeSignalRequest(r);
        } else if r.kind.Close? {
          m, k := ServeCloseRequest(r);
        } else if r.kind.Finish? {
          m := ServeFinishRequest(r, k);
        } else {
          OtherRaises(View(), r, k);
        }
      } else {
        OtherRaises(View(), r, k);
      }
      ok := m.Some? && sends;
    }

    /** FINISH. */
    method ServeFinishRequest(r: Record, ghost k: Answers) returns (m: Option<Message>)
      requires Valid() && r.kind.Finish? && r.descriptors == 0 && r.correlation == 0
      ensures match Serve(View(), r, k)
              case Raise => m.None?
              case Reply(state, message) => m == Some(message) && View() == state
      ensures m.Some? ==> m.value.kind.Finished? && providers == map[]
    {
      assert View().providers.Keys == providers.Keys;
      if r.handle != 0 || r.value != 0 || r.payload != [] || providers != map[] {
        return None;
      }
      return Some(Message(Finished, r.sequence, 0, 0, [], 0));
    }

    /** A whole session: requests until FINISH, or an abort. Over every run,
        whatever the processes and the kernel do, each signal ever sent to a
        child went to a group pinned by its unreaped leader, every call sent
        exactly the signals that were due in it, and a normal
        finish leaves every provider that ever got a handle reaped and its
        group gone. */
    method ServeAll(requests: seq<Record>, sends: seq<bool>) returns (o: Outcome)
      requires Valid() && |sends| == |requests|
      modifies this, owned
      ensures Grown()
      ensures forall p | p in started :: PG.AllPinned(p.sent) && p.Orderly()
      ensures o.Done? ==> providers == map[] && forall p | p in owned :: p.Retired()
    {
      for i := 0 to |requests|
        invariant Valid() && Grown()
      {
        var m, ok, _ := ServeRequest(requests[i], sends[i]);
        if !ok {
          var _, _ := Cleanup();
          return Aborted;
        }
        if requests[i].kind.Finish? {
          return Done;
        }
      }
      var _, _ := Cleanup();
      return Aborted;
    }

    ghost function Calls(p: PG.Provider): Mark
      reads p
    {
      Mark(p.past, p.now, |p.sent|)
    }

    /** Exactly one call has been made since, to terminate it, and it has sent
        what was due. */
    ghost predicate TerminatedSince(p: PG.Provider, since: Mark)
      reads p
    {
      && p.past == since.past + [since.now] && p.now.order == PG.Terminate && p.mark == since.size
      && !PG.Pending(p.now) && PG.Follows(p.now)
    }

    twostate predicate Terminated(p: PG.Provider)
      reads p
    {
      TerminatedSince(p, old(Calls(p)))
    }

    lemma ValidMeans()
      requires Valid()
      ensures nextHandle >= 1 && owned <= started
      ensures forall h | h in providers :: providers[h] in owned && 0 < h < nextHandle
      ensures forall h, g | h in providers && g in providers && providers[h] == providers[g] :: h == g
      ensures forall p | p in started :: p.Valid()
      ensures forall p | p in owned :: p.Retired() || Listed(providers, p)
    {
    }

    lemma NoneListed()
      requires forall g | g in providers :: 0 < g < 1
      ensures providers == map[] && forall p :: !Listed(providers, p)
    {
      forall g ensures g !in providers {
        assert g in providers ==> 0 < g < 1;
      }
      assert providers == map[];
    }

    lemma StillListed(before: map<int, PG.Provider>, h: int)
      requires h in before && providers == before - {h}
      ensures forall q | q != before[h] && Listed(before, q) :: Listed(providers, q)
    {
      forall q | q != before[h] && Listed(before, q) ensures Listed(providers, q) {
        var g :| g in before && before[g] == q;
        assert g in providers && providers[g] == q;
      }
    }

    /** No call has been made on `p`. */
    twostate predicate Untouched(p: PG.Provider)
      reads p
    {
      Calls(p) == old(Calls(p))
    }

    /** One turn of `cleanup`. */
    method PopAndTerminate(h: int) returns (ok: bool, forced: bool)
      requires h in providers && providers[h].Valid()
      modifies this`providers, providers[h]
      ensures providers == old(providers) - {h}
      ensures old(providers)[h].Valid() && old(providers)[h].Aged() && Terminated(old(providers)[h])
      ensures ok ==> old(providers)[h].Retired() && (forced <==> PG.Forced(old(providers)[h].now))
    {
      var p := providers[h];
      providers := providers - {h};
      var r := p.TerminateProvider();
      return r.Done?, r.Done? && r.value;
    }

    /** `cleanup`: pop and terminate each provider, highest handle first,
        stopping at the first failure; tell whether any had to be forced. */
    method Cleanup() returns (done: bool, forced: bool)
      requires Valid()
      modifies this, owned
      ensures owned == old(owned) && started == old(started)
      ensures forall p | p in started :: p.Valid()
      ensures done ==> providers == map[] && forall p | p in owned :: p.Retired()
      ensures done ==> forall h | h in old(providers) :: Terminated(old(providers)[h])
      ensures done ==> (forced <==> exists h | h in old(providers) :: PG.Forced(old(providers)[h].now))
      ensures forall p | p in started :: Terminated(p) || Untouched(p)
    {
      hide PG.Provider.Valid, PG.Pending, PG.Timeouts, PG.Escalated, PG.Follows, PG.TERMINATE_PLANS, PG.Provider.Aged,
           PG.Provider.Retired, PG.Forced, Listed, Valid, TerminatedSince, Calls;
      ValidMeans();
      ghost var first := map p | p in started :: Calls(p);
      ghost var table := providers;
      assert providers == map g | g in table && g < nextHandle :: table[g];
      forced := false;
      for h := nextHandle downto 1
        invariant owned == old(owned) && started == old(started)
        invariant Sweeping(table, first, h, forced)
      {
        hide Sweeping;
        var ok;
        ok, forced := SweepOne(table, first, h, forced);
        if !ok {
          return false, forced;
        }
      }
      NoneListed();
      return true, forced;
    }

    /** Cleanup has dealt with all handles from `h` up: `table` is what it
        started with, `first` the calls made before it. */
    ghost predicate Sweeping(table: map<int, PG.Provider>, first: map<PG.Provider, Mark>, h: int,
                             forced: bool)
      reads this, started
    {
      && owned <= started && first.Keys == started
      && (forall g | g in table :: table[g] in owned && g > 0)
      && (forall f, g | f in table && g in table && table[f] == table[g] :: f == g)
      && providers == (map g | g in table && g < h :: table[g])
      && (forall p | p in owned :: p.Retired() || Listed(providers, p))
      && (forall g | g in table && g >= h :: TerminatedSince(table[g], first[table[g]]))
      && (forall g | g in table && g < h :: Calls(table[g]) == first[table[g]])
      && (forced <==> exists g | g in table && g >= h :: PG.Forced(table[g].now))
      && Kept(first)
    }

    /** Every child is sound, and touched at most by one termination. */
    ghost predicate Kept(first: map<PG.Provider, Mark>)
      requires first.Keys == started
      reads this, started
    {
      forall p | p in started :: p.Valid() && (TerminatedSince(p, first[p]) || Calls(p) == first[p])
    }

    method SweepOne(ghost table: map<int, PG.Provider>, ghost first: map<PG.Provider, Mark>,
                    h: int, before: bool)
      returns (ok: bool, forced: bool)
      requires Sweeping(table, first, h + 1, before)
      modifies this`providers, if h in providers then {providers[h]} else {}
      ensures first.Keys == started && Kept(first)
      ensures ok ==> Sweeping(table, first, h, forced)
    {
      hide PG.Provider.Valid, PG.Forced, PG.Provider.Retired, Listed, TerminatedSince, Calls;
      forced := before;
      if h in providers {
        ghost var p, was := providers[h], providers;
        assert p == table[h];
        var had;
        ok, had := PopAndTerminate(h);
        assert forall g | g in table && g != h :: table[g] != p;
        if !ok {
          return false, forced;
        }
        forced := had || forced;
        StillListed(was, h);
      }
      ok := true;
    }
  }

  /** When CLOSE is refused, and what it answers. */
  lemma CloseAnswer(s: Table, r: Record, k: Answers)
    requires r.kind.Close? && r.descriptors == 0 && r.correlation == 0
    ensures !NamesProvider(s, r) || r.value != 0 || !k.terminated ==> Serve(s, r, k).Raise?
    ensures NamesProvider(s, r) && r.value == 0 && k.terminated && Known(s.providers[r.handle], k).Some? ==>
              var status := Known(s.providers[r.handle], k).value;
              Serve(s, r, k) == Reply(s.(providers := s.providers - {r.handle}),
                                      Message(Closed, r.sequence, r.handle, status, [], 0))
  {
    hide DecodePayload;
  }

  lemma OtherRaises(s: Table, r: Record, k: Answers)
    requires r.descriptors != 0 || r.correlation != 0
             || !(r.kind.Spawn? || r.kind.Poll? || r.kind.Wait? || r.kind.Term? || r.kind.Kill? || r.kind.Close?
                  || r.kind.Finish?)
    ensures Serve(s, r, k).Raise?
  {
    hide DecodePayload;
  }

  /** `ControllerProxy`: what it does with a reply to a call it sent. */
  class ControllerProxy {
    var processes: map<int, Option<int>>
    var finished: bool

    function View(): Proxy
      reads this
    {
      Proxy(processes, finished)
    }

    constructor ()
      ensures View() == Proxy(map[], false)
    {
      processes, finished := map[], false;
    }

    method Accept(c: Call, r: Record) returns (ok: bool)
      modifies this
      ensures ok <==> Absorb(old(View()), c, r).Some?
      ensures View() == if ok then Absorb(old(View()), c, r).value else old(View())
    {
      match c
      case SpawnCall(_) =>
        if !r.kind.Spawned? || r.handle == 0 || !(1 < r.value <= 0x7FFF_FFFF) || r.payload != [] || r.descriptors != 2 {
          return false;
        }
        processes := processes[r.handle := None];
        return true;
      case StatusCall(_, h, _) =>
        if r.descriptors != 0 || r.handle != h || r.payload != [] {
          return false;
        }
        if r.kind.Running? && r.value == 0 {
          return true;
        }
        if r.kind.Exited? && -255 <= r.value <= 255 {
          processes := processes[h := Some(r.value)];
          return true;
        }
        return false;
      case CloseCall(h) =>
        if r.descriptors != 0 || !r.kind.Closed? || r.handle != h || r.payload != [] || !(-255 <= r.value <= 255) {
          return false;
        }
        processes := processes - {h};
        return true;
      case FinishCall =>
        if r.descriptors != 0 || !r.kind.Finished? || r.handle != 0 || r.value != 0 || r.payload != [] {
          return false;
        }
        finished := true;
        return true;
    }
  }
}
