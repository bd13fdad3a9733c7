/** `VmmSupervisor.wait_successful_exit` against its two pump threads and the
    signed process, as a transition system over their steps. The supervisor
    holds the observer's lock from its check of the flags to its decision and
    gives it up only while it waits; a pump needs the lock to feed a chunk or
    to report an error. Everything else may happen at any moment. Deadlines
    are not modelled: a raise may happen whenever the supervisor decides. */
module Supervision {
  import opened Bytes
  import opened Observer

  datatype Option<T> = None | Some(value: T)

  datatype Pump = Reading | Holding(chunk: seq<byte>) | Failing | Ended

  /** One output stream: everything ever written to it, the bytes still in
      the pipe, whether every writer has closed it, its pump thread, and the
      chunks the observer has been fed. */
  datatype Channel = Channel(
    emitted: seq<byte>, pipe: seq<byte>, closed: bool, pump: Pump, fed: seq<seq<byte>>)

  datatype Supervisor =
    | Waiting
    | Locked
    | Checked(success: bool)
    | Polled(success: bool, code: Option<int>)
    | Returned
    | Raised
  {
    predicate HasLock() { Locked? || Checked? || Polled? }
  }

  datatype Markers = Markers(success: seq<byte>, failure: seq<byte>) {
    predicate Fit() { 1 <= |success| <= 65537 && 1 <= |failure| <= 65537 }
  }

  datatype State = State(
    out: Channel, err: Channel, exit: Option<int>, pumpError: bool, supervisor: Supervisor)
  {
    function At(name: Stream): Channel { if name.Stdout? then out else err }

    function With(name: Stream, c: Channel): State {
      if name.Stdout? then this.(out := c) else this.(err := c)
    }
  }

  const FRESH: Channel := Channel([], [], false, Reading, [])
  const INIT: State := State(FRESH, FRESH, None, false, Locked)

  predicate Flag(m: seq<byte>, s: State) { Found(m, s.out.fed) || Found(m, s.err.fed) }

  // ----- steps -----

  datatype Event =
    | Emit(name: Stream, bytes: seq<byte>)
    | Close(name: Stream)
    | Exit(code: int)
    | Read(name: Stream, count: nat)
    | Feed(name: Stream)
    | EndOfFile(name: Stream)
    | ReadError(name: Stream)
    | ReportError(name: Stream)
    | Check
    | Poll
    | Decide
    | GiveUp
    | Wake

  predicate Enabled(s: State, e: Event) {
    match e
    case Emit(name, _) => !s.At(name).closed
    case Close(_) => true
    case Exit(_) => s.exit.None?
    case Read(name, count) => s.At(name).pump.Reading? && 1 <= count <= |s.At(name).pipe| && count <= 4096
    case Feed(name) => s.At(name).pump.Holding? && !s.supervisor.HasLock()
    case EndOfFile(name) => s.At(name).pump.Reading? && s.At(name).closed && s.At(name).pipe == []
    case ReadError(name) => s.At(name).pump.Reading?
    case ReportError(name) => s.At(name).pump.Failing? && !s.supervisor.HasLock()
    case Check => s.supervisor.Locked?
    case Poll => s.supervisor.Checked?
    case Decide => s.supervisor.Polled?
    case GiveUp => s.supervisor.Polled?
    case Wake => s.supervisor.Waiting?
  }

  /** What the supervisor decides from its own check and poll, and from
      whether a pump is alive now. */
  function Decided(s: State): Supervisor
    requires s.supervisor.Polled?
  {
    if s.supervisor.code.Some? && s.out.pump.Ended? && s.err.pump.Ended? then
      if !s.supervisor.success then Raised
      else if s.supervisor.code.value != 0 then Raised
      else Returned
    else Waiting
  }

  function Checks(m: Markers, s: State): Supervisor {
    if s.pumpError then Raised
    else if Flag(m.failure, s) then Raised
    else Checked(Flag(m.success, s))
  }

  function Next(m: Markers, s: State, e: Event): State
    requires Enabled(s, e)
  {
    match e
    case Emit(name, bytes) =>
      var c := s.At(name);
      s.With(name, c.(emitted := c.emitted + bytes, pipe := c.pipe + bytes))
    case Close(name) => s.With(name, s.At(name).(closed := true))
    case Exit(code) => s.(exit := Some(code))
    case Read(name, count) =>
      var c := s.At(name);
      s.With(name, c.(pump := Holding(c.pipe[..count]), pipe := c.pipe[count..]))
    case Feed(name) =>
      var c := s.At(name);
      s.With(name, c.(pump := Reading, fed := c.fed + [c.pump.chunk]))
    case EndOfFile(name) => s.With(name, s.At(name).(pump := Ended))
    case ReadError(name) => s.With(name, s.At(name).(pump := Failing))
    case ReportError(name) => s.With(name, s.At(name).(pump := Ended)).(pumpError := true)
    case Check => s.(supervisor := Checks(m, s))
    case Poll => s.(supervisor := Polled(s.supervisor.success, s.exit))
    case Decide => s.(supervisor := Decided(s))
    case GiveUp => s.(supervisor := Raised)
    case Wake => s.(supervisor := Locked)
  }

  ghost predicate Run(m: Markers, states: seq<State>, events: seq<Event>) {
    && |states| == |events| + 1 && states[0] == INIT
    && forall i | 0 <= i < |events| :: Enabled(states[i], events[i]) && states[i + 1] == Next(m, states[i], events[i])
  }

  // ----- what every run keeps -----

  function Held(p: Pump): seq<byte> { if p.Holding? then p.chunk else [] }

  /** No byte is lost or reordered between the writer and the observer, and a
      pump ends quietly only on a closed and drained stream. */
  predicate ChannelInv(c: Channel, pumpError: bool) {
    && c.emitted == Concat(c.fed) + Held(c.pump) + c.pipe
    && (c.pump.Ended? && !pumpError ==> c.closed && c.pipe == [])
  }

  /** A stream that can never change again. */
  predicate Drained(c: Channel) { c.closed && c.pipe == [] && c.pump.Ended? }

  predicate SupervisorInv(m: Markers, s: State) {
    && (s.supervisor.Checked? || s.supervisor.Polled? ==>
          && !s.pumpError && !Flag(m.failure, s)
          && (s.supervisor.success <==> Flag(m.success, s)))
    && (s.supervisor.Polled? && s.supervisor.code.Some? ==> s.exit == s.supervisor.code)
    && (s.supervisor.Returned? ==>
          && !s.pumpError && !Flag(m.failure, s) && Flag(m.success, s) && s.exit == Some(0)
          && Drained(s.out) && Drained(s.err))
  }

  predicate Inv(m: Markers, s: State) {
    ChannelInv(s.out, s.pumpError) && ChannelInv(s.err, s.pumpError) && SupervisorInv(m, s)
  }

  lemma ConcatAppend(chunks: seq<seq<byte>>, chunk: seq<byte>)
    ensures Concat(chunks + [chunk]) == Concat(chunks) + chunk
  {
    assert (chunks + [chunk])[..|chunks|] == chunks;
  }

  lemma FeedKeeps(c: Channel, error: bool)
    requires ChannelInv(c, error) && c.pump.Holding?
    ensures ChannelInv(c.(pump := Reading, fed := c.fed + [c.pump.chunk]), error)
  {
    hide Concat;
    ConcatAppend(c.fed, c.pump.chunk);
  }

  lemma ReadKeeps(c: Channel, error: bool, count: nat)
    requires ChannelInv(c, error) && c.pump.Reading? && count <= |c.pipe|
    ensures ChannelInv(c.(pump := Holding(c.pipe[..count]), pipe := c.pipe[count..]), error)
  {
    hide Concat;
    assert Concat(c.fed) + [] + c.pipe == Concat(c.fed) + c.pipe[..count] + c.pipe[count..];
  }

  lemma EmitKeeps(c: Channel, error: bool, bytes: seq<byte>)
    requires ChannelInv(c, error) && !c.closed
    ensures ChannelInv(c.(emitted := c.emitted + bytes, pipe := c.pipe + bytes), error)
  {
    hide Concat;
    assert Concat(c.fed) + Held(c.pump) + (c.pipe + bytes) == Concat(c.fed) + Held(c.pump) + c.pipe + bytes;
  }

  lemma OthersKeep(c: Channel, error: bool)
    requires ChannelInv(c, error)
    ensures ChannelInv(c.(closed := true), error) && ChannelInv(c, true)
    ensures c.pump.Reading? && c.closed && c.pipe == [] ==> ChannelInv(c.(pump := Ended), error)
    ensures c.pump.Reading? ==> ChannelInv(c.(pump := Failing), error)
    ensures c.pump.Failing? ==> ChannelInv(c.(pump := Ended), true)
  {
    hide Concat;
  }

  lemma ChannelStep(m: Markers, s: State, e: Event, name: Stream)
    requires ChannelInv(s.out, s.pumpError) && ChannelInv(s.err, s.pumpError) && Enabled(s, e)
    ensures var t := Next(m, s, e); ChannelInv(t.At(name), t.pumpError)
  {
    hide Concat, Found, ChannelInv, Checks, Decided;
    var c := s.At(name);
    OthersKeep(c, s.pumpError);
    if e.Feed? && e.name == name {
      FeedKeeps(c, s.pumpError);
    }
    if e.Read? && e.name == name {
      ReadKeeps(c, s.pumpError, e.count);
    }
    if e.Emit? && e.name == name {
      EmitKeeps(c, s.pumpError, e.bytes);
    }
  }

  lemma SupervisorStep(m: Markers, s: State, e: Event)
    requires Inv(m, s) && Enabled(s, e)
    ensures SupervisorInv(m, Next(m, s, e))
  {
    hide Concat, Found;
  }

  lemma NextKeepsInv(m: Markers, s: State, e: Event)
    requires Inv(m, s) && Enabled(s, e)
    ensures Inv(m, Next(m, s, e))
  {
    hide Next, ChannelInv, SupervisorInv;
    ChannelStep(m, s, e, Stdout);
    ChannelStep(m, s, e, Stderr);
    SupervisorStep(m, s, e);
  }

  lemma {:induction false} RunInv(m: Markers, states: seq<State>, events: seq<Event>, i: nat)
    requires Run(m, states, events) && i < |states|
    ensures Inv(m, states[i])
    decreases i
  {
    if i == 0 {
      assert Concat([]) == [];
    } else {
      RunInv(m, states, events, i - 1);
      NextKeepsInv(m, states[i - 1], events[i - 1]);
    }
  }

  /** In every interleaving, once `wait_successful_exit` has returned, the
      process has exited with 0, both streams are closed, and in everything
      they ever carried the success marker occurs and the failure marker does
      not. */
  lemma ReturnMeansSuccess(m: Markers, states: seq<State>, events: seq<Event>, i: nat)
    requires Run(m, states, events) && i < |states| && states[i].supervisor.Returned?
    requires m.Fit()
    ensures var s := states[i];
            && s.exit == Some(0) && s.out.closed && s.err.closed
            && (Occurs(m.success, s.out.emitted) || Occurs(m.success, s.err.emitted))
            && !Occurs(m.failure, s.out.emitted) && !Occurs(m.failure, s.err.emitted)
  {
    hide Found, Occurs, Concat, Next, Enabled;
    RunInv(m, states, events, i);
    var s := states[i];
    assert s.out.emitted == Concat(s.out.fed) && s.err.emitted == Concat(s.err.fed);
    ChunkIndependence(m.success, s.out.fed);
    ChunkIndependence(m.success, s.err.fed);
    ChunkIndependence(m.failure, s.out.fed);
    ChunkIndependence(m.failure, s.err.fed);
  }

  /** And it stays so: nothing more is ever written. */
  lemma ReturnIsFinal(m: Markers, states: seq<State>, events: seq<Event>, i: nat)
    requires Run(m, states, events) && i < |events| && states[i].supervisor.Returned?
    ensures states[i + 1].supervisor.Returned? && states[i + 1].out.emitted == states[i].out.emitted
            && states[i + 1].err.emitted == states[i].err.emitted
  {
    RunInv(m, states, events, i);
  }

  /** What a check, a poll and a decision with the lock held come to: raised on
      a pump error or a failure marker in anything observed; otherwise decided
      only once the process has exited and both pumps have ended, and then
      returned exactly for status 0 and an observed success marker. */
  lemma DecisionExactly(m: Markers, s: State)
    requires m.Fit() && s.supervisor.Locked?
    ensures var out, err, t := Concat(s.out.fed), Concat(s.err.fed), Next(m, s, Check);
            if s.pumpError || Occurs(m.failure, out) || Occurs(m.failure, err) then t.supervisor.Raised?
            else
              && t.supervisor.Checked? && Next(m, t, Poll).supervisor.Polled?
              && var done := Next(m, Next(m, t, Poll), Decide).supervisor;
                 if s.exit.None? || !s.out.pump.Ended? || !s.err.pump.Ended? then done.Waiting?
                 else if s.exit.value == 0 && (Occurs(m.success, out) || Occurs(m.success, err)) then done.Returned?
                 else done.Raised?
  {
    hide Found, Occurs, Concat;
    ChunkIndependence(m.success, s.out.fed);
    ChunkIndependence(m.success, s.err.fed);
    ChunkIndependence(m.failure, s.out.fed);
    ChunkIndependence(m.failure, s.err.fed);
  }

  /** A run can go on with any enabled step. */
  lemma Extend(m: Markers, states: seq<State>, events: seq<Event>, e: Event)
    returns (states': seq<State>, events': seq<Event>)
    requires Run(m, states, events) && Enabled(states[|events|], e)
    ensures Run(m, states', events') && |states'| == |events'| + 1
    ensures states'[|events'|] == Next(m, states[|events|], e)
  {
    hide Next, Enabled;
    states', events' := states + [Next(m, states[|events|], e)], events + [e];
  }

  lemma NothingFound(x: seq<byte>)
    requires x != []
    ensures !Found(x, [])
  {
  }

  /** Some process is waited for successfully: one that writes the success
      marker, closes its streams and exits with 0. */
  lemma SomeRunReturns(m: Markers) returns (states: seq<State>, events: seq<Event>)
    requires m.Fit() && |m.success| <= 4096 && !Occurs(m.failure, m.success)
    ensures Run(m, states, events) && states[|events|].supervisor.Returned?
    ensures states[|events|].out.emitted == m.success
  {
    hide Occurs, Found, Concat, Run, Checks, Decided;
    states, events := DrainedRun(m);
    var s := states[|events|];
    WholeInOne(m.success);
    WholeOccurs(m);
    DecisionExactly(m, s);
    states, events := Extend(m, states, events, Check);
    states, events := Extend(m, states, events, Poll);
    states, events := Extend(m, states, events, Decide);
  }

  /** Then the pumps carry it all to the observer and end. */
  lemma DrainedRun(m: Markers) returns (states: seq<State>, events: seq<Event>)
    requires m.Fit() && |m.success| <= 4096
    ensures Run(m, states, events) && |states| == |events| + 1
    ensures states[|events|]
         == State(Channel(m.success, [], true, Ended, [m.success]), Channel([], [], true, Ended, []), Some(0), false,
                  Locked)
  {
    hide Occurs, Found, Concat, Run, Checks, Decided;
    var x := m.success;
    states, events := WrittenRun(m);
    assert x[..|x|] == x && x[|x|..] == [] && [] + [x] == [x];
    states, events := Extend(m, states, events, Read(Stdout, |x|));
    states, events := Extend(m, states, events, Feed(Stdout));
    states, events := Extend(m, states, events, EndOfFile(Stdout));
    states, events := Extend(m, states, events, EndOfFile(Stderr));
    states, events := Extend(m, states, events, Wake);
  }

  lemma WholeInOne(x: seq<byte>)
    ensures Concat([x]) == x && Concat([]) == []
  {
    assert [x][..0] == [];
  }

  lemma WholeOccurs(m: Markers)
    requires m.Fit()
    ensures Occurs(m.success, m.success) && !Occurs(m.failure, [])
  {
    assert OccursAt(m.success, m.success, 0);
  }

  /** The process has written and gone before anything is read. */
  lemma WrittenRun(m: Markers) returns (states: seq<State>, events: seq<Event>)
    requires m.Fit()
    ensures Run(m, states, events) && |states| == |events| + 1
    ensures states[|events|]
         == State(FRESH.(emitted := m.success, pipe := m.success, closed := true), FRESH.(closed := true), Some(0),
                  false, Waiting)
  {
    hide Found, Run;
    states, events := [INIT], [];
    assert Run(m, states, events) by {
      StartsRun(m);
    }
    states, events := Extend(m, states, events, Emit(Stdout, m.success));
    assert [] + m.success == m.success;
    states, events := Extend(m, states, events, Close(Stdout));
    states, events := Extend(m, states, events, Close(Stderr));
    states, events := Extend(m, states, events, Exit(0));
    NothingFound(m.failure);
    states, events := Extend(m, states, events, Check);
    states, events := Extend(m, states, events, Poll);
    states, events := Extend(m, states, events, Decide);
  }

  lemma StartsRun(m: Markers)
    ensures Run(m, [INIT], [])
  {
  }
}
