/** Host and guest of a staged scenario running against each other over the
    two sectors. Both follow one script: the guest publishes a status where
    the host waits for it, the host writes a command where the guest waits to
    proceed. A sector is the sequence number of the record it holds, 0 when
    empty. Polls may happen at any moment; deadlines are not modelled. */
module StagedRun {
  import StagedBarrier
  import StagedSector

  datatype Action = Publish | Proceed

  datatype Side = Guest | Host

  datatype State = State(guest: nat, host: nat, status: nat, command: nat, guestFailed: bool, hostFailed: bool) {
    predicate Failed() { guestFailed || hostFailed }
  }

  const INIT: State := State(0, 0, 0, 0, false, false)

  /** How many of the first `i` actions are `a`. */
  function Count(script: seq<Action>, i: nat, a: Action): nat
    requires i <= |script|
  {
    if i == 0 then 0 else Count(script, i - 1, a) + (if script[i - 1] == a then 1 else 0)
  }

  /** `BlockBarrier.status` and `BlockBarrier.proceed`. */
  function GuestStep(script: seq<Action>, s: State): State
    requires s.guest < |script|
  {
    var published, proceeded := Count(script, s.guest, Publish), Count(script, s.guest, Proceed);
    match script[s.guest]
    case Publish =>
      var complete := published + 1 == Count(script, |script|, Publish);
      if complete && proceeded != Count(script, |script|, Proceed) then s.(guestFailed := true)
      else if s.status != published then s.(guestFailed := true)
      else s.(guest := s.guest + 1, status := published + 1)
    case Proceed =>
      if s.command == proceeded then s
      else if s.command == proceeded + 1 then s.(guest := s.guest + 1)
      else s.(guestFailed := true)
  }

  /** `StagedBarrier.wait` and `StagedBarrier.command`. */
  function HostStep(script: seq<Action>, s: State): State
    requires s.host < |script|
  {
    var accepted, issued := Count(script, s.host, Publish), Count(script, s.host, Proceed);
    match script[s.host]
    case Publish =>
      if s.status == accepted then s
      else if s.status == accepted + 1 then s.(host := s.host + 1)
      else s.(hostFailed := true)
    case Proceed =>
      if s.command != issued then s.(hostFailed := true)
      else s.(host := s.host + 1, command := issued + 1)
  }

  function Step(script: seq<Action>, s: State, side: Side): State {
    if s.Failed() then s
    else if side.Guest? then (if s.guest < |script| then GuestStep(script, s) else s)
    else if s.host < |script| then HostStep(script, s) else s
  }

  function Run(script: seq<Action>, choices: seq<Side>): State {
    if choices == [] then INIT
    else Step(script, Run(script, choices[..|choices| - 1]), choices[|choices| - 1])
  }

  /** Every scenario ends by publishing its completion. */
  predicate Script(script: seq<Action>) { script != [] && script[|script| - 1].Publish? }

  predicate Alternating(script: seq<Action>) {
    forall i | 0 <= i < |script| - 1 :: script[i] != script[i + 1]
  }

  // ----- counting -----

  lemma {:induction false} CountGrows(script: seq<Action>, i: nat, j: nat, a: Action)
    requires i <= j <= |script|
    ensures Count(script, i, a) <= Count(script, j, a)
    decreases j
  {
    if i < j {
      CountGrows(script, i, j - 1, a);
    }
  }

  /** The last publication follows every command. */
  lemma LastPublish(script: seq<Action>, i: nat)
    requires Script(script) && i < |script| && script[i].Publish?
    requires Count(script, i, Publish) + 1 == Count(script, |script|, Publish)
    ensures Count(script, i, Proceed) == Count(script, |script|, Proceed)
  {
    if i + 1 < |script| {
      CountGrows(script, i + 1, |script| - 1, Publish);
      assert false;
    }
  }

  // ----- every run of every script -----

  /** Sectors hold what was written last, and neither side overtakes what it
      waits for. */
  predicate Inv(script: seq<Action>, s: State) {
    && s.guest <= |script| && s.host <= |script|
    && s.status == Count(script, s.guest, Publish) && s.command == Count(script, s.host, Proceed)
    && Count(script, s.host, Publish) <= s.status && Count(script, s.guest, Proceed) <= s.command
  }

  lemma StepKeepsInv(script: seq<Action>, s: State, side: Side)
    requires Script(script) && Inv(script, s)
    ensures Inv(script, Step(script, s, side))
  {
  }

  lemma {:induction false} RunKeepsInv(script: seq<Action>, choices: seq<Side>)
    requires Script(script)
    ensures Inv(script, Run(script, choices))
    decreases |choices|
  {
    if choices != [] {
      hide Step, Inv;
      assert Inv(script, INIT) by {
        InitInv(script);
      }
      RunKeepsInv(script, choices[..|choices| - 1]);
      StepKeepsInv(script, Run(script, choices[..|choices| - 1]), choices[|choices| - 1]);
    }
  }

  lemma InitInv(script: seq<Action>)
    ensures Inv(script, INIT)
  {
  }

  /** A record was overwritten before the other side read it. */
  predicate Overrun(script: seq<Action>, s: State, side: Side)
    requires Inv(script, s)
  {
    if side.Host? then s.status >= Count(script, s.host, Publish) + 2
    else s.command >= Count(script, s.guest, Proceed) + 2
  }

  /** In every run of every script, a side's next step fails exactly when a
      record meant for it has been overwritten unread. */
  lemma StepFailsExactly(script: seq<Action>, choices: seq<Side>, side: Side)
    requires Script(script) && !Run(script, choices).Failed()
    ensures Inv(script, Run(script, choices))
    ensures Step(script, Run(script, choices), side).Failed() <==> Overrun(script, Run(script, choices), side)
  {
    RunKeepsInv(script, choices);
    var s := Run(script, choices);
    if side.Guest? {
      GuestFailsExactly(script, s);
    } else {
      HostFailsExactly(script, s);
    }
  }

  lemma HostFailsExactly(script: seq<Action>, s: State)
    requires Script(script) && Inv(script, s) && !s.Failed()
    ensures Step(script, s, Host).Failed() <==> Overrun(script, s, Host)
  {
    if s.host == |script| {
      CountGrows(script, s.guest, |script|, Publish);
    } else if script[s.host].Proceed? && s.guest > s.host {
      CountGrows(script, s.host + 1, s.guest, Proceed);
    } else if script[s.host].Proceed? {
      CountGrows(script, s.guest, s.host, Publish);
    }
  }

  lemma GuestFailsExactly(script: seq<Action>, s: State)
    requires Script(script) && Inv(script, s) && !s.Failed()
    ensures Step(script, s, Guest).Failed() <==> Overrun(script, s, Guest)
  {
    if s.guest == |script| {
      CountGrows(script, s.host, |script|, Proceed);
    } else if script[s.guest].Publish? {
      if Count(script, s.guest, Publish) + 1 == Count(script, |script|, Publish) {
        LastPublish(script, s.guest);
      }
      if s.host > s.guest {
        CountGrows(script, s.guest + 1, s.host, Publish);
      } else {
        CountGrows(script, s.host, s.guest, Proceed);
      }
    }
  }

  // ----- scripts that alternate -----

  /** At most one action apart, and the one behind is the one that waits. */
  predicate InStep(script: seq<Action>, s: State) {
    && Inv(script, s) && !s.Failed()
    && s.guest <= s.host + 1 && s.host <= s.guest + 1
    && (s.guest == s.host + 1 ==> script[s.host].Publish?)
    && (s.host == s.guest + 1 ==> script[s.guest].Proceed?)
  }

  lemma StepKeepsInStep(script: seq<Action>, s: State, side: Side)
    requires Script(script) && Alternating(script) && InStep(script, s)
    ensures InStep(script, Step(script, s, side))
  {
    StepKeepsInv(script, s, side);
    if side.Guest? {
      GuestFailsExactly(script, s);
    } else {
      HostFailsExactly(script, s);
    }
  }

  lemma {:induction false} AlternatingStaysInStep(script: seq<Action>, choices: seq<Side>)
    requires Script(script) && Alternating(script)
    ensures InStep(script, Run(script, choices))
    decreases |choices|
  {
    if choices != [] {
      AlternatingStaysInStep(script, choices[..|choices| - 1]);
      StepKeepsInStep(script, Run(script, choices[..|choices| - 1]), choices[|choices| - 1]);
    }
  }

  /** No run of an alternating script gets stuck: until both sides are done,
      one of them can advance. */
  lemma AlternatingProgress(script: seq<Action>, choices: seq<Side>)
    requires Script(script) && Alternating(script)
    ensures var s := Run(script, choices);
            && !s.Failed()
            && (s.guest < |script| || s.host < |script| ==>
                  exists side :: var t := Step(script, s, side); t.guest + t.host == s.guest + s.host + 1)
            && (s.guest == |script| && s.host == |script| ==>
                  s.status == Count(script, |script|, Publish) && s.command == Count(script, |script|, Proceed))
  {
    AlternatingStaysInStep(script, choices);
    var s := Run(script, choices);
    if s.guest < |script| || s.host < |script| {
      var side := if s.guest == s.host then (if script[s.guest].Publish? then Guest else Host)
                  else if s.guest > s.host then Host else Guest;
      StepKeepsInStep(script, s, side);
      var t := Step(script, s, side);
      assert t.guest + t.host == s.guest + s.host + 1;
    }
  }

  // ----- scripts that do not -----

  function Both(i: nat, script: seq<Action>): State
    requires i <= |script|
  {
    State(i, i, Count(script, i, Publish), Count(script, i, Proceed), false, false)
  }

  lemma RunStep(script: seq<Action>, choices: seq<Side>, side: Side)
    ensures Run(script, choices + [side]) == Step(script, Run(script, choices), side)
  {
    assert (choices + [side])[..|choices|] == choices;
  }

  /** From a state with both sides level, the writer of the next action
      writes. */
  lemma WriterStep(script: seq<Action>, i: nat)
    requires Script(script) && i < |script|
    ensures Step(script, Both(i, script), if script[i].Publish? then Guest else Host)
              == if script[i].Publish? then Both(i, script).(guest := i + 1, status := Count(script, i + 1, Publish))
                 else Both(i, script).(host := i + 1, command := Count(script, i + 1, Proceed))
  {
    if script[i].Publish? && Count(script, i, Publish) + 1 == Count(script, |script|, Publish) {
      LastPublish(script, i);
    }
  }

  /** The reader then follows. */
  lemma ReaderStep(script: seq<Action>, i: nat, s: State)
    requires Script(script) && i < |script|
    requires s == if script[i].Publish? then Both(i, script).(guest := i + 1, status := Count(script, i + 1, Publish))
                  else Both(i, script).(host := i + 1, command := Count(script, i + 1, Proceed))
    ensures Step(script, s, if script[i].Publish? then Host else Guest) == Both(i + 1, script)
  {
  }

  /** The writer writes again, and now the reader fails. */
  lemma OverwriteStep(script: seq<Action>, i: nat, s: State)
    requires Script(script) && i + 1 < |script| && script[i] == script[i + 1]
    requires s == if script[i].Publish? then Both(i, script).(guest := i + 1, status := Count(script, i + 1, Publish))
                  else Both(i, script).(host := i + 1, command := Count(script, i + 1, Proceed))
    ensures var t := Step(script, s, if script[i].Publish? then Guest else Host);
            Step(script, t, if script[i].Publish? then Host else Guest).Failed()
  {
    if script[i].Publish? && Count(script, i + 1, Publish) + 1 == Count(script, |script|, Publish) {
      LastPublish(script, i + 1);
    }
  }

  /** Every script can be followed to any point in lock step. */
  lemma {:induction false} LockStep(script: seq<Action>, i: nat) returns (choices: seq<Side>)
    requires Script(script) && i <= |script|
    ensures Run(script, choices) == Both(i, script)
  {
    choices := [];
    if i > 0 {
      hide Step, Both;
      var before := LockStep(script, i - 1);
      var first := if script[i - 1].Publish? then Guest else Host;
      var second := if script[i - 1].Publish? then Host else Guest;
      choices := before + [first] + [second];
      RunStep(script, before, first);
      RunStep(script, before + [first], second);
      WriterStep(script, i - 1);
      ReaderStep(script, i - 1, Run(script, before + [first]));
    }
  }

  /** Two equal actions in a row: the writer can overwrite its first record
      before the reader polls, and the reader then fails. */
  lemma RepeatedActionCanFail(script: seq<Action>, i: nat) returns (choices: seq<Side>)
    requires Script(script) && i + 1 < |script| && script[i] == script[i + 1]
    ensures Run(script, choices).Failed()
  {
    hide Step, Both;
    var before := LockStep(script, i);
    var writer := if script[i].Publish? then Guest else Host;
    var reader := if script[i].Publish? then Host else Guest;
    RunStep(script, before, writer);
    RunStep(script, before + [writer], writer);
    RunStep(script, before + [writer] + [writer], reader);
    choices := before + [writer] + [writer] + [reader];
    WriterStep(script, i);
    OverwriteStep(script, i, Run(script, before + [writer]));
  }

  ghost predicate NeverFails(script: seq<Action>) {
    forall choices :: !Run(script, choices).Failed()
  }

  /** No run fails exactly when publications and commands alternate. */
  lemma SafeExactly(script: seq<Action>)
    requires Script(script)
    ensures NeverFails(script) <==> Alternating(script)
  {
    if Alternating(script) {
      forall choices ensures !Run(script, choices).Failed() {
        AlternatingStaysInStep(script, choices);
      }
    } else {
      var i :| 0 <= i < |script| - 1 && script[i] == script[i + 1];
      var choices := RepeatedActionCanFail(script, i);
      assert Run(script, choices).Failed();
    }
  }

  // ----- the three scenarios -----

  function ScriptOf(s: StagedSector.Scenario): seq<Action> {
    match s
    case Startup => [Publish, Proceed, Publish, Proceed, Publish, Proceed,
                     Publish, Publish, Proceed, Publish, Proceed, Publish]
    case Runtime => [Publish, Proceed, Publish, Publish, Proceed, Publish, Proceed, Publish]
    case Restore => [Publish, Proceed, Publish, Proceed, Publish, Publish, Proceed, Publish, Proceed, Publish]
  }

  lemma ScriptCounts(s: StagedSector.Scenario)
    ensures Script(ScriptOf(s))
    ensures Count(ScriptOf(s), |ScriptOf(s)|, Publish) == |StagedBarrier.Graph(s)|
    ensures Count(ScriptOf(s), |ScriptOf(s)|, Proceed) == StagedBarrier.CommandCount(s)
  {
    var script := ScriptOf(s);
    assert Count(script, 1, Publish) == 1 && Count(script, 1, Proceed) == 0;
    if s.Startup? {
      assert Count(script, 2, Publish) == 1 && Count(script, 2, Proceed) == 1;
      assert Count(script, 4, Publish) == 2 && Count(script, 4, Proceed) == 2;
      assert Count(script, 6, Publish) == 3 && Count(script, 6, Proceed) == 3;
      assert Count(script, 8, Publish) == 5 && Count(script, 8, Proceed) == 3;
      assert Count(script, 10, Publish) == 6 && Count(script, 10, Proceed) == 4;
    }
    if s.Runtime? {
      assert Count(script, 2, Publish) == 1 && Count(script, 2, Proceed) == 1;
      assert Count(script, 4, Publish) == 3 && Count(script, 4, Proceed) == 1;
      assert Count(script, 6, Publish) == 4 && Count(script, 6, Proceed) == 2;
    }
    if s.Restore? {
      assert Count(script, 2, Publish) == 1 && Count(script, 2, Proceed) == 1;
      assert Count(script, 4, Publish) == 2 && Count(script, 4, Proceed) == 2;
      assert Count(script, 6, Publish) == 4 && Count(script, 6, Proceed) == 2;
      assert Count(script, 8, Publish) == 5 && Count(script, 8, Proceed) == 3;
    }
  }

  /** Each shipped scenario publishes twice in a row once, so a host slow to
      poll can fail a faithful guest. */
  lemma ShippedScriptsCanFail(s: StagedSector.Scenario) returns (choices: seq<Side>)
    ensures Run(ScriptOf(s), choices).Failed()
  {
    ScriptCounts(s);
    var i := match s case Startup => 6 case Runtime => 2 case Restore => 4;
    choices := RepeatedActionCanFail(ScriptOf(s), i);
  }
}
