/** The certification run: a loop over the fixed case matrix, cleanup, a final
    recheck, and the published result document. Exceptions may come from every
    call the run makes; asynchronous signals are not modelled. */
module Certification {
  import opened Bytes
  import Publication

  datatype Option<T> = None | Some(value: T)

  datatype Outcome = Passed | Gated | Blocked | Failed

  datatype Verdict = VerdictPassed | VerdictBlocked | VerdictFailed

  datatype Case = Case(name: string, outcome: Outcome)

  datatype Document = Document(cases: seq<Case>, cleanupComplete: bool, verdict: Verdict)

  /** The fixed matrix: case names in order, and which of them the environment
      may gate. */
  datatype Matrix = Matrix(names: seq<string>, gated: set<string>) {
    ghost predicate Valid() {
      && names != []
      && (forall i, j | 0 <= i < j < |names| :: names[i] != names[j])
      && (forall g | g in gated :: g in names)
    }
  }

  /** How far setup got before it raised, or that it completed. */
  datatype Setup = Broken(sessionMade: bool, driverMade: bool) | Complete

  /** What every call made by the run does: `false` or `None` means it raises.
      `enabled(i)` is the optional-case switch, `runs(i)` everything from the
      nonce to the recheck of case `i`. */
  datatype Environment = Environment(
    setup: Setup,
    enabled: nat -> Option<bool>,
    runs: nat -> bool,
    closes: bool,
    cleans: bool,
    rechecks: bool,
    identityValid: bool)

  /** What the run left behind: the outcomes, the document in place at the
      result path, whether its publication was committed, and whether the run
      returned without an exception. */
  datatype Report = Report(outcomes: seq<Outcome>, published: Option<Document>, committed: bool, returned: bool)

  // ----- the document -----

  function VerdictOf(outcomes: seq<Outcome>, cleanupComplete: bool): Verdict {
    if !cleanupComplete || Failed in outcomes then VerdictFailed
    else if Blocked in outcomes then VerdictBlocked
    else VerdictPassed
  }

  /** `_result_document` before validation. */
  function MakeDocument(m: Matrix, outcomes: seq<Outcome>, cleanupComplete: bool): Document
    requires |outcomes| == |m.names|
  {
    Document(seq(|outcomes|, i requires 0 <= i < |outcomes| => Case(m.names[i], outcomes[i])),
             cleanupComplete, VerdictOf(outcomes, cleanupComplete))
  }

  function Outcomes(cases: seq<Case>): (o: seq<Outcome>)
    ensures |o| == |cases| && forall i | 0 <= i < |cases| :: o[i] == cases[i].outcome
  {
    seq(|cases|, i requires 0 <= i < |cases| => cases[i].outcome)
  }

  /** What an acceptable case list is, stated without the validator's loop. */
  ghost predicate Acceptable(m: Matrix, d: Document) {
    && |d.cases| == |m.names|
    && (forall i | 0 <= i < |d.cases| ::
          d.cases[i].name == m.names[i] && (d.cases[i].outcome.Gated? ==> d.cases[i].name in m.gated))
    && (d.verdict.VerdictFailed? <==>
          !d.cleanupComplete || exists i | 0 <= i < |d.cases| :: d.cases[i].outcome.Failed?)
    && (d.verdict.VerdictPassed? <==>
          d.cleanupComplete && forall i | 0 <= i < |d.cases| :: d.cases[i].outcome.Passed? || d.cases[i].outcome.Gated?)
  }

  /** The first `n` cases are named and gated as the matrix allows. */
  predicate Named(m: Matrix, d: Document, n: nat)
    requires n <= |d.cases| == |m.names|
  {
    forall j | 0 <= j < n ::
      d.cases[j].name == m.names[j] && (d.cases[j].outcome.Gated? ==> d.cases[j].name in m.gated)
  }

  /** The outcomes seen, split into those of gated and of other cases. */
  predicate Sorted(all: seq<Outcome>, mandatory: seq<Outcome>, optional: seq<Outcome>) {
    && (forall o | o in all :: o in mandatory || o in optional)
    && (forall o | o in mandatory :: o in all && !o.Gated?)
    && (forall o | o in optional :: o in all)
  }

  lemma SortedStep(all: seq<Outcome>, mandatory: seq<Outcome>, optional: seq<Outcome>, o: Outcome)
    requires Sorted(all, mandatory, optional)
    ensures Sorted(all + [o], mandatory, optional + [o])
    ensures !o.Gated? ==> Sorted(all + [o], mandatory + [o], optional)
  {
  }

  /** What the collected outcomes say of the document. */
  lemma Collected(m: Matrix, d: Document, mandatory: seq<Outcome>, optional: seq<Outcome>)
    requires |d.cases| == |m.names| && Named(m, d, |d.cases|)
    requires Sorted(Outcomes(d.cases), mandatory, optional)
    ensures Acceptable(m, d) <==> d.verdict == VerdictOf(Outcomes(d.cases), d.cleanupComplete)
    ensures VerdictOf(Outcomes(d.cases), d.cleanupComplete).VerdictPassed? ==>
              (forall o | o in mandatory :: o.Passed?) && (forall o | o in optional :: o.Passed? || o.Gated?)
  {
    var all := Outcomes(d.cases);
    assert Failed in all <==> exists i | 0 <= i < |d.cases| :: d.cases[i].outcome.Failed?;
    assert Blocked in all <==> exists i | 0 <= i < |d.cases| :: d.cases[i].outcome.Blocked?;
  }

  /** `_validate_result_cases`. */
  method ValidateCases(m: Matrix, d: Document) returns (ok: bool)
    requires m.Valid()
    ensures ok <==> Acceptable(m, d)
  {
    if |d.cases| != |m.names| {
      return false;
    }
    var mandatory: seq<Outcome> := [];
    var optional: seq<Outcome> := [];
    var all: seq<Outcome> := [];
    for i := 0 to |d.cases|
      invariant Named(m, d, i)
      invariant |all| == i && forall j | 0 <= j < i :: all[j] == d.cases[j].outcome
      invariant Sorted(all, mandatory, optional)
    {
      hide Sorted;
      var c := d.cases[i];
      if c.name != m.names[i] || (c.outcome.Gated? && c.name !in m.gated) {
        return false;
      }
      SortedStep(all, mandatory, optional, c.outcome);
      all := all + [c.outcome];
      if c.name in m.gated {
        optional := optional + [c.outcome];
      } else {
        mandatory := mandatory + [c.outcome];
      }
    }
    hide Acceptable, VerdictOf, Sorted, Named;
    assert all == Outcomes(d.cases);
    Collected(m, d, mandatory, optional);
    var expected := VerdictOf(all, d.cleanupComplete);
    if d.verdict != expected {
      return false;
    }
    if d.verdict.VerdictPassed? {
      if exists o | o in mandatory :: !o.Passed? {
        return false;
      }
      if exists o | o in optional :: !o.Passed? && !o.Gated? {
        return false;
      }
    }
    return true;
  }

  // ----- the run -----

  /** Up to `k` passed or gated, at most `k` itself failed, then blocked. */
  predicate Split(outcomes: seq<Outcome>, k: nat) {
    && k <= |outcomes|
    && (forall i | 0 <= i < k :: outcomes[i].Passed? || outcomes[i].Gated?)
    && (k < |outcomes| ==> outcomes[k].Failed? || outcomes[k].Blocked?)
    && (forall i | k < i < |outcomes| :: outcomes[i].Blocked?)
  }

  /** Passed or gated cases, then at most one failed, then only blocked. */
  ghost predicate Shaped(m: Matrix, outcomes: seq<Outcome>) {
    && |outcomes| == |m.names|
    && (forall i | 0 <= i < |outcomes| && outcomes[i].Gated? :: m.names[i] in m.gated)
    && exists k: nat :: Split(outcomes, k)
  }

  /** The environment switches case `i` off. */
  predicate SwitchedOff(m: Matrix, env: Environment, i: nat)
    requires i < |m.names|
  {
    m.names[i] in m.gated && env.enabled(i) == Some(false)
  }

  /** Case `i` is to be run: it is mandatory or switched on. */
  predicate Due(m: Matrix, env: Environment, i: nat)
    requires i < |m.names|
  {
    m.names[i] !in m.gated || env.enabled(i) == Some(true)
  }

  /** Case `i` raises: its switch cannot be read, or it is due and does not run. */
  predicate Raises(m: Matrix, env: Environment, i: nat)
    requires i < |m.names|
  {
    (m.names[i] in m.gated && env.enabled(i).None?) || (Due(m, env, i) && !env.runs(i))
  }

  /** The cases below `k` have gone well, and as the environment has it. */
  predicate WellTo(m: Matrix, env: Environment, outcomes: seq<Outcome>, k: nat)
    requires k <= |outcomes| == |m.names|
  {
    forall i | 0 <= i < k ::
      && !Raises(m, env, i) && (outcomes[i].Passed? || outcomes[i].Gated?)
      && (outcomes[i].Gated? <==> SwitchedOff(m, env, i))
      && (outcomes[i].Passed? <==> Due(m, env, i) && env.runs(i))
  }

  /** Case `k`, if there is one, is the first that raises: it failed, and none
      is decided after it. */
  predicate Decided(m: Matrix, env: Environment, outcomes: seq<Outcome>, k: nat)
    requires |outcomes| == |m.names|
  {
    && k <= |outcomes| && WellTo(m, env, outcomes, k)
    && (k < |outcomes| ==> Raises(m, env, k) && outcomes[k].Failed?)
    && (forall i | k < i < |outcomes| :: outcomes[i].Blocked?)
  }

  /** No case raises but the recheck after cleanup does: the last case is
      charged with it. */
  predicate Charged(m: Matrix, env: Environment, outcomes: seq<Outcome>)
    requires |outcomes| == |m.names|
  {
    && !env.rechecks && outcomes != [] && (forall i | 0 <= i < |m.names| :: !Raises(m, env, i))
    && WellTo(m, env, outcomes, |outcomes| - 1) && outcomes[|outcomes| - 1].Failed?
  }

  /** What the outcomes of a run whose setup completed are. */
  ghost predicate Final(m: Matrix, env: Environment, outcomes: seq<Outcome>)
    requires |outcomes| == |m.names|
  {
    || Charged(m, env, outcomes)
    || exists k: nat :: Decided(m, env, outcomes, k) && (k < |outcomes| || env.rechecks)
  }

  /** Nothing the run calls before publication ever raises. */
  ghost predicate AllWell(m: Matrix, env: Environment) {
    && env.setup.Complete? && env.closes && env.cleans && env.rechecks && env.identityValid
    && forall i | 0 <= i < |m.names| ::
         || (m.names[i] in m.gated && env.enabled(i) == Some(false))
         || ((m.names[i] !in m.gated || env.enabled(i) == Some(true)) && env.runs(i))
  }

  /** The case loop: outcomes, and whether it ended without an exception. */
  method RunCases(m: Matrix, env: Environment) returns (outcomes: seq<Outcome>, ok: bool)
    requires m.Valid()
    ensures |outcomes| == |m.names|
    ensures ok ==> Decided(m, env, outcomes, |outcomes|)
    ensures !ok ==> exists k: nat :: Decided(m, env, outcomes, k) && k < |outcomes|
  {
    outcomes := seq(|m.names|, _ => Blocked);
    for index := 0 to |m.names|
      invariant |outcomes| == |m.names|
      invariant WellTo(m, env, outcomes, index)
      invariant forall i | index <= i < |outcomes| :: outcomes[i].Blocked?
    {
      if m.names[index] in m.gated {
        var enabled := env.enabled(index);
        if enabled.None? {
          outcomes := outcomes[index := Failed];
          assert Decided(m, env, outcomes, index);
          return outcomes, false;
        }
        if !enabled.value {
          outcomes := outcomes[index := Gated];
          continue;
        }
      }
      if !env.runs(index) {
        outcomes := outcomes[index := Failed];
        assert Decided(m, env, outcomes, index);
        return outcomes, false;
      }
      outcomes := outcomes[index := Passed];
    }
    return outcomes, true;
  }

  lemma DecidedIsShaped(m: Matrix, env: Environment, outcomes: seq<Outcome>, k: nat)
    requires |outcomes| == |m.names| && Decided(m, env, outcomes, k)
    ensures Shaped(m, outcomes)
  {
    assert Split(outcomes, k);
  }

  /** `run_elevated_certification`, and the matrix part of
      `run_certification`; `encode` is the document's canonical text. A passed
      document is in place exactly when the run returned, unless publication
      raised and could not take its file back (`!undone`). */
  method Run(m: Matrix, env: Environment, fs: Publication.FileSystem, path: string, stage: string, inode: nat,
             encode: Document -> seq<byte>)
    returns (r: Report, ghost undone: bool)
    requires m.Valid()
    requires fs.Valid() && stage !in fs.names && stage != path && inode !in fs.files
    modifies fs
    ensures fs.Valid() && Shaped(m, r.outcomes)
    ensures r.published.Some? ==>
              && Acceptable(m, r.published.value) && Outcomes(r.published.value.cases) == r.outcomes
              && !r.published.value.verdict.VerdictBlocked?
              && (r.published.value.cleanupComplete <==> env.closes && env.cleans)
    ensures r.published.Some? ==>
              && path !in old(fs.names) && path in fs.names
              && fs.files[fs.names[path]].bytes == encode(r.published.value)
    ensures r.published.None? ==> Publication.Same(old(fs.names), fs.names, path)
    ensures r.published.Some? <==> r.committed || !undone
    ensures r.returned <==> r.committed && AllWell(m, env)
    ensures r.returned <==> r.committed && r.published.Some? && r.published.value.verdict.VerdictPassed?
    ensures undone ==> (r.returned <==> r.published.Some? && r.published.value.verdict.VerdictPassed?)
    ensures env.setup.Broken? ==> !r.committed && r.published.None?
    ensures r.committed <==>
              env.setup.Complete? && env.identityValid && fs.faults == old(fs.faults) && path !in old(fs.names)
    ensures env.setup.Complete? ==> Final(m, env, r.outcomes)
    ensures env.setup.Broken? ==> forall i | 0 <= i < |r.outcomes| :: r.outcomes[i].Blocked?
    ensures forall p | p in old(fs.names) :: p in fs.names && fs.names[p] == old(fs.names)[p]
  {
    undone := true;
    var outcomes: seq<Outcome> := seq(|m.names|, _ => Blocked);
    var ok, driverMade, sessionMade := false, true, true;
    if env.setup.Complete? {
      outcomes, ok := RunCases(m, env);
    } else {
      driverMade, sessionMade := env.setup.driverMade, env.setup.sessionMade;
    }
    var cleaned := (driverMade ==> env.closes) && (sessionMade ==> env.cleans);
    if env.setup.Broken? {
      AllBlocked(m, outcomes);
      return Report(outcomes, None, false, false), undone;
    }
    outcomes, ok := FinalRecheck(m, env, outcomes, ok);
    DocumentIsAcceptable(m, outcomes, cleaned);
    var document := MakeDocument(m, outcomes, cleaned);
    var valid := ValidateCases(m, document);
    if !valid || !env.identityValid {
      return Report(outcomes, None, false, false), undone;
    }
    var committed;
    committed, undone := fs.PublishResult(path, stage, inode, encode(document));
    var left := committed || (path in fs.names && fs.names[path] == inode);
    return Report(outcomes, if left then Some(document) else None, committed, committed && cleaned && ok), undone;
  }

  /** The recheck after cleanup: if it alone fails, the last case is charged. */
  method FinalRecheck(m: Matrix, env: Environment, before: seq<Outcome>, ran: bool)
    returns (outcomes: seq<Outcome>, ok: bool)
    requires m.Valid() && |before| == |m.names|
    requires ran ==> Decided(m, env, before, |before|)
    requires !ran ==> exists k: nat :: Decided(m, env, before, k) && k < |before|
    ensures |outcomes| == |m.names| && Shaped(m, outcomes)
    ensures ok <==> ran && env.rechecks
    ensures Final(m, env, outcomes)
    ensures ok <==> Failed !in outcomes && Blocked !in outcomes
    ensures Failed in outcomes || Blocked !in outcomes
  {
    outcomes, ok := before, ran;
    if ran {
      DecidedIsShaped(m, env, before, |before|);
    } else {
      ghost var k: nat :| Decided(m, env, before, k) && k < |before|;
      DecidedIsShaped(m, env, before, k);
      assert before[k] == Failed;
    }
    if !env.rechecks && ran {
      ok := false;
      if Failed !in outcomes {
        outcomes := outcomes[|outcomes| - 1 := Failed];
        assert outcomes[|outcomes| - 1] == Failed;
        assert Split(outcomes, |outcomes| - 1);
      }
    }
  }

  lemma AllBlocked(m: Matrix, outcomes: seq<Outcome>)
    requires |outcomes| == |m.names| && forall i | 0 <= i < |outcomes| :: outcomes[i].Blocked?
    ensures Shaped(m, outcomes)
  {
    assert Split(outcomes, 0);
  }

  /** Whatever the outcomes, the document made from them validates. */
  lemma DocumentIsAcceptable(m: Matrix, outcomes: seq<Outcome>, cleaned: bool)
    requires |outcomes| == |m.names|
    requires forall i | 0 <= i < |outcomes| && outcomes[i].Gated? :: m.names[i] in m.gated
    ensures Acceptable(m, MakeDocument(m, outcomes, cleaned))
    ensures Outcomes(MakeDocument(m, outcomes, cleaned).cases) == outcomes
  {
    var d := MakeDocument(m, outcomes, cleaned);
    assert forall i | 0 <= i < |outcomes| :: d.cases[i].outcome == outcomes[i];
    assert Failed in outcomes <==> exists i | 0 <= i < |d.cases| :: d.cases[i].outcome.Failed?;
    assert Blocked in outcomes <==> exists i | 0 <= i < |d.cases| :: d.cases[i].outcome.Blocked?;
  }
}
