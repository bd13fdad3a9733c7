/** The image-and-sidecar cache, published sidecar last under a lock. Crashes
    may strike after every primitive step, power loss may leave the image name
    with any bytes at all and the sidecar name with any sidecar ever written. */
module RecipeCache {
  import opened Bytes

  datatype Option<T> = None | Some(value: T)

  datatype Value = Null | Number(n: int) | Text(s: string) | Json(text: string)

  /** A JSON object. */
  type Fields = map<string, Value>

  const SIZE_KEY: string := "requested_size_bytes"
  const OUTPUT_SHA: string := "output_sha256"
  const OUTPUT_SIZE: string := "output_size_bytes"

  /** The two keys the cache adds, and the eight a sidecar has besides. */
  const OUTPUT_KEYS: set<string> := {OUTPUT_SHA, OUTPUT_SIZE}
  const CALLER_KEYS: set<string> :=
    {"schema_version", "source_sha256", "source_size_bytes", SIZE_KEY, "variant", "recipe_sha256", "tool_versions",
     "filesystem_check"}

  lemma KeysApart()
    ensures CALLER_KEYS !! OUTPUT_KEYS && SIZE_KEY in CALLER_KEYS && OUTPUT_SHA != OUTPUT_SIZE
  {
    assert OUTPUT_SHA[0] == 'o' && OUTPUT_SIZE[0] == 'o' && |OUTPUT_SHA| != |OUTPUT_SIZE|;
    assert "schema_version"[0] == 's' && "source_sha256"[0] == 's' && "source_size_bytes"[0] == 's';
    assert SIZE_KEY[0] == 'r' && "variant"[0] == 'v' && "recipe_sha256"[0] == 'r' && "tool_versions"[0] == 't';
    assert "filesystem_check"[0] == 'f';
  }

  /** `_canonical_json`, `_read_sidecar` and SHA-256. */
  datatype World = World(
    encode: Fields -> seq<byte>,
    decode: seq<byte> -> Option<Fields>,
    digest: seq<byte> -> string)
  {
    /** What is read as a sidecar has the ten keys and is what was written;
        digests do not collide. */
    ghost predicate Sound() {
      && (forall f :: decode(encode(f)).Some? ==> decode(encode(f)).value == f)
      && (forall b :: decode(b).Some? ==> decode(b).value.Keys == CALLER_KEYS + OUTPUT_KEYS)
      && (forall a, b :: digest(a) == digest(b) ==> a == b)
    }

    /** Every object with the ten keys can be read back. */
    ghost predicate Reads() {
      forall f: Fields | f.Keys == CALLER_KEYS + OUTPUT_KEYS :: decode(encode(f)).Some?
    }
  }

  function Get(f: Fields, key: string): Value { if key in f then f[key] else Null }

  /** The sidecar of an image built for `expected`. */
  function Completed(w: World, expected: Fields, image: seq<byte>): Fields {
    expected[OUTPUT_SHA := Text(w.digest(image))][OUTPUT_SIZE := Number(|image|)]
  }

  /** `expected` asks for nothing the sidecar does not say. */
  predicate Agrees(expected: Fields, sidecar: Fields) {
    forall key | key in expected :: Get(sidecar, key) == expected[key]
  }

  /** An image some builder made for `expected` and that passed its checks. */
  datatype Build = Build(expected: Fields, image: seq<byte>)

  /** The reuse test, up to the filesystem check. */
  predicate Reusable(w: World, expected: Fields, image: Option<seq<byte>>, sidecar: Option<seq<byte>>) {
    && image.Some? && sidecar.Some? && w.decode(sidecar.value).Some?
    && var parsed := w.decode(sidecar.value).value;
       && Agrees(expected, parsed)
       && Get(parsed, OUTPUT_SIZE) == Number(|image.value|)
       && Get(parsed, OUTPUT_SHA) == Text(w.digest(image.value))
  }

  predicate RightSize(expected: Fields, image: seq<byte>) { Get(expected, SIZE_KEY) == Number(|image|) }

  // ----- what the cache promises -----

  /** The record apart from what the cache itself fills in. */
  function Asked(f: Fields): Fields { f - OUTPUT_KEYS }

  /** The image was built, and checked, for this very record. */
  ghost predicate BuiltFor(built: set<Build>, expected: Fields, image: seq<byte>) {
    exists b | b in built :: b.image == image && Asked(b.expected) == Asked(expected)
  }

  /** What is true of every return: the image was built for the caller's record
      or for one with all eight keys whose sidecar says all that it says. */
  ghost predicate Matched(w: World, built: set<Build>, expected: Fields, image: seq<byte>) {
    exists b | b in built ::
      && b.image == image
      && (b.expected == expected
          || (Asked(b.expected).Keys == CALLER_KEYS && RightSize(b.expected, image)
              && Agrees(expected, Completed(w, b.expected, image))))
  }

  /** Every sidecar in place belongs to some checked build. */
  ghost predicate SidecarBuilt(w: World, built: set<Build>, sidecar: Option<seq<byte>>) {
    sidecar.Some? ==>
      exists b | b in built ::
        RightSize(b.expected, b.image) && sidecar.value == w.encode(Completed(w, b.expected, b.image))
  }

  lemma CompletedKeys(w: World, f: Fields, image: seq<byte>)
    ensures Completed(w, f, image).Keys == f.Keys + OUTPUT_KEYS
    ensures Asked(Completed(w, f, image)) == Asked(f)
    ensures f.Keys + OUTPUT_KEYS == CALLER_KEYS + OUTPUT_KEYS <==> Asked(f).Keys == CALLER_KEYS
  {
    KeysApart();
    assert Asked(f).Keys == f.Keys - OUTPUT_KEYS;
    if f.Keys + OUTPUT_KEYS == CALLER_KEYS + OUTPUT_KEYS {
      assert f.Keys - OUTPUT_KEYS == (f.Keys + OUTPUT_KEYS) - OUTPUT_KEYS == CALLER_KEYS;
    }
    if f.Keys - OUTPUT_KEYS == CALLER_KEYS {
      assert f.Keys + OUTPUT_KEYS == (f.Keys - OUTPUT_KEYS) + OUTPUT_KEYS;
    }
  }

  /** The heart of the matter: an image that passes the reuse test is the one
      its sidecar was written for, whatever happened in between. */
  lemma ReuseIsMatched(w: World, built: set<Build>, expected: Fields, image: Option<seq<byte>>,
                       sidecar: Option<seq<byte>>)
    requires w.Sound() && SidecarBuilt(w, built, sidecar) && Reusable(w, expected, image, sidecar)
    ensures Matched(w, built, expected, image.value)
  {
    hide RightSize;
    var b :| b in built && RightSize(b.expected, b.image)
             && sidecar.value == w.encode(Completed(w, b.expected, b.image));
    var completed := Completed(w, b.expected, b.image);
    assert w.decode(w.encode(completed)).Some?;
    KeysApart();
    CompletedKeys(w, b.expected, b.image);
    assert w.digest(image.value) == w.digest(b.image);
    assert image.value == b.image;
  }

  /** A caller that names all eight keys, and no key a sidecar lacks, gets an
      image built for its own record. */
  lemma FullRecordIsOwn(w: World, built: set<Build>, expected: Fields, image: seq<byte>)
    requires Matched(w, built, expected, image) && Asked(expected).Keys == CALLER_KEYS
    ensures BuiltFor(built, expected, image)
  {
    hide RightSize;
    var b :| b in built && b.image == image
             && (b.expected == expected
                 || (Asked(b.expected).Keys == CALLER_KEYS && Agrees(expected, Completed(w, b.expected, image))));
    if b.expected != expected {
      CompletedKeys(w, b.expected, image);
      var c := Completed(w, b.expected, image);
      forall key | key in CALLER_KEYS ensures Asked(b.expected)[key] == Asked(expected)[key] {
        assert key in Asked(expected).Keys && key in Asked(b.expected).Keys;
        assert key in expected && Agrees(expected, c);
        assert Get(c, key) == expected[key];
        assert Asked(c)[key] == Asked(b.expected)[key];
      }
      assert Asked(b.expected) == Asked(expected);
    }
  }

  // ----- processes -----

  /** Where a call of `ensure_recipe_cache` stands. Its stages have names of
      their own, so only their bytes matter. */
  datatype Process =
    | Waiting(expected: Fields)
    | Locked(expected: Fields)
    | Building(expected: Fields)
    | Checked(expected: Fields, image: seq<byte>)
    | Staged(expected: Fields, image: seq<byte>, sidecar: seq<byte>)
    | Swapped(expected: Fields, image: seq<byte>, sidecar: seq<byte>)

  datatype Return = Return(expected: Fields, image: seq<byte>)

  /** `built`, `written` and `returned` are history: checked builds, sidecars
      ever renamed into place, and what each call that returned found. */
  datatype State = State(
    image: Option<seq<byte>>, sidecar: Option<seq<byte>>, holder: Option<nat>, processes: map<nat, Process>,
    built: set<Build>, written: set<seq<byte>>, returned: seq<Return>)

  function Init(): State { State(None, None, None, map[], {}, {}, []) }

  datatype Event =
    | Call(pid: nat, expected: Fields)
    | Lock(pid: nat)
    | Inspect(pid: nat, passes: bool)
    | Produce(pid: nat, image: seq<byte>, passes: bool)
    | WriteSidecarStage(pid: nat)
    | ReplaceImage(pid: nat)
    | ReplaceSidecar(pid: nat)
    | Die(pid: nat)
    | PowerLoss(leftImage: Option<seq<byte>>, leftSidecar: Option<seq<byte>>)

  /** A process ends, by returning, raising or crashing; the kernel drops its
      lock. */
  function Gone(s: State, pid: nat): State {
    s.(processes := s.processes - {pid}, holder := if s.holder == Some(pid) then None else s.holder)
  }

  function Put(s: State, pid: nat, p: Process): State { s.(processes := s.processes[pid := p]) }

  function Next(w: World, s: State, e: Event): State {
    match e
    case Call(pid, expected) => if pid in s.processes then s else Put(s, pid, Waiting(expected))
    case Lock(pid) =>
      if pid !in s.processes || !s.processes[pid].Waiting? then s
      else if s.holder.Some? then Gone(s, pid)  // busy
      else Put(s.(holder := Some(pid)), pid, Locked(s.processes[pid].expected))
    case Inspect(pid, passes) =>
      if pid !in s.processes || !s.processes[pid].Locked? then s
      else
        var expected := s.processes[pid].expected;
        if Reusable(w, expected, s.image, s.sidecar) && passes then
          Gone(s.(returned := s.returned + [Return(expected, s.image.value)]), pid)
        else Put(s, pid, Building(expected))
    case Produce(pid, image, passes) =>
      if pid !in s.processes || !s.processes[pid].Building? then s
      else
        var expected := s.processes[pid].expected;
        if RightSize(expected, image) && passes then
          Put(s.(built := s.built + {Build(expected, image)}), pid, Checked(expected, image))
        else Gone(s, pid)
    case WriteSidecarStage(pid) =>
      if pid !in s.processes || !s.processes[pid].Checked? then s
      else
        var p := s.processes[pid];
        Put(s, pid, Staged(p.expected, p.image, w.encode(Completed(w, p.expected, p.image))))
    case ReplaceImage(pid) =>
      if pid !in s.processes || !s.processes[pid].Staged? then s
      else
        var p := s.processes[pid];
        Put(s.(image := Some(p.image)), pid, Swapped(p.expected, p.image, p.sidecar))
    case ReplaceSidecar(pid) =>
      if pid !in s.processes || !s.processes[pid].Swapped? then s
      else
        var p := s.processes[pid];
        var returned := if s.image.Some? then s.returned + [Return(p.expected, s.image.value)] else s.returned;
        Gone(s.(sidecar := Some(p.sidecar), written := s.written + {p.sidecar}, returned := returned), pid)
    case Die(pid) => Gone(s, pid)
    case PowerLoss(image, sidecar) =>
      if sidecar.Some? && sidecar.value !in s.written then s
      else s.(image := image, sidecar := sidecar, holder := None, processes := map[])
  }

  function Run(w: World, events: seq<Event>): State {
    if events == [] then Init() else Next(w, Run(w, events[..|events| - 1]), events[|events| - 1])
  }

  // ----- invariants -----

  /** Past the lock means holding it, so at most one process is there. */
  predicate LockInv(s: State) {
    forall pid | pid in s.processes && !s.processes[pid].Waiting? :: s.holder == Some(pid)
  }

  ghost predicate ProcessInv(w: World, s: State, p: Process) {
    && (p.Checked? || p.Staged? || p.Swapped? ==>
          Build(p.expected, p.image) in s.built && RightSize(p.expected, p.image))
    && (p.Staged? || p.Swapped? ==> p.sidecar == w.encode(Completed(w, p.expected, p.image)))
    && (p.Swapped? ==> s.image == Some(p.image))
  }

  ghost predicate Inv(w: World, s: State) {
    && LockInv(s)
    && SidecarBuilt(w, s.built, s.sidecar)
    && (forall c | c in s.written :: SidecarBuilt(w, s.built, Some(c)))
    && (forall pid | pid in s.processes :: ProcessInv(w, s, s.processes[pid]))
    && (forall i | 0 <= i < |s.returned| :: Matched(w, s.built, s.returned[i].expected, s.returned[i].image))
  }

  lemma NextKeepsInv(w: World, s: State, e: Event)
    requires w.Sound() && Inv(w, s)
    ensures Inv(w, Next(w, s, e))
  {
    hide RightSize, Agrees, SidecarBuilt, Matched, Reusable, Completed;
    if e.Inspect? && e.pid in s.processes && Reusable(w, s.processes[e.pid].expected, s.image, s.sidecar) {
      ReusableExists(w, s.processes[e.pid].expected, s.image, s.sidecar);
      ReuseIsMatched(w, s.built, s.processes[e.pid].expected, s.image, s.sidecar);
    }
    if e.Produce? && e.pid in s.processes && s.processes[e.pid].Building? {
      GrowKeepsInv(w, s, Build(s.processes[e.pid].expected, e.image));
    }
    if e.ReplaceSidecar? && e.pid in s.processes && s.processes[e.pid].Swapped? {
      PublishedIsBuilt(w, s, s.processes[e.pid]);
    }
    NoSidecar(w, s.built);
  }

  lemma NoSidecar(w: World, built: set<Build>)
    ensures SidecarBuilt(w, built, None)
  {
  }

  /** One more checked build takes nothing away. */
  lemma GrowKeepsInv(w: World, s: State, b: Build)
    requires Inv(w, s)
    ensures Inv(w, s.(built := s.built + {b}))
  {
    hide RightSize, Agrees, Completed;
  }

  lemma PublishedIsBuilt(w: World, s: State, p: Process)
    requires p.Swapped? && ProcessInv(w, s, p)
    ensures SidecarBuilt(w, s.built, Some(p.sidecar)) && Matched(w, s.built, p.expected, p.image)
  {
    hide RightSize, Agrees, Completed;
    assert Build(p.expected, p.image) in s.built;
  }

  lemma {:induction false} RunInv(w: World, events: seq<Event>)
    requires w.Sound()
    ensures Inv(w, Run(w, events))
  {
    hide Next, Inv;
    if events == [] {
      InitInv(w);
    } else {
      RunInv(w, events[..|events| - 1]);
      NextKeepsInv(w, Run(w, events[..|events| - 1]), events[|events| - 1]);
    }
  }

  lemma InitInv(w: World)
    ensures Inv(w, Init())
  {
  }

  /** Over every history of concurrent calls, crashes and power losses, what
      each call that named the eight keys found in place when it returned was
      built for its own record and passed its checks. */
  lemma ReturnedWasBuilt(w: World, events: seq<Event>, i: nat)
    requires w.Sound() && i < |Run(w, events).returned|
    requires Asked(Run(w, events).returned[i].expected).Keys == CALLER_KEYS
    ensures var s := Run(w, events); BuiltFor(s.built, s.returned[i].expected, s.returned[i].image)
  {
    hide Run;
    RunInv(w, events);
    var s := Run(w, events);
    FullRecordIsOwn(w, s.built, s.returned[i].expected, s.returned[i].image);
  }

  // ----- exactly which callers are safe -----

  /** An image with the size and digest the record asks for, if it asks. */
  predicate Suits(w: World, expected: Fields, image: seq<byte>) {
    && (SIZE_KEY in expected ==> expected[SIZE_KEY] == Number(|image|))
    && (OUTPUT_SIZE in expected ==> expected[OUTPUT_SIZE] == Number(|image|))
    && (OUTPUT_SHA in expected ==> expected[OUTPUT_SHA] == Text(w.digest(image)))
  }

  /** Some sidecar could say all that the record says: it asks nothing but null
      of keys a sidecar lacks, and some image suits it. */
  ghost predicate Reusably(w: World, expected: Fields) {
    && (forall key | key in expected && key !in CALLER_KEYS + OUTPUT_KEYS :: expected[key] == Null)
    && exists image :: Suits(w, expected, image)
  }

  /** Over every history, every return to a caller with this record is of an
      image built for it. */
  ghost predicate AlwaysOwn(w: World, expected: Fields) {
    forall events, i | 0 <= i < |Run(w, events).returned| && Run(w, events).returned[i].expected == expected ::
      BuiltFor(Run(w, events).built, expected, Run(w, events).returned[i].image)
  }

  lemma AgreementSuits(w: World, expected: Fields, other: Fields, image: seq<byte>)
    requires Asked(other).Keys == CALLER_KEYS && RightSize(other, image)
    requires Agrees(expected, Completed(w, other, image))
    ensures Reusably(w, expected)
  {
    KeysApart();
    CompletedKeys(w, other, image);
    var c := Completed(w, other, image);
    forall key | key in expected ensures Get(c, key) == expected[key] {
    }
    assert Suits(w, expected, image);
  }

  /** The record of eight keys that a suiting image completes to everything the
      given record says. */
  function FilledIn(expected: Fields, image: seq<byte>): Fields {
    map key | key in CALLER_KEYS ::
      if key in expected then expected[key] else if key == SIZE_KEY then Number(|image|) else Null
  }

  lemma FilledInAgrees(w: World, expected: Fields, image: seq<byte>)
    requires forall key | key in expected && key !in CALLER_KEYS + OUTPUT_KEYS :: expected[key] == Null
    requires Suits(w, expected, image)
    ensures var other := FilledIn(expected, image);
            && Asked(other).Keys == CALLER_KEYS && RightSize(other, image)
            && Agrees(expected, Completed(w, other, image))
  {
    KeysApart();
    var other := FilledIn(expected, image);
    assert other.Keys == CALLER_KEYS;
    assert Asked(other).Keys == CALLER_KEYS - OUTPUT_KEYS == CALLER_KEYS;
    var c := Completed(w, other, image);
    forall key | key in expected ensures Get(c, key) == expected[key] {
      if key in OUTPUT_KEYS {
        assert key == OUTPUT_SHA || key == OUTPUT_SIZE;
      }
    }
  }

  lemma RunStep(w: World, events: seq<Event>, e: Event)
    ensures Run(w, events + [e]) == Next(w, Run(w, events), e)
  {
    hide Next;
    assert (events + [e])[..|events|] == events;
  }

  /** A first caller finds nothing and builds. */
  lemma FirstBuild(w: World, e1: Fields, image: seq<byte>) returns (events: seq<Event>)
    requires RightSize(e1, image)
    ensures Run(w, events)
         == Init().(processes := map[1 := Checked(e1, image)], holder := Some(1), built := {Build(e1, image)})
  {
    hide Run, Reusable, RightSize;
    RunNothing(w);
    RunStep(w, [], Call(1, e1));
    events := [] + [Call(1, e1)];
    assert Run(w, events) == Init().(processes := map[1 := Waiting(e1)]);
    RunStep(w, events, Lock(1));
    events := events + [Lock(1)];
    assert Run(w, events) == Init().(processes := map[1 := Locked(e1)], holder := Some(1));
    NothingToReuse(w, e1);
    RunStep(w, events, Inspect(1, true));
    events := events + [Inspect(1, true)];
    assert Run(w, events) == Init().(processes := map[1 := Building(e1)], holder := Some(1));
    RunStep(w, events, Produce(1, image, true));
    events := events + [Produce(1, image, true)];
  }

  /** And publishes, sidecar last. */
  lemma FirstCall(w: World, e1: Fields, image: seq<byte>) returns (events: seq<Event>)
    requires RightSize(e1, image)
    ensures Run(w, events)
         == State(Some(image), Some(w.encode(Completed(w, e1, image))), None, map[], {Build(e1, image)},
                  {w.encode(Completed(w, e1, image))}, [Return(e1, image)])
  {
    hide Run, Reusable, Completed, RightSize;
    events := FirstBuild(w, e1, image);
    var c := w.encode(Completed(w, e1, image));
    var s := Init().(holder := Some(1), built := {Build(e1, image)});
    RunStep(w, events, WriteSidecarStage(1));
    events := events + [WriteSidecarStage(1)];
    assert Run(w, events) == s.(processes := map[1 := Staged(e1, image, c)]);
    RunStep(w, events, ReplaceImage(1));
    events := events + [ReplaceImage(1)];
    assert Run(w, events) == s.(processes := map[1 := Swapped(e1, image, c)], image := Some(image));
    RunStep(w, events, ReplaceSidecar(1));
    events := events + [ReplaceSidecar(1)];
    assert map[1 := Swapped(e1, image, c)] - {1} == map[];
  }

  lemma RunNothing(w: World)
    ensures Run(w, []) == Init()
  {
  }

  lemma NothingToReuse(w: World, expected: Fields)
    ensures !Reusable(w, expected, None, None)
  {
  }

  /** A second caller whose record the first one's sidecar happens to satisfy
      gets the first one's image. */
  lemma SecondCall(w: World, e1: Fields, image: seq<byte>, expected: Fields) returns (events: seq<Event>)
    requires w.Sound() && w.Reads() && RightSize(e1, image) && Asked(e1).Keys == CALLER_KEYS
    requires Agrees(expected, Completed(w, e1, image))
    ensures Run(w, events).returned == [Return(e1, image), Return(expected, image)]
    ensures Run(w, events).built == {Build(e1, image)}
  {
    hide Run, RightSize, Agrees;
    events := FirstCall(w, e1, image);
    var c := Completed(w, e1, image);
    CompletedKeys(w, e1, image);
    KeysApart();
    assert w.decode(w.encode(c)) == Some(c);
    assert Reusable(w, expected, Some(image), Some(w.encode(c)));
    RunStep(w, events, Call(2, expected));
    events := events + [Call(2, expected)];
    RunStep(w, events, Lock(2));
    events := events + [Lock(2)];
    RunStep(w, events, Inspect(2, true));
    events := events + [Inspect(2, true)];
  }

  /** A record that leaves out one of the eight keys, or names a key a sidecar
      lacks, can be served an image built for another record. */
  lemma OtherRecordReturned(w: World, expected: Fields) returns (events: seq<Event>)
    requires w.Sound() && w.Reads() && Asked(expected).Keys != CALLER_KEYS && Reusably(w, expected)
    ensures var s := Run(w, events);
            && |s.returned| == 2 && s.returned[1].expected == expected
            && !BuiltFor(s.built, expected, s.returned[1].image)
  {
    hide Run, Suits;
    var image :| Suits(w, expected, image);
    var e1 := FilledIn(expected, image);
    FilledInAgrees(w, expected, image);
    events := SecondCall(w, e1, image, expected);
    assert Asked(e1) != Asked(expected);
  }

  /** The caller gets only images built for its own record exactly when it names
      the eight keys and no others, or asks what no sidecar can say. */
  lemma AlwaysOwnExactly(w: World, expected: Fields)
    requires w.Sound() && w.Reads()
    ensures AlwaysOwn(w, expected) <==> Asked(expected).Keys == CALLER_KEYS || !Reusably(w, expected)
  {
    hide Run, Reusably;
    if Asked(expected).Keys == CALLER_KEYS || !Reusably(w, expected) {
      forall events, i | 0 <= i < |Run(w, events).returned| && Run(w, events).returned[i].expected == expected
        ensures BuiltFor(Run(w, events).built, expected, Run(w, events).returned[i].image)
      {
        RunInv(w, events);
        var built, image := Run(w, events).built, Run(w, events).returned[i].image;
        if Asked(expected).Keys == CALLER_KEYS {
          FullRecordIsOwn(w, built, expected, image);
        } else {
          UnsaidIsOwn(w, built, expected, image);
        }
      }
    } else {
      var events := OtherRecordReturned(w, expected);
      assert Run(w, events).returned[1].expected == expected;
    }
  }

  lemma UnsaidIsOwn(w: World, built: set<Build>, expected: Fields, image: seq<byte>)
    requires Matched(w, built, expected, image) && !Reusably(w, expected)
    ensures BuiltFor(built, expected, image)
  {
    hide Reusably, RightSize, Agrees;
    var b :| b in built && b.image == image
             && (b.expected == expected
                 || (Asked(b.expected).Keys == CALLER_KEYS && RightSize(b.expected, image)
                     && Agrees(expected, Completed(w, b.expected, image))));
    if b.expected != expected {
      AgreementSuits(w, expected, b.expected, image);
    }
  }

  /** At most one process is ever past the lock. */
  lemma MutualExclusion(w: World, events: seq<Event>, p: nat, q: nat)
    requires w.Sound()
    requires var s := Run(w, events);
             p in s.processes && q in s.processes && !s.processes[p].Waiting? && !s.processes[q].Waiting?
    ensures p == q
  {
    hide Run;
    RunInv(w, events);
  }

  // ----- one call, in the source's own form -----

  datatype Outcome = Returned | Raised | Crashed

  /** Where a call that had something to publish was stopped. */
  datatype Fault = NoFault | BeforeImage | BeforeSidecar | AtEnd

  /** The two cache names. `built` are the checked builds so far. */
  class CacheDirectory {
    var image: Option<seq<byte>>
    var sidecar: Option<seq<byte>>
    ghost var built: set<Build>

    ghost predicate Valid(w: World)
      reads this
    {
      SidecarBuilt(w, built, sidecar)
    }

    constructor ()
      ensures image == None && sidecar == None && built == {}
    {
      image, sidecar := None, None;
      built := {};
    }

    /** `ensure_recipe_cache`, holding the lock. `build` is what the builder
        leaves in the stage, if it succeeds; the two flags are what the
        filesystem check says of the cached image and of the stage. A crash or
        a failing system call may end it between any two steps; `fault` tells
        where. */
    method Ensure(w: World, expected: Fields, build: Option<seq<byte>>, oldPasses: bool, newPasses: bool)
      returns (r: Outcome, ghost fault: Fault)
      requires w.Sound() && Valid(w)
      modifies this
      ensures Valid(w)
      ensures r.Returned? ==> image.Some? && Matched(w, built, expected, image.value)
      ensures r.Returned? && Asked(expected).Keys == CALLER_KEYS ==> BuiltFor(built, expected, image.value)
      ensures var reuse := Reusable(w, expected, old(image), old(sidecar)) && oldPasses;
              var good := build.Some? && RightSize(expected, build.value) && newPasses;
              && (r.Returned? <==> reuse || (good && fault.NoFault?))
              && (reuse || !good ==> built == old(built) && image == old(image) && sidecar == old(sidecar))
              && (!reuse && good ==>
                    && built == old(built) + {Build(expected, build.value)}
                    && image == (if fault.BeforeImage? then old(image) else build)
                    && sidecar == if fault.BeforeImage? || fault.BeforeSidecar? then old(sidecar)
                                  else Some(w.encode(Completed(w, expected, build.value))))
      ensures r.Crashed? <==> fault.BeforeImage? || fault.BeforeSidecar?
    {
      hide RightSize, Reusable, Agrees, Completed;
      fault := NoFault;
      if Reusable(w, expected, image, sidecar) && oldPasses {
        ReusableExists(w, expected, image, sidecar);
        ReuseIsMatched(w, built, expected, image, sidecar);
        if Asked(expected).Keys == CALLER_KEYS {
          FullRecordIsOwn(w, built, expected, image.value);
        }
        return Returned, NoFault;
      }
      if build.None? || !RightSize(expected, build.value) || !newPasses {
        return Raised, NoFault;
      }
      var stage := build.value;
      built := built + {Build(expected, stage)};
      StillBuilt(w, old(built), built, sidecar);
      var sidecarStage := w.encode(Completed(w, expected, stage));
      var fails: bool := *;
      if fails {
        return Crashed, BeforeImage;
      }
      image := Some(stage);
      fails := *;
      if fails {
        return Crashed, BeforeSidecar;
      }
      assert Build(expected, stage) in built;
      sidecar := Some(sidecarStage);
      fails := *;
      if fails {
        return Raised, AtEnd;
      }
      return Returned, NoFault;
    }
  }

  // ----- one call, alone, as a run of the machine -----

  function RunFrom(w: World, s: State, events: seq<Event>): State
    decreases |events|
  {
    if events == [] then s else RunFrom(w, Next(w, s, events[0]), events[1..])
  }

  function BeforePublishing(pid: nat, expected: Fields, build: seq<byte>, oldPasses: bool, newPasses: bool): seq<Event>
  {
    [Call(pid, expected), Lock(pid), Inspect(pid, oldPasses), Produce(pid, build, newPasses), WriteSidecarStage(pid)]
  }

  /** A call that gets to publishing has changed no file, and one that does not
      has returned what it found or is over. */
  lemma CallPrepares(w: World, s: State, pid: nat, expected: Fields, build: seq<byte>, oldPasses: bool, newPasses: bool)
    requires s.holder.None? && pid !in s.processes
    ensures var t := RunFrom(w, s, BeforePublishing(pid, expected, build, oldPasses, newPasses));
            if Reusable(w, expected, s.image, s.sidecar) && oldPasses
            then s.image.Some? && t == s.(returned := s.returned + [Return(expected, s.image.value)])
            else if RightSize(expected, build) && newPasses
            then t == Put(s.(holder := Some(pid), built := s.built + {Build(expected, build)}), pid,
                          Staged(expected, build, w.encode(Completed(w, expected, build))))
            else t == s
  {
    hide Next, Reusable, RightSize, Completed, RunFrom, Put;
    RunFive(w, s, Call(pid, expected), Lock(pid), Inspect(pid, oldPasses), Produce(pid, build, newPasses),
            WriteSidecarStage(pid));
    CallInspects(w, s, pid, expected, oldPasses);
    var s3 := Next(w, Next(w, Next(w, s, Call(pid, expected)), Lock(pid)), Inspect(pid, oldPasses));
    if Reusable(w, expected, s.image, s.sidecar) && oldPasses {
      Ignored(w, s3, pid, build, newPasses);
    } else {
      CallBuilds(w, s, pid, expected, build, newPasses);
    }
  }

  lemma CallInspects(w: World, s: State, pid: nat, expected: Fields, passes: bool)
    requires s.holder.None? && pid !in s.processes
    ensures var t := Next(w, Next(w, Next(w, s, Call(pid, expected)), Lock(pid)), Inspect(pid, passes));
            if Reusable(w, expected, s.image, s.sidecar) && passes
            then s.image.Some? && t == s.(returned := s.returned + [Return(expected, s.image.value)])
            else t == Put(s.(holder := Some(pid)), pid, Building(expected))
  {
    hide Reusable;
    if Reusable(w, expected, s.image, s.sidecar) {
      ReusableExists(w, expected, s.image, s.sidecar);
    }
    var s2 := Next(w, Next(w, s, Call(pid, expected)), Lock(pid));
    assert s2 == Put(s.(holder := Some(pid)), pid, Locked(expected));
    assert s2.processes - {pid} == s.processes;
  }

  lemma CallBuilds(w: World, s: State, pid: nat, expected: Fields, build: seq<byte>, passes: bool)
    requires s.holder.None? && pid !in s.processes
    ensures var s3 := Put(s.(holder := Some(pid)), pid, Building(expected));
            var t := Next(w, Next(w, s3, Produce(pid, build, passes)), WriteSidecarStage(pid));
            if RightSize(expected, build) && passes
            then t == Put(s.(holder := Some(pid), built := s.built + {Build(expected, build)}), pid,
                          Staged(expected, build, w.encode(Completed(w, expected, build))))
            else t == s
  {
    hide RightSize, Completed;
    assert s.processes[pid := Building(expected)] - {pid} == s.processes;
  }

  /** A process that is gone does nothing more. */
  lemma Ignored(w: World, s: State, pid: nat, build: seq<byte>, passes: bool)
    requires pid !in s.processes
    ensures Next(w, Next(w, s, Produce(pid, build, passes)), WriteSidecarStage(pid)) == s
  {
  }

  /** The image goes in first and the sidecar after it; a process that dies in
      between leaves only the image, and one that does not returns. */
  lemma CallPublishes(w: World, s: State, pid: nat, p: Process)
    requires pid in s.processes && s.processes[pid] == p && p.Staged? && s.holder == Some(pid)
    ensures RunFrom(w, s, [Die(pid)]) == s.(holder := None, processes := s.processes - {pid})
    ensures RunFrom(w, s, [ReplaceImage(pid), Die(pid)])
         == s.(holder := None, processes := s.processes - {pid}, image := Some(p.image))
    ensures RunFrom(w, s, [ReplaceImage(pid), ReplaceSidecar(pid)])
         == s.(holder := None, processes := s.processes - {pid}, image := Some(p.image), sidecar := Some(p.sidecar),
               written := s.written + {p.sidecar}, returned := s.returned + [Return(p.expected, p.image)])
  {
    hide RunFrom;
    RunTwo(w, s, ReplaceImage(pid), Die(pid));
    RunTwo(w, s, ReplaceImage(pid), ReplaceSidecar(pid));
    var s1 := Next(w, s, ReplaceImage(pid));
    assert s1.processes - {pid} == s.processes - {pid};
  }

  lemma RunTwo(w: World, s: State, a: Event, b: Event)
    ensures RunFrom(w, s, [a]) == Next(w, s, a)
    ensures RunFrom(w, s, [b]) == Next(w, s, b)
    ensures RunFrom(w, s, [a, b]) == Next(w, Next(w, s, a), b)
  {
    hide Next;
    assert [a, b][1..] == [b] && [b][1..] == [] && [a][1..] == [];
    assert RunFrom(w, Next(w, s, a), [b]) == RunFrom(w, Next(w, Next(w, s, a), b), []);
  }

  lemma RunFive(w: World, s: State, a: Event, b: Event, c: Event, d: Event, e: Event)
    ensures RunFrom(w, s, [a, b, c, d, e]) == Next(w, Next(w, Next(w, Next(w, Next(w, s, a), b), c), d), e)
  {
    hide Next;
    var s1 := Next(w, s, a);
    var s2 := Next(w, s1, b);
    assert [a, b, c, d, e][1..] == [b, c, d, e] && [b, c, d, e][1..] == [c, d, e] && [c, d, e][1..] == [d, e];
    assert RunFrom(w, s1, [b, c, d, e]) == RunFrom(w, s2, [c, d, e]) == RunFrom(w, Next(w, s2, c), [d, e]);
    RunTwo(w, Next(w, s2, c), d, e);
  }

  lemma ReusableExists(w: World, expected: Fields, image: Option<seq<byte>>, sidecar: Option<seq<byte>>)
    requires Reusable(w, expected, image, sidecar)
    ensures image.Some? && sidecar.Some?
  {
  }

  lemma StillBuilt(w: World, built: set<Build>, more: set<Build>, sidecar: Option<seq<byte>>)
    requires built <= more && SidecarBuilt(w, built, sidecar)
    ensures SidecarBuilt(w, more, sidecar)
  {
  }
}
