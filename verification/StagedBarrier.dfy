/** The host side of a staged scenario: commands written to one sector of the
    control file, statuses polled from another. The guest may write anything
    at all to the status sector between two polls. */
module StagedBarrier {
  import opened Bytes
  import opened StagedSector
  import Wire

  datatype Status =
    | InitialPresent | InitialAbsent | Present | TrafficOne | Absent | TrafficTwo | CaptureReady | Complete

  function StatusCode(s: Status): (n: int)
    ensures 1 <= n <= 8
  {
    match s
    case InitialPresent => 1 case InitialAbsent => 2 case Present => 3 case TrafficOne => 4
    case Absent => 5 case TrafficTwo => 6 case CaptureReady => 7 case Complete => 8
  }

  function Graph(s: Scenario): (g: seq<Status>)
    ensures g != [] && |g| <= 7
    ensures forall i | 0 <= i < |g| :: g[i].Complete? <==> i == |g| - 1
  {
    match s
    case Startup => [InitialPresent, TrafficOne, Absent, Present, TrafficTwo, Absent, Complete]
    case Runtime => [InitialAbsent, Present, TrafficOne, Absent, Complete]
    case Restore => [InitialPresent, CaptureReady, Present, TrafficTwo, Absent, Complete]
  }

  function CommandCount(s: Scenario): (n: nat)
    ensures 1 <= n <= 5
  {
    match s case Startup => 5 case Runtime => 3 case Restore => 4
  }

  /** The record of the `n`-th status of a scenario. */
  function StatusRecord(s: Scenario, nonce: seq<byte>, n: nat): (r: Record)
    requires 1 <= n <= |Graph(s)|
    ensures Nonce(nonce) ==> r.Valid()
  {
    Record(ROLE_STATUS, s, StatusCode(Graph(s)[n - 1]), n, nonce)
  }

  function CommandRecord(s: Scenario, nonce: seq<byte>, n: nat): (r: Record)
    ensures Nonce(nonce) && 1 <= n < Wire.TWO64 ==> r.Valid()
  {
    Record(ROLE_COMMAND, s, PROCEED, n, nonce)
  }

  /** The records of the three scenarios, in numbers. */
  lemma RecordNumbers(nonce: seq<byte>, n: nat)
    ensures CommandCount(Startup) == 5 && CommandCount(Runtime) == 3 && CommandCount(Restore) == 4
    ensures |Graph(Startup)| == 7 && |Graph(Runtime)| == 5 && |Graph(Restore)| == 6
    ensures 1 <= n <= 7 ==>
              StatusRecord(Startup, nonce, n) == Record(2, Startup, [1, 4, 5, 3, 6, 5, 8][n - 1], n, nonce)
    ensures 1 <= n <= 5 ==> StatusRecord(Runtime, nonce, n) == Record(2, Runtime, [2, 3, 4, 5, 8][n - 1], n, nonce)
    ensures 1 <= n <= 6 ==> StatusRecord(Restore, nonce, n) == Record(2, Restore, [1, 7, 3, 6, 5, 8][n - 1], n, nonce)
    ensures forall s :: CommandRecord(s, nonce, n) == Record(1, s, 1, n, nonce)
    ensures forall k :: FailureKind(k) <==> k in {240, 241, 242, 243, 244, 245, 246}
    ensures TRAFFIC_KIND == 245
  {
    hide Code;
  }

  predicate FailureKind(kind: int) { 240 <= kind <= 246 }

  const TRAFFIC_KIND: int := 245

  // ----- one poll -----

  /** What one turn of the polling loop meets: whether the process has failed,
      whether the file opens, what the guest left in the status sector, and
      the category the host's own evidence gives a traffic failure. */
  datatype Poll = Poll(processFailed: bool, opens: bool, sector: seq<byte>, traffic: Option<string>)

  datatype Verdict =
    | Pending | Accepted | ProcessFailed | Control | GuestTimeout
    | GuestFailed(kind: int)
    | TrafficFailed(category: string)

  function Judge(previous: Option<Record>, expected: Record, sha: Wire.Sha, p: Poll): Verdict {
    if p.processFailed then ProcessFailed
    else if !p.opens then Control
    else
      match Decode(p.sector, sha)
      case Bad => Control
      case Empty => Pending
      case Holds(r) =>
        if Some(r) == previous then Pending
        else if r.role == ROLE_STATUS && r.scenario == expected.scenario && r.nonce == expected.nonce
                && FailureKind(r.kind) && r.sequence == Wire.TWO64 - 1 then
          if r.kind == TRAFFIC_KIND && p.traffic.Some? then TrafficFailed(p.traffic.value) else GuestFailed(r.kind)
        else if r == expected then Accepted
        else Control
  }

  /** The loop's verdict: that of the first poll that decides. */
  function Watch(previous: Option<Record>, expected: Record, sha: Wire.Sha, polls: seq<Poll>): (v: Verdict)
    ensures !v.Pending?
  {
    if polls == [] then GuestTimeout
    else
      var v := Judge(previous, expected, sha, polls[0]);
      if v.Pending? then Watch(previous, expected, sha, polls[1..]) else v
  }

  /** A poll that neither fails nor shows anything new. */
  predicate Quiet(previous: Option<Record>, sha: Wire.Sha, p: Poll) {
    && !p.processFailed && p.opens
    && (p.sector == Zeros(SECTOR) || (previous.Some? && Some(p.sector) == Encode(previous.value, sha)))
  }

  ghost predicate AcceptedAt(previous: Option<Record>, expected: Record, sha: Wire.Sha, polls: seq<Poll>, i: nat) {
    && i < |polls|
    && (forall j | 0 <= j < i :: Quiet(previous, sha, polls[j]))
    && !polls[i].processFailed && polls[i].opens && Some(polls[i].sector) == Encode(expected, sha)
  }

  lemma JudgeExactly(previous: Option<Record>, expected: Record, sha: Wire.Sha, p: Poll)
    requires Wire.Digests(sha) && expected.Valid() && !FailureKind(expected.kind)
    requires previous.Some? ==> previous.value.Valid() && previous.value != expected
    ensures Judge(previous, expected, sha, p).Pending? <==> Quiet(previous, sha, p)
    ensures Judge(previous, expected, sha, p).Accepted? <==>
              !p.processFailed && p.opens && Some(p.sector) == Encode(expected, sha)
  {
    hide Decode, Encode;
    EncodeDecode(p.sector, sha);
    DecodeEncode(expected, sha);
    if previous.Some? {
      DecodeEncode(previous.value, sha);
    }
  }

  /** Whatever the guest writes, a wait accepts exactly when some poll shows
      the one encoding of the expected status and every poll before it showed
      nothing or the status already accepted. */
  lemma {:induction false} WatchAcceptsExactly(
      previous: Option<Record>, expected: Record, sha: Wire.Sha, polls: seq<Poll>)
    requires Wire.Digests(sha) && expected.Valid() && !FailureKind(expected.kind)
    requires previous.Some? ==> previous.value.Valid() && previous.value != expected
    ensures Watch(previous, expected, sha, polls).Accepted? <==>
              exists i: nat :: AcceptedAt(previous, expected, sha, polls, i)
    ensures Watch(previous, expected, sha, polls).GuestTimeout? <==>
              forall i | 0 <= i < |polls| :: Quiet(previous, sha, polls[i])
    decreases |polls|
  {
    hide Judge, Quiet, Encode;
    if polls != [] {
      JudgeExactly(previous, expected, sha, polls[0]);
      JudgeNeverTimesOut(previous, expected, sha, polls[0]);
      WatchAcceptsExactly(previous, expected, sha, polls[1..]);
      var rest := polls[1..];
      assert forall i | 0 <= i < |rest| :: rest[i] == polls[i + 1];
      if Watch(previous, expected, sha, polls).Accepted? {
        if Quiet(previous, sha, polls[0]) {
          var i: nat :| AcceptedAt(previous, expected, sha, rest, i);
          assert polls[i + 1] == rest[i];
          assert forall j | 0 <= j < i + 1 :: j == 0 || polls[j] == rest[j - 1];
          assert AcceptedAt(previous, expected, sha, polls, i + 1);
        } else {
          assert AcceptedAt(previous, expected, sha, polls, 0);
        }
      }
      if i: nat :| AcceptedAt(previous, expected, sha, polls, i) {
        if i > 0 {
          assert Quiet(previous, sha, polls[0]);
          assert AcceptedAt(previous, expected, sha, rest, i - 1);
        }
      }
      if Watch(previous, expected, sha, polls).GuestTimeout? {
        assert forall i | 0 <= i < |polls| :: i == 0 || polls[i] == rest[i - 1];
      }
    }
  }

  lemma JudgeNeverTimesOut(previous: Option<Record>, expected: Record, sha: Wire.Sha, p: Poll)
    ensures !Judge(previous, expected, sha, p).GuestTimeout?
  {
  }

  lemma WatchStep(previous: Option<Record>, expected: Record, sha: Wire.Sha, polls: seq<Poll>, i: nat)
    requires i < |polls|
    ensures var v := Judge(previous, expected, sha, polls[i]);
            Watch(previous, expected, sha, polls[i..])
              == if v.Pending? then Watch(previous, expected, sha, polls[i + 1..]) else v
  {
    hide Judge;
    assert polls[i..][0] == polls[i] && polls[i..][1..] == polls[i + 1..];
  }

  lemma WatchNothing(previous: Option<Record>, expected: Record, sha: Wire.Sha)
    ensures Watch(previous, expected, sha, []) == GuestTimeout
  {
  }

  lemma StatusIsNoFailure(s: Scenario, nonce: seq<byte>, n: nat)
    requires 1 <= n <= |Graph(s)|
    ensures !FailureKind(StatusRecord(s, nonce, n).kind)
  {
  }

  lemma FourParts(a: seq<byte>, b: seq<byte>, c: seq<byte>, d: seq<byte>,
                  a': seq<byte>, b': seq<byte>, c': seq<byte>, d': seq<byte>)
    requires |a| == |a'| && |b| == |b'| && |c| == |c'| && |d| == |d'|
    ensures a + b + c + d == a' + b' + c' + d' <==> a == a' && b == b' && c == c' && d == d'
  {
    if a + b + c + d == a' + b' + c' + d' {
      var l, r := a + b + c + d, a' + b' + c' + d';
      assert a == l[..|a|] && a' == r[..|a|];
      assert b == l[|a|..|a| + |b|] && b' == r[|a|..|a| + |b|];
      assert c == l[|a| + |b|..|a| + |b| + |c|] && c' == r[|a| + |b|..|a| + |b| + |c|];
      assert d == l[|a| + |b| + |c|..] && d' == r[|a| + |b| + |c|..];
    }
  }

  // ----- the barrier -----

  datatype Write = Full | Short(count: nat) | Refused

  /** What opening, checking, writing and syncing the control file come to. */
  datatype Io = Io(opens: bool, sound: bool, write: Write, synced: bool)

  class Barrier {
    const scenario: Scenario
    const nonce: seq<byte>
    const sha: Wire.Sha
    var previousStatus: Option<Record>
    var previousCommand: nat
    var terminal: bool
    // The control file, sector by sector.
    var header: seq<byte>
    var command: seq<byte>
    var status: seq<byte>
    var tail: seq<byte>
    // Every status accepted and every command that reached the file.
    ghost var accepted: seq<Record>
    ghost var issued: seq<nat>

    ghost predicate Valid()
      reads this
    {
      && Wire.Digests(sha) && Nonce(nonce)
      && |header| == |command| == |status| == SECTOR && |tail| == TAIL
      && |accepted| <= |Graph(scenario)|
      && (forall i | 0 <= i < |accepted| :: accepted[i] == StatusRecord(scenario, nonce, i + 1))
      && previousStatus == (if accepted == [] then None else Some(accepted[|accepted| - 1]))
      && (terminal <==> |accepted| == |Graph(scenario)|)
      && previousCommand <= |issued| <= CommandCount(scenario)
      && (forall i | 0 <= i < |issued| :: issued[i] == i + 1)
      && (|issued| == previousCommand || (|issued| == previousCommand + 1 && command == CommandSector(|issued|)))
    }

    /** The only bytes that decode to the `n`-th command, or zeros. */
    function CommandSector(n: nat): seq<byte>
      requires Nonce(nonce) && n < Wire.TWO64
    {
      if n == 0 then Zeros(SECTOR) else Encode(CommandRecord(scenario, nonce, n), sha).value
    }

    constructor (s: Scenario, n: seq<byte>, digest: Wire.Sha)
      requires Nonce(n) && Wire.Digests(digest)
      ensures Valid() && scenario == s && nonce == n && sha == digest
      ensures accepted == [] && issued == [] && previousCommand == 0 && !terminal
      ensures Some(header) == EncodeHeader(s, n, digest)
      ensures command == status == Zeros(SECTOR) && tail == Zeros(TAIL)
    {
      scenario, nonce, sha := s, n, digest;
      previousStatus, previousCommand, terminal := None, 0, false;
      header := EncodeHeader(s, n, digest).value;
      command, status, tail := Zeros(SECTOR), Zeros(SECTOR), Zeros(TAIL);
      accepted, issued := [], [];
      HeaderExactly([], s, n, digest);
    }

    /** The guest writes its sector. */
    method GuestWrites(sector: seq<byte>)
      requires Valid() && |sector| == SECTOR
      modifies this`status
      ensures Valid() && status == sector
    {
      status := sector;
    }

    /** `command`. A write that reaches the file but is reported as failed
        leaves the command issued and every later call refused. */
    method Command(sequence: int, io: Io) returns (ok: bool)
      requires Valid()
      requires io.write.Short? ==> io.write.count < SECTOR
      modifies this`previousCommand, this`command, this`issued
      ensures Valid()
      ensures ok <==>
                && !terminal && sequence == old(previousCommand) + 1 <= CommandCount(scenario)
                && io == Io(true, true, Full, true) && old(command) == CommandSector(old(previousCommand))
      ensures ok ==>
                && previousCommand == sequence && issued == old(issued) + [sequence]
                && command == CommandSector(sequence)
      ensures !ok ==> previousCommand == old(previousCommand)
      ensures issued == old(issued) || (issued == old(issued) + [sequence] && sequence == old(|issued|) + 1)
      ensures old(|issued|) > old(previousCommand) ==> !ok && command == old(command) && issued == old(issued)
    {
      hide Encode, Decode, Graph, StatusRecord, CommandCount;
      if terminal || sequence != previousCommand + 1 || sequence > CommandCount(scenario) {
        return false;
      }
      var record := CommandRecord(scenario, nonce, sequence);
      DecodeEncode(record, sha);
      EncodeDecode(command, sha);
      ghost var previous := CommandRecord(scenario, nonce, previousCommand);
      DecodeEncode(previous, sha);
      var value := Encode(record, sha).value;
      if !io.opens {
        return false;
      }
      var current := Decode(command, sha);
      var expected := if previousCommand == 0 then Empty
                      else Holds(CommandRecord(scenario, nonce, previousCommand));
      if !io.sound || current != expected {
        return false;
      }
      assert command == CommandSector(previousCommand) && command != value;
      if io.write.Refused? {
        return false;
      }
      if io.write.Short? {
        command := value[..io.write.count] + command[io.write.count..];
        if command == value {
          issued := issued + [sequence];
        }
        return false;
      }
      command := value;
      issued := issued + [sequence];
      if !io.synced {
        return false;
      }
      previousCommand := sequence;
      return true;
    }

    /** `wait`, over the polls made until the deadline. */
    method Wait(sequence: int, kind: Status, polls: seq<Poll>) returns (v: Verdict)
      requires Valid() && polls != []
      requires forall p | p in polls :: |p.sector| == SECTOR
      modifies this`previousStatus, this`terminal, this`accepted, this`status
      ensures Valid()
      ensures !(!old(terminal) && sequence == old(|accepted|) + 1 && kind == Graph(scenario)[sequence - 1]) ==>
                v.Control? && status == old(status)
      ensures !old(terminal) && sequence == old(|accepted|) + 1 && kind == Graph(scenario)[sequence - 1] ==>
                v == Watch(old(previousStatus), StatusRecord(scenario, nonce, sequence), sha, polls)
      ensures v.Accepted? ==> 1 <= sequence <= |Graph(scenario)| && kind == Graph(scenario)[sequence - 1]
      ensures v.Accepted? ==>
                && accepted == old(accepted) + [StatusRecord(scenario, nonce, sequence)]
                && Some(status) == Encode(StatusRecord(scenario, nonce, sequence), sha)
      ensures !v.Accepted? ==>
                accepted == old(accepted) && previousStatus == old(previousStatus) && terminal == old(terminal)
    {
      hide Judge, Encode, Decode, Watch, CommandCount, StatusCode, FailureKind, Graph;
      var expectedSequence := if previousStatus.None? then 1 else previousStatus.value.sequence + 1;
      var graph := Graph(scenario);
      if terminal || sequence != expectedSequence || sequence > |graph| || kind != graph[sequence - 1] {
        return Control;
      }
      var expected := StatusRecord(scenario, nonce, sequence);
      for i := 0 to |polls|
        invariant Valid() && accepted == old(accepted) && previousStatus == old(previousStatus)
        invariant terminal == old(terminal)
        invariant Watch(previousStatus, expected, sha, polls) == Watch(previousStatus, expected, sha, polls[i..])
      {
        status := polls[i].sector;
        v := Judge(previousStatus, expected, sha, polls[i]);
        WatchStep(previousStatus, expected, sha, polls, i);
        if v.Accepted? {
          assert !FailureKind(expected.kind) by {
            StatusIsNoFailure(scenario, nonce, sequence);
          }
          JudgeExactly(previousStatus, expected, sha, polls[i]);
          previousStatus, terminal := Some(expected), kind.Complete?;
          accepted := accepted + [expected];
          return;
        }
        if !v.Pending? {
          return;
        }
      }
      assert polls[|polls|..] == [];
      assert Watch(previousStatus, expected, sha, []) == GuestTimeout by {
        WatchNothing(previousStatus, expected, sha);
      }
      return GuestTimeout;
    }

    /** The file a finished scenario leaves, byte for byte. */
    ghost function FinishedFile(): seq<byte>
      requires Nonce(nonce)
    {
      EncodeHeader(scenario, nonce, sha).value
      + CommandSector(CommandCount(scenario))
      + Encode(StatusRecord(scenario, nonce, |Graph(scenario)|), sha).value
      + Zeros(TAIL)
    }

    function File(): seq<byte>
      reads this
    {
      header + command + status + tail
    }

    /** `assert_terminal`: it passes only when the whole graph was accepted
        once and in order, every command was issued once and in order, and the
        file holds exactly the finished scenario. */
    method AssertTerminal(opens: bool, sound: bool) returns (ok: bool)
      requires Valid()
      ensures ok <==> opens && sound && terminal && previousCommand == CommandCount(scenario)
                      && File() == FinishedFile()
      ensures ok ==> accepted == seq(|Graph(scenario)|, i requires 0 <= i < |Graph(scenario)| =>
                                       StatusRecord(scenario, nonce, i + 1))
      ensures ok ==> issued == seq(CommandCount(scenario), i => i + 1)
    {
      hide Encode, Decode, EncodeHeader, DecodeHeader;
      FinishedSectors();
      if !terminal || previousStatus.None? || previousStatus.value.kind != StatusCode(Complete)
         || previousStatus.value.sequence != |Graph(scenario)| || previousCommand != CommandCount(scenario) {
        return false;
      }
      if !opens || !sound || !Wire.AllZero(tail) {
        return false;
      }
      HeaderExactly(header, scenario, nonce, sha);
      EncodeDecode(command, sha);
      EncodeDecode(status, sha);
      var last := CommandRecord(scenario, nonce, previousCommand);
      DecodeEncode(last, sha);
      DecodeEncode(previousStatus.value, sha);
      assert tail == Zeros(TAIL);
      return
        && DecodeHeader(header, sha) == Some(Header(scenario, Cycles(scenario), nonce))
        && Decode(command, sha) == Holds(last)
        && Decode(status, sha) == Holds(previousStatus.value);
    }

    lemma FinishedSectors()
      requires Valid()
      ensures File() == FinishedFile() <==>
                && Some(header) == EncodeHeader(scenario, nonce, sha)
                && command == CommandSector(CommandCount(scenario))
                && Some(status) == Encode(StatusRecord(scenario, nonce, |Graph(scenario)|), sha)
                && tail == Zeros(TAIL)
    {
      hide Encode, EncodeHeader, Graph, StatusRecord, CommandCount;
      HeaderExactly(header, scenario, nonce, sha);
      var command' := CommandSector(CommandCount(scenario));
      var record := StatusRecord(scenario, nonce, |Graph(scenario)|);
      DecodeEncode(CommandRecord(scenario, nonce, CommandCount(scenario)), sha);
      DecodeEncode(record, sha);
      FourParts(header, command, status, tail,
                EncodeHeader(scenario, nonce, sha).value, command', Encode(record, sha).value, Zeros(TAIL));
    }
  }

  /** `StagedBarrier` on an existing control file: refused unless it has the
      right size, and taken as it is. */
  method OpenExisting(s: Scenario, n: seq<byte>, digest: Wire.Sha, file: seq<byte>) returns (b: Barrier?)
    requires Nonce(n) && Wire.Digests(digest)
    ensures b != null <==> |file| == CONTROL
    ensures b != null ==>
              && fresh(b) && b.Valid() && b.scenario == s && b.nonce == n && b.sha == digest
              && b.File() == file && b.accepted == [] && b.issued == [] && b.previousCommand == 0 && !b.terminal
  {
    if |file| != CONTROL {
      return null;
    }
    b := new Barrier(s, n, digest);
    b.header, b.command := file[..SECTOR], file[SECTOR..2 * SECTOR];
    b.status, b.tail := file[2 * SECTOR..3 * SECTOR], file[3 * SECTOR..];
  }

  // ----- whole runs of the host -----

  /** What happens next: a call of the host, or the guest writing its sector. */
  datatype Call =
    | Issue(sequence: int, io: Io)
    | Await(sequence: int, kind: Status, polls: seq<Poll>)
    | GuestWrite(sector: seq<byte>)
    | Assert(opens: bool, sound: bool)

  predicate Possible(c: Call) {
    match c
    case Issue(_, io) => io.write.Short? ==> io.write.count < SECTOR
    case Await(_, _, polls) => polls != [] && forall p | p in polls :: |p.sector| == SECTOR
    case GuestWrite(sector) => |sector| == SECTOR
    case Assert(_, _) => true
  }

  /** Any sequence of host calls, good or bad, with the guest writing anything
      in between: the statuses accepted only ever grow along the graph, the
      commands issued are 1, 2, 3 and so on, and a passed `assert_terminal`
      at the end means the whole graph once and all commands once. */
  method Drive(b: Barrier, calls: seq<Call>) returns (passed: bool)
    requires b.Valid() && forall c | c in calls :: Possible(c)
    modifies b
    ensures b.Valid() && old(b.accepted) <= b.accepted && old(b.issued) <= b.issued
    ensures passed ==>
              && calls != [] && calls[|calls| - 1].Assert?
              && |b.accepted| == |Graph(b.scenario)| && |b.issued| == CommandCount(b.scenario)
              && b.File() == b.FinishedFile()
  {
    hide Encode, Decode, Graph, StatusRecord, CommandCount, Watch, EncodeHeader, Barrier.FinishedFile;
    passed := false;
    for i := 0 to |calls|
      invariant b.Valid() && old(b.accepted) <= b.accepted && old(b.issued) <= b.issued
      invariant passed ==>
                  && i > 0 && calls[i - 1].Assert?
                  && |b.accepted| == |Graph(b.scenario)| && |b.issued| == CommandCount(b.scenario)
                  && b.File() == b.FinishedFile()
    {
      assert Possible(calls[i]);
      passed := false;
      match calls[i] {
        case Issue(sequence, io) =>
          var _ := b.Command(sequence, io);
        case Await(sequence, kind, polls) =>
          var _ := b.Wait(sequence, kind, polls);
        case GuestWrite(sector) =>
          b.GuestWrites(sector);
        case Assert(opens, sound) =>
          passed := b.AssertTerminal(opens, sound);
      }
    }
  }
}
