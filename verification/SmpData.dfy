/** The data of the two-CPU programs: flag words, markers and the child's
    stack, which is padded to a 16-byte boundary for every code size. */
module SmpData {
  import opened Bytes
  import opened Layout
  import opened GuestElf

  const STACK_SIZE: nat := 4096

  // Labels both programs use.
  function Cpu0Mask(): string { "cpu0_affinity_mask" }
  function Cpu1Mask(): string { "cpu1_affinity_mask" }
  function Cpu0Observed(): string { "cpu0_observed" }
  function Cpu1Observed(): string { "cpu1_observed" }
  function Start(): string { "start" }
  function ReadyMarker(): string { "ready_marker" }

  /** An ASCII literal as bytes. */
  function Text(s: string): (b: seq<byte>)
    ensures |b| == |s|
  {
    seq(|s|, i requires 0 <= i < |s| => s[i] as int % 256)
  }

  function Path(s: string): (b: seq<byte>)
    ensures |b| == |s| + 1
  {
    Text(s) + [0]
  }

  /** A program's data without its stack. */
  function HotplugWords(): (d: seq<Datum>)
    ensures |d| == 17
    ensures forall j | 0 <= j < 9 :: |d[j].value| == if j < 2 then 8 else 4
  {
    [Datum("cpu0_affinity_mask", LittleEndian(1, 8)),
     Datum("cpu1_affinity_mask", LittleEndian(2, 8)),
     Datum("cpu0_observed", Zeros(4)),
     Datum("cpu1_observed", Zeros(4)),
     Datum("child_ready", Zeros(4)),
     Datum("child_quiesced", Zeros(4)),
     Datum("start", Zeros(4)),
     Datum("cpu1_progress", Zeros(4)),
     Datum("offline_baseline", Zeros(4)),
     Datum("sysfs", Path("sysfs")),
     Datum("sys", Path("/sys")),
     Datum("cpu1_online", Path("/sys/devices/system/cpu/cpu1/online")),
     Datum("offline_value", Text("0")),
     Datum("online_value", Text("1")),
     Datum("ready_marker", Text("BBHOTREADY\n")),
     Datum("off_marker", Text("BBHOTOFF\n")),
     Datum("done_marker", Text("BBHOTDONE\n"))]
  }

  function ProgressWords(): (d: seq<Datum>)
    ensures |d| == 10
    ensures forall j | 0 <= j < 6 :: |d[j].value| == if j < 2 then 8 else 4
  {
    [Datum("cpu0_affinity_mask", LittleEndian(1, 8)),
     Datum("cpu1_affinity_mask", LittleEndian(2, 8)),
     Datum("cpu0_observed", Zeros(4)),
     Datum("cpu1_observed", Zeros(4)),
     Datum("cpu1_ready", Zeros(4)),
     Datum("start", Zeros(4)),
     Datum("progress_delay", LittleEndian(0, 8) + LittleEndian(1_000_000, 8)),
     Datum("ready_marker", Text("BBSMPREADY\n")),
     Datum("cpu0_token", [0xA5]),
     Datum("cpu1_token", [0xD3])]
  }

  /** Padding, then the stack, after any data. */
  function WithStack(words: seq<Datum>, codeSize: nat): (d: seq<Datum>)
    ensures |d| == |words| + 2 && d[..|words|] == words
    ensures d[|words|].name == "stack_padding" && d[|words| + 1].name == "child_stack"
  {
    var offset := CODE_OFFSET + codeSize + Extent(words, |words|);
    words + [Datum("stack_padding", Zeros((-offset) % 16)), Datum("child_stack", Zeros(STACK_SIZE))]
  }

  function HotplugData(codeSize: nat): seq<Datum> { WithStack(HotplugWords(), codeSize) }

  function ProgressData(codeSize: nat): seq<Datum> { WithStack(ProgressWords(), codeSize) }

  lemma {:induction false} ExtentPrefix(a: seq<Datum>, b: seq<Datum>, k: nat)
    requires k <= |a| <= |b| && b[..|a|] == a
    ensures Extent(b, k) == Extent(a, k)
  {
    if k > 0 {
      ExtentPrefix(a, b, k - 1);
      assert b[k - 1] == a[k - 1];
    }
  }

  /** For every code size the child's stack starts, and so ends, on a 16-byte
      boundary. */
  lemma StackAligned(words: seq<Datum>, codeSize: nat)
    ensures Address(codeSize, WithStack(words, codeSize), |words| + 1) % 16 == 0
    ensures (Address(codeSize, WithStack(words, codeSize), |words| + 1) + STACK_SIZE) % 16 == 0
  {
    var d := WithStack(words, codeSize);
    var n := |words|;
    ExtentPrefix(words, d, n);
    assert Extent(d, n + 1) == Extent(d, n) + |d[n].value|;
    var offset := CODE_OFFSET + codeSize + Extent(words, n);
    assert (offset + (-offset) % 16) % 16 == 0;
  }

  lemma {:induction false} ExtentAligned(d: seq<Datum>, k: nat)
    requires k <= |d| && forall j | 0 <= j < k :: |d[j].value| % 4 == 0
    ensures Extent(d, k) % 4 == 0
  {
    if k > 0 {
      ExtentAligned(d, k - 1);
    }
  }

  /** After code of whole words, data of whole words are four-byte aligned. */
  lemma WordAligned(words: seq<Datum>, codeSize: nat, i: nat)
    requires codeSize % 4 == 0 && i < |words|
    requires forall j | 0 <= j < i :: |words[j].value| % 4 == 0
    ensures Address(codeSize, WithStack(words, codeSize), i) % 4 == 0
    ensures WithStack(words, codeSize)[i] == words[i]
  {
    var d := WithStack(words, codeSize);
    ExtentPrefix(words, d, i);
    ExtentAligned(words, i);
    assert d[..|words|][i] == words[i];
  }

  /** For every code of whole words each word the hotplug CPUs share is
      four-byte aligned, as LDAR and STLR demand. */
  lemma HotplugWordsAligned(codeSize: nat, i: nat)
    requires codeSize % 4 == 0 && 2 <= i < 9
    ensures Address(codeSize, HotplugData(codeSize), i) % 4 == 0
    ensures |HotplugData(codeSize)[i].value| == 4
  {
    hide HotplugWords, WithStack, Address;
    WordAligned(HotplugWords(), codeSize, i);
  }

  lemma ProgressWordsAligned(codeSize: nat, i: nat)
    requires codeSize % 4 == 0 && 2 <= i < 6
    ensures Address(codeSize, ProgressData(codeSize), i) % 4 == 0
    ensures |ProgressData(codeSize)[i].value| == 4
  {
    hide ProgressWords, WithStack, Address;
    WordAligned(ProgressWords(), codeSize, i);
  }

  lemma StackedWellNamed(words: seq<Datum>)
    ensures WellNamed((n: nat) => WithStack(words, n))
  {
    forall n: nat, i | 0 <= i < |words| + 2 ensures WithStack(words, n)[i].name == WithStack(words, 0)[i].name {
      if i < |words| {
        assert WithStack(words, n)[i] == WithStack(words, n)[..|words|][i];
        assert WithStack(words, 0)[i] == WithStack(words, 0)[..|words|][i];
      }
    }
  }

  /** The stack check of the two-CPU images never fires. */
  lemma StackCheckPasses(words: seq<Datum>, size: nat)
    ensures "child_stack" in FinalAddresses((n: nat) => WithStack(words, n), size)
    ensures FinalAddresses((n: nat) => WithStack(words, n), size)["child_stack"] % 16 == 0
  {
    StackAligned(words, size);
  }
}
