/** Which system calls the hotplug program makes, in which order, with which
    arguments and bytes, as the kernel sees them. Everything here is spelled
    out; nothing comes from the code or the data of the program. */
module HotplugCalls {
  import opened Bytes
  import opened Machine
  import opened Blocks
  import opened Duo
  import opened Calls

  // The bytes the program holds, in ASCII.
  const SYSFS: seq<byte> := [0x73, 0x79, 0x73, 0x66, 0x73, 0]
  const SYS: seq<byte> := [0x2F, 0x73, 0x79, 0x73, 0]
  const ONLINE_FILE: seq<byte> :=
    [0x2F, 0x73, 0x79, 0x73, 0x2F, 0x64, 0x65, 0x76, 0x69, 0x63, 0x65, 0x73, 0x2F, 0x73, 0x79, 0x73, 0x74, 0x65, 0x6D,
     0x2F, 0x63, 0x70, 0x75, 0x2F, 0x63, 0x70, 0x75, 0x31, 0x2F, 0x6F, 0x6E, 0x6C, 0x69, 0x6E, 0x65, 0]
  const ZERO: seq<byte> := [0x30]
  const ONE: seq<byte> := [0x31]
  const READY: seq<byte> := [0x42, 0x42, 0x48, 0x4F, 0x54, 0x52, 0x45, 0x41, 0x44, 0x59, 0x0A]
  const OFF: seq<byte> := [0x42, 0x42, 0x48, 0x4F, 0x54, 0x4F, 0x46, 0x46, 0x0A]
  const DONE: seq<byte> := [0x42, 0x42, 0x48, 0x4F, 0x54, 0x44, 0x4F, 0x4E, 0x45, 0x0A]

  // ----- single calls -----

  /** `mount("sysfs", "/sys", "sysfs", 0, NULL)`. */
  predicate Mounts(m: Made) {
    && m.number == 40 && m.x3 == 0 && m.x4 == 0
    && Holds(m.mem, m.x0, SYSFS) && Holds(m.mem, m.x1, SYS) && Holds(m.mem, m.x2, SYSFS)
  }

  /** `openat(AT_FDCWD, "/sys/devices/system/cpu/cpu1/online", O_WRONLY, 0)`. */
  predicate Opens(m: Made) {
    && m.number == 56 && m.x0 == 0x1_0000_0000_0000_0000 - 100 && m.x2 == 1 && m.x3 == 0
    && Holds(m.mem, m.x1, ONLINE_FILE)
  }

  predicate Closes(m: Made, fd: u64) { m.number == 57 && m.x0 == fd }

  /** `reboot(MAGIC1, MAGIC2, POWER_OFF, NULL)`. */
  predicate PowersOff(m: Made) {
    m.number == 142 && m.x0 == 0xFEE1_DEAD && m.x1 == 0x2812_1969 && m.x2 == 0x4321_FEDC && m.x3 == 0
  }

  // ----- the parent -----

  /** The addresses of the words the calls are about. */
  datatype Words = Words(observed0: int, observed1: int, start: int)

  const YIELDS_TO: nat := 9 + 4095

  /** The parent's calls in order, each what it should be when it is made. The
      child is asked to stop with 1 in the start word and readmitted with 2. */
  predicate Scripted(w: Words, p: seq<Made>, n: nat)
    requires n < |p|
  {
    var m := p[n];
    if n == 0 then SetsAffinity(m, MASK0)
    else if n == 1 then GetsCpu(m, w.observed0)
    else if n == 2 then Mounts(m) && Found(m, w.observed0, 0)
    else if n == 3 then Clones(m)
    else if n == 4 then Writes(m, 1, READY) && Found(m, w.start, 1)
    else if n == 5 then Opens(m) && Found(m, w.start, 1)
    else if n == 6 then Writes(m, p[5].result, ZERO) && Found(m, w.start, 1)
    else if n == 7 then Closes(m, p[5].result) && Found(m, w.start, 1)
    else if n == 8 then Writes(m, 1, OFF) && Found(m, w.start, 2)
    else if n < YIELDS_TO then Yields(m) && Found(m, w.start, 2)
    else if n == YIELDS_TO then Opens(m) && Found(m, w.start, 2)
    else if n == YIELDS_TO + 1 then Writes(m, p[YIELDS_TO].result, ONE) && Found(m, w.start, 2)
    else if n == YIELDS_TO + 2 then Closes(m, p[YIELDS_TO].result) && Found(m, w.start, 2)
    else if n == YIELDS_TO + 3 then Writes(m, 1, DONE) && Found(m, w.start, 4)
    else n == YIELDS_TO + 4 && PowersOff(m)
  }

  /** The call returned what lets the parent go on. */
  predicate Succeeded(p: seq<Made>, n: nat)
    requires n < |p|
  {
    var r := p[n].result;
    if n <= 2 || n == 7 || n == YIELDS_TO + 2 then r == 0
    else if n == 3 || n == 5 || n == YIELDS_TO then r < SIGN
    else if n == 6 || n == YIELDS_TO + 1 then r == 1
    else true
  }

  /** The parent's calls follow the script; only after a call that failed, or
      after it found itself on another CPU, does it exit, and then makes no
      further call. */
  ghost predicate ParentLog(w: Words, p: seq<Made>) {
    exists n: nat :: ParentLogTo(w, p, n)
  }

  /** The first `n` calls are scripted, all but the last of them succeeded. */
  predicate ParentLogTo(w: Words, p: seq<Made>, n: nat) {
    && n <= |p| <= n + 1
    && (forall k | 0 <= k < n :: Scripted(w, p, k))
    && (forall k | 0 <= k < n - 1 :: Succeeded(p, k))
    && (n < |p| ==> Exits(p[n]) && n > 0 && (!Succeeded(p, n - 1) || (n == 2 && !Found(p[n], w.observed0, 0))))
  }

  // ----- the child -----

  function WithoutYields(q: seq<Made>): seq<Made> {
    if q == [] then []
    else
      var init, last := WithoutYields(q[..|q| - 1]), q[|q| - 1];
      if Yields(last) then init else init + [last]
  }

  predicate ChildScripted(w: Words, m: Made, n: nat) {
    if n == 0 || n == 2 then SetsAffinity(m, MASK1)
    else (n == 1 || n == 3) && GetsCpu(m, w.observed1)
  }

  /** Apart from its yields the child sets its affinity and asks for its CPU,
      once at the start and once more at re-entry, and exits only after one of
      these failed or found it on another CPU. */
  ghost predicate ChildLog(w: Words, q: seq<Made>) {
    var r := WithoutYields(q);
    exists n: nat :: ChildLogTo(w, r, n)
  }

  predicate ChildLogTo(w: Words, r: seq<Made>, n: nat) {
    && n <= |r| <= n + 1
    && (forall k | 0 <= k < n :: ChildScripted(w, r[k], k))
    && (forall k | 0 <= k < n - 1 :: r[k].result == 0)
    && (n < |r| ==> Exits(r[n]) && n > 0 && (r[n - 1].result != 0 || (n % 2 == 0 && !Found(r[n], w.observed1, 1))))
  }
}
