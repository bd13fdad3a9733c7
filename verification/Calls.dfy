/** Single system calls as the kernel sees them, spelled out. */
module Calls {
  import opened Bytes
  import opened Machine
  import opened Blocks
  import opened Duo
  import opened DuoOps
  import opened DuoCode

  // Affinity masks of CPU 0 and CPU 1.
  const MASK0: seq<byte> := [1, 0, 0, 0, 0, 0, 0, 0]
  const MASK1: seq<byte> := [2, 0, 0, 0, 0, 0, 0, 0]

  /** `sched_setaffinity(0, 8, mask)`. */
  predicate SetsAffinity(m: Made, mask: seq<byte>) {
    m.number == 122 && m.x0 == 0 && m.x1 == 8 && Holds(m.mem, m.x2, mask)
  }

  /** `getcpu(&observed, NULL, NULL)`. */
  predicate GetsCpu(m: Made, observed: int) {
    m.number == 168 && m.x0 == observed && m.x1 == 0 && m.x2 == 0
  }

  /** `clone(CLONE_VM | SIGCHLD, stack)` with 4096 zero bytes below an aligned
      top. */
  predicate Clones(m: Made) {
    && m.number == 220 && m.x0 == 0x100 + 17 && m.x2 == 0 && m.x3 == 0 && m.x4 == 0
    && m.x1 % 16 == 0 && Holds(m.mem, m.x1 - 4096, Zeros(4096))
  }

  /** `write(fd, text, |text|)`. */
  predicate Writes(m: Made, fd: u64, text: seq<byte>) {
    m.number == 64 && m.x0 == fd && m.x2 == |text| && Holds(m.mem, m.x1, text)
  }

  /** `sched_yield()`. */
  predicate Yields(m: Made) { m.number == 124 }

  predicate Exits(m: Made) { m.number == 93 && m.x0 == 1 }

  /** The word at this address held the value when the call was made. */
  predicate Found(m: Made, address: int, value: word) { Mapped(m.mem, address) && Load32(m.mem, address) == value }

  // ----- one log, two callers -----

  function By(log: seq<Made>, who: Who): seq<Made> {
    if log == [] then []
    else
      var init, last := By(log[..|log| - 1], who), log[|log| - 1];
      if last.who == who then init + [last] else init
  }

  lemma ByAppend(log: seq<Made>, m: Made, who: Who)
    ensures By(log + [m], who) == if m.who == who then By(log, who) + [m] else By(log, who)
  {
    assert (log + [m])[..|log|] == log;
  }

  /** A step leaves the other CPU's calls alone. */
  lemma OtherCalls(s: Pair, t: Pair, who: Who, e: Cpu, other: Who)
    requires SameLog(s, t) || Logged(s, who, e, t)
    requires other != who
    ensures s.Pair? && t.Pair? && By(t.log, other) == By(s.log, other)
  {
    if Logged(s, who, e, t) {
      ByAppend(s.log, MadeBy(who, Of(s, who), s.mem, e.x[0]), other);
    }
  }
}
