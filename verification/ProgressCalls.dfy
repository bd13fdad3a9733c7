/** Which system calls the progress program makes, in which order, with which
    arguments and bytes, as the kernel sees them. Everything here is spelled
    out; nothing comes from the code or the data of the program. */
module ProgressCalls {
  import opened Bytes
  import opened Machine
  import opened Blocks
  import opened Duo
  import opened Calls

  // The bytes the program holds: the marker in ASCII, the two tokens, and a
  // delay of no seconds and a million nanoseconds.
  const READY: seq<byte> := [0x42, 0x42, 0x53, 0x4D, 0x50, 0x52, 0x45, 0x41, 0x44, 0x59, 0x0A]
  const TOKEN0: seq<byte> := [0xA5]
  const TOKEN1: seq<byte> := [0xD3]
  const DELAY: seq<byte> := [0, 0, 0, 0, 0, 0, 0, 0, 0x40, 0x42, 0x0F, 0, 0, 0, 0, 0]

  /** `nanosleep(&delay, NULL)`. */
  predicate Sleeps(m: Made) { m.number == 101 && m.x1 == 0 && Holds(m.mem, m.x0, DELAY) }

  /** The addresses of the words the calls are about. */
  datatype Words = Words(observed0: int, observed1: int, ready: int, start: int)

  /** Token, sleep, yield, again and again. */
  predicate Turns(w: Words, m: Made, n: nat, token: seq<byte>) {
    && Found(m, w.start, 1)
    && if n % 3 == 0 then Writes(m, 1, token) else if n % 3 == 1 then Sleeps(m) else Yields(m)
  }

  /** The parent's calls in order, each what it should be when it is made. */
  predicate Scripted(w: Words, m: Made, n: nat) {
    if n == 0 then SetsAffinity(m, MASK0)
    else if n == 1 then GetsCpu(m, w.observed0)
    else if n == 2 then Clones(m) && Found(m, w.observed0, 0)
    else if n == 3 then Writes(m, 1, READY) && Found(m, w.ready, 1)
    else Turns(w, m, n - 4, TOKEN0)
  }

  /** The child's calls in order. */
  predicate ChildScripted(w: Words, m: Made, n: nat) {
    if n == 0 then SetsAffinity(m, MASK1)
    else if n == 1 then GetsCpu(m, w.observed1)
    else Turns(w, m, n - 2, TOKEN1) && Found(m, w.observed1, 1)
  }

  predicate AsScripted(w: Words, who: Who, m: Made, n: nat) {
    if who.First? then Scripted(w, m, n) else ChildScripted(w, m, n)
  }

  /** The call returned what lets its CPU go on. */
  predicate Succeeded(who: Who, m: Made, n: nat) {
    if n <= 1 then m.result == 0 else who.First? && n == 2 ==> m.result < SIGN
  }

  /** The word that tells a CPU where it runs, and what it should find. */
  function Observed(w: Words, who: Who): int { if who.First? then w.observed0 else w.observed1 }

  function Expected(who: Who): word { if who.First? then 0 else 1 }

  /** A CPU's calls follow its script; only after a call that failed, or after
      it found itself on another CPU, does it exit, and then makes no further
      call. */
  ghost predicate CallLog(w: Words, who: Who, p: seq<Made>) {
    exists n: nat :: CallLogTo(w, who, p, n)
  }

  /** The first `n` calls are scripted, all but the last of them succeeded. */
  predicate CallLogTo(w: Words, who: Who, p: seq<Made>, n: nat) {
    && n <= |p| <= n + 1
    && (forall k | 0 <= k < n :: AsScripted(w, who, p[k], k))
    && (forall k | 0 <= k < n - 1 :: Succeeded(who, p[k], k))
    && (n < |p| ==>
          && Exits(p[n]) && n > 0
          && (!Succeeded(who, p[n - 1], n - 1) || (n == 2 && !Found(p[n], Observed(w, who), Expected(who)))))
  }
}
