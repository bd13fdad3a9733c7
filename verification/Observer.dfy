/** The streaming marker observer: each output stream is searched through a
    sliding window of its last 65536 bytes. */
module Observer {
  import opened Bytes

  const WINDOW: nat := 65536

  predicate OccursAt(m: seq<byte>, s: seq<byte>, i: int) {
    0 <= i <= |s| - |m| && s[i..i + |m|] == m
  }

  /** `m in s` of Python byte strings. */
  predicate Occurs(m: seq<byte>, s: seq<byte>) {
    exists i | 0 <= i <= |s| :: OccursAt(m, s, i)
  }

  function Concat(chunks: seq<seq<byte>>): seq<byte> {
    if chunks == [] then [] else Concat(chunks[..|chunks| - 1]) + chunks[|chunks| - 1]
  }

  /** `del tail[: len(tail) - MAX]` when the tail is longer. */
  function Trim(s: seq<byte>): seq<byte> {
    if |s| > WINDOW then s[|s| - WINDOW..] else s
  }

  /** The window left by feeding these chunks to one stream. */
  function Tail(chunks: seq<seq<byte>>): seq<byte> {
    if chunks == [] then [] else Trim(Tail(chunks[..|chunks| - 1]) + chunks[|chunks| - 1])
  }

  /** Whether some feed of these chunks found `m` in its window. */
  predicate Found(m: seq<byte>, chunks: seq<seq<byte>>) {
    chunks != [] &&
    var before := chunks[..|chunks| - 1];
    Found(m, before) || Occurs(m, Tail(before) + chunks[|chunks| - 1])
  }

  // ----- chunk independence -----

  lemma TrimAgain(s: seq<byte>, t: seq<byte>)
    ensures Trim(Trim(s) + t) == Trim(s + t)
  {
    if |s| > WINDOW {
      assert Trim(s) + t == (s + t)[|s| - WINDOW..];
    }
  }

  lemma TrimNothing()
    ensures Trim([]) == []
  {
  }

  lemma {:induction false} TailIsSuffix(chunks: seq<seq<byte>>)
    ensures Tail(chunks) == Trim(Concat(chunks))
    decreases |chunks|
  {
    hide Trim;
    if chunks == [] {
      TrimNothing();
    } else {
      var before := chunks[..|chunks| - 1];
      TailIsSuffix(before);
      TrimAgain(Concat(before), chunks[|chunks| - 1]);
    }
  }

  lemma OccursInSuffix(m: seq<byte>, s: seq<byte>, k: nat)
    requires k <= |s| && Occurs(m, s[k..])
    ensures Occurs(m, s)
  {
    var i :| 0 <= i <= |s[k..]| && OccursAt(m, s[k..], i);
    assert s[k..][i..i + |m|] == s[k + i..k + i + |m|];
    assert OccursAt(m, s, k + i);
  }

  lemma OccursInPrefix(m: seq<byte>, s: seq<byte>, t: seq<byte>)
    requires Occurs(m, s)
    ensures Occurs(m, s + t)
  {
    var i :| 0 <= i <= |s| && OccursAt(m, s, i);
    assert (s + t)[i..i + |m|] == s[i..i + |m|];
    assert OccursAt(m, s + t, i);
  }

  /** Every occurrence ends in the old bytes or starts in the window. */
  lemma NewOccurrence(m: seq<byte>, s: seq<byte>, t: seq<byte>)
    requires 1 <= |m| <= WINDOW + 1
    ensures Occurs(m, s + t) <==> Occurs(m, s) || Occurs(m, Trim(s) + t)
  {
    var k := if |s| > WINDOW then |s| - WINDOW else 0;
    assert Trim(s) + t == (s + t)[k..];
    if Occurs(m, s) {
      OccursInPrefix(m, s, t);
    }
    if Occurs(m, Trim(s) + t) {
      OccursInSuffix(m, s + t, k);
    }
    if Occurs(m, s + t) {
      var i :| 0 <= i <= |s + t| && OccursAt(m, s + t, i);
      if i + |m| <= |s| {
        assert (s + t)[i..i + |m|] == s[i..i + |m|];
        assert OccursAt(m, s, i);
      } else {
        assert (s + t)[k..][i - k..i - k + |m|] == (s + t)[i..i + |m|];
        assert OccursAt(m, Trim(s) + t, i - k);
      }
    }
  }

  /** However a stream is cut into chunks, a marker of 1 to 65537 bytes is
      found exactly when it occurs in the whole stream. */
  lemma {:induction false} ChunkIndependence(m: seq<byte>, chunks: seq<seq<byte>>)
    requires 1 <= |m| <= WINDOW + 1
    ensures Found(m, chunks) <==> Occurs(m, Concat(chunks))
    decreases |chunks|
  {
    if chunks == [] {
      assert forall i :: !OccursAt(m, [], i);
    } else {
      hide Occurs;
      var before := chunks[..|chunks| - 1];
      ChunkIndependence(m, before);
      TailIsSuffix(before);
      NewOccurrence(m, Concat(before), chunks[|chunks| - 1]);
    }
  }

  function Singletons(s: seq<byte>): (c: seq<seq<byte>>)
    ensures |c| == |s| && forall i | 0 <= i < |s| :: c[i] == [s[i]]
  {
    seq(|s|, i requires 0 <= i < |s| => [s[i]])
  }

  lemma {:induction false} ConcatSingletons(s: seq<byte>)
    ensures Concat(Singletons(s)) == s
    decreases |s|
  {
    if s != [] {
      var c, before := Singletons(s), s[..|s| - 1];
      assert c[..|c| - 1] == Singletons(before);
      ConcatSingletons(before);
    }
  }

  /** Fed byte by byte, no window ever exceeds 65537 bytes. */
  lemma {:induction false} LongMarkerUnseen(m: seq<byte>, chunks: seq<seq<byte>>)
    requires |m| > WINDOW + 1 && forall i | 0 <= i < |chunks| :: |chunks[i]| == 1
    ensures !Found(m, chunks)
    decreases |chunks|
  {
    if chunks != [] {
      var before := chunks[..|chunks| - 1];
      LongMarkerUnseen(m, before);
      TailIsSuffix(before);
      assert |Tail(before) + chunks[|chunks| - 1]| <= WINDOW + 1;
    }
  }

  ghost predicate Independent(m: seq<byte>) {
    forall chunks :: Found(m, chunks) <==> Occurs(m, Concat(chunks))
  }

  /** The window is wide enough for exactly these marker lengths. */
  lemma IndependentExactly(m: seq<byte>)
    ensures Independent(m) <==> 1 <= |m| <= 65537
  {
    if 1 <= |m| <= WINDOW + 1 {
      forall chunks ensures Found(m, chunks) <==> Occurs(m, Concat(chunks)) {
        ChunkIndependence(m, chunks);
      }
    } else if m == [] {
      var nothing: seq<seq<byte>> := [];
      assert OccursAt(m, Concat(nothing), 0);
      assert !Found(m, nothing) && Occurs(m, Concat(nothing));
    } else {
      var chunks := Singletons(m);
      ConcatSingletons(m);
      LongMarkerUnseen(m, chunks);
      assert m[0..|m|] == m;
      assert OccursAt(m, m, 0);
      assert !Found(m, chunks) && Occurs(m, Concat(chunks));
    }
  }

  // ----- the observer object -----

  datatype Stream = Stdout | Stderr

  type Fed = map<Stream, seq<seq<byte>>>

  /** Each window is the one its stream's chunks leave. */
  predicate Windows(tails: map<Stream, seq<byte>>, fed: Fed)
    requires Stdout in tails && Stderr in tails && Stdout in fed && Stderr in fed
  {
    && tails[Stdout] == Tail(fed[Stdout]) && tails[Stderr] == Tail(fed[Stderr])
  }

  predicate Seen(m: seq<byte>, fed: Fed)
    requires Stdout in fed && Stderr in fed
  {
    Found(m, fed[Stdout]) || Found(m, fed[Stderr])
  }

  /** What one more chunk does to the windows. */
  lemma FeedWindows(tails: map<Stream, seq<byte>>, fed: Fed, name: Stream, chunk: seq<byte>)
    requires Stdout in tails && Stderr in tails && Stdout in fed && Stderr in fed && Windows(tails, fed)
    ensures Windows(tails[name := Trim(tails[name] + chunk)], fed[name := fed[name] + [chunk]])
  {
    hide Trim;
    assert (fed[name] + [chunk])[..|fed[name]|] == fed[name];
  }

  /** What one more chunk does to a search. */
  lemma FeedSeen(m: seq<byte>, tails: map<Stream, seq<byte>>, fed: Fed, name: Stream, chunk: seq<byte>)
    requires Stdout in tails && Stderr in tails && Stdout in fed && Stderr in fed && Windows(tails, fed)
    ensures Seen(m, fed[name := fed[name] + [chunk]]) <==> Seen(m, fed) || Occurs(m, tails[name] + chunk)
  {
    hide Occurs, Trim;
    assert (fed[name] + [chunk])[..|fed[name]|] == fed[name];
  }

  class OutputObserver {
    const readyMarker: seq<byte>
    const successMarker: seq<byte>
    const failureMarker: seq<byte>
    var tails: map<Stream, seq<byte>>
    var ready: bool
    var success: bool
    var failure: bool
    ghost var fed: map<Stream, seq<seq<byte>>>

    ghost predicate Valid()
      reads this
    {
      && Stdout in tails && Stderr in tails && Stdout in fed && Stderr in fed
      && Windows(tails, fed)
      && (ready <==> Seen(readyMarker, fed))
      && (success <==> Seen(successMarker, fed))
      && (failure <==> Seen(failureMarker, fed))
    }

    constructor (r: seq<byte>, s: seq<byte>, f: seq<byte>)
      ensures Valid() && readyMarker == r && successMarker == s && failureMarker == f
      ensures fed == map[Stdout := [], Stderr := []]
    {
      readyMarker, successMarker, failureMarker := r, s, f;
      tails := map[Stdout := [], Stderr := []];
      ready, success, failure := false, false, false;
      fed := map[Stdout := [], Stderr := []];
    }

    method Feed(name: Stream, chunk: seq<byte>)
      requires Valid()
      modifies this
      ensures Valid() && fed == old(fed)[name := old(fed)[name] + [chunk]]
    {
      hide Occurs, Trim, Tail, Windows, Seen, Found;
      ghost var after := fed[name := fed[name] + [chunk]];
      FeedWindows(tails, fed, name, chunk);
      FeedSeen(readyMarker, tails, fed, name, chunk);
      FeedSeen(successMarker, tails, fed, name, chunk);
      FeedSeen(failureMarker, tails, fed, name, chunk);
      var tail := tails[name] + chunk;
      var r, s, f := Occurs(readyMarker, tail), Occurs(successMarker, tail), Occurs(failureMarker, tail);
      ready, success, failure := ready || r, success || s, failure || f;
      tails := tails[name := Trim(tail)];
      fed := after;
    }

    /** What the three flags mean, for markers the window is wide enough for. */
    lemma FlagsMean()
      requires Valid()
      requires 1 <= |readyMarker| <= WINDOW + 1 && 1 <= |successMarker| <= WINDOW + 1
      requires 1 <= |failureMarker| <= WINDOW + 1
      ensures ready <==> Occurs(readyMarker, Concat(fed[Stdout])) || Occurs(readyMarker, Concat(fed[Stderr]))
      ensures success <==> Occurs(successMarker, Concat(fed[Stdout])) || Occurs(successMarker, Concat(fed[Stderr]))
      ensures failure <==> Occurs(failureMarker, Concat(fed[Stdout])) || Occurs(failureMarker, Concat(fed[Stderr]))
    {
      hide Found, Occurs;
      ChunkIndependence(readyMarker, fed[Stdout]);
      ChunkIndependence(readyMarker, fed[Stderr]);
      ChunkIndependence(successMarker, fed[Stdout]);
      ChunkIndependence(successMarker, fed[Stderr]);
      ChunkIndependence(failureMarker, fed[Stdout]);
      ChunkIndependence(failureMarker, fed[Stderr]);
    }
  }
}
