/** `int(text, 16)` as Python reads it: a scanner from the left, and what it
    accepts stated without the scanner. */
module PythonInt {
  import opened Bytes

  predicate IsSpace(b: byte) { b == 32 || 9 <= b <= 13 }

  /** Value of a hexadecimal digit, or 16. */
  function DigitValue(b: byte): (v: nat)
    ensures v <= 16
  {
    if 48 <= b <= 57 then b - 48
    else if 97 <= b <= 102 then b - 87
    else if 65 <= b <= 70 then b - 55
    else 16
  }

  datatype Option<T> = None | Some(value: T)

  datatype Scan = NoNumber | Number(value: nat, rest: seq<byte>)

  /** The longest run of digits, single underscores allowed between them. The
      result is the value and what follows. */
  function ScanDigits(s: seq<byte>, acc: nat, afterDigit: bool): Scan {
    if s == [] then if afterDigit then Number(acc, s) else NoNumber
    else if DigitValue(s[0]) < 16 then ScanDigits(s[1..], 16 * acc + DigitValue(s[0]), true)
    else if !afterDigit then NoNumber
    else if s[0] == 95 then ScanDigits(s[1..], acc, false)
    else Number(acc, s)
  }

  function TrimLeft(s: seq<byte>): seq<byte> {
    if s != [] && IsSpace(s[0]) then TrimLeft(s[1..]) else s
  }

  /** `int(s, 16)` without its sign. */
  function Magnitude(s: seq<byte>): Option<nat> {
    var prefixed := |s| >= 2 && s[0] == 48 && (s[1] == 120 || s[1] == 88);
    var t := if !prefixed then s else if |s| > 2 && s[2] == 95 then s[3..] else s[2..];
    match ScanDigits(t, 0, false)
    case NoNumber => None
    case Number(n, rest) => if TrimLeft(rest) == [] then Some(n) else None
  }

  /** `int(s, 16)`: surrounding space, a sign, an `0x` prefix and underscores
      are all accepted. */
  function HexInt(s: seq<byte>): Option<int> {
    var t := TrimLeft(s);
    if t != [] && (t[0] == 43 || t[0] == 45) then
      match Magnitude(t[1..])
      case None => None
      case Some(n) => Some(if t[0] == 45 then 0 - n else n)
    else
      match Magnitude(t)
      case None => None
      case Some(n) => Some(n)
  }

  // ----- what the text says -----

  /** The ASCII digit `b`, in either case, is worth `v`. */
  predicate DigitIs(b: byte, v: nat) {
    (v < 10 && b == 0x30 + v) || (10 <= v < 16 && (b == 0x61 + v - 10 || b == 0x41 + v - 10))
  }

  /** Tab, newline, vertical tab, form feed, carriage return or blank. */
  predicate Spaces(s: seq<byte>) {
    forall i | 0 <= i < |s| :: s[i] in {9, 10, 11, 12, 13, 32}
  }

  /** Digits, the last worth `v % 16`, with single underscores between them. */
  predicate Numeral(s: seq<byte>, v: nat)
    decreases |s|
  {
    && s != [] && DigitIs(s[|s| - 1], v % 16)
    && var init := s[..|s| - 1];
       if init == [] then v < 16
       else Numeral(init, v / 16) || (init[|init| - 1] == 0x5F && Numeral(init[..|init| - 1], v / 16))
  }

  /** `0x` or `0X`. */
  predicate Prefixed(s: seq<byte>) { |s| >= 2 && s[0] == 0x30 && (s[1] == 0x78 || s[1] == 0x58) }

  /** A numeral from `p` to `k`, after a prefix and one underscore at most, and
      nothing but space after it. */
  predicate MagnitudeAt(s: seq<byte>, n: nat, p: nat, k: nat) {
    && p <= k <= |s| && Numeral(s[p..k], n) && Spaces(s[k..])
    && (p == 0 || (Prefixed(s) && (p == 2 || (p == 3 && s[2] == 0x5F))))
  }

  ghost predicate IsMagnitude(s: seq<byte>, n: nat) {
    exists p: nat, k: nat :: MagnitudeAt(s, n, p, k)
  }

  /** Space up to `q`, then a sign or none, then the magnitude. */
  ghost predicate DenotesFrom(s: seq<byte>, v: int, q: nat) {
    && q <= |s| && Spaces(s[..q])
    && (|| (v >= 0 && IsMagnitude(s[q..], v))
        || (q < |s| && s[q] == 0x2B && v >= 0 && IsMagnitude(s[q + 1..], v))
        || (q < |s| && s[q] == 0x2D && v <= 0 && IsMagnitude(s[q + 1..], -v)))
  }

  ghost predicate Denotes(s: seq<byte>, v: int) {
    exists q: nat :: DenotesFrom(s, v, q)
  }

  // ----- the scanner -----

  lemma DigitValueIs(b: byte)
    ensures forall v: nat :: DigitIs(b, v) <==> v < 16 && v == DigitValue(b)
  {
  }

  lemma ScanOne(c: byte, t: seq<byte>, acc: nat, afterDigit: bool)
    ensures DigitValue(c) < 16 ==>
              ScanDigits([c] + t, acc, afterDigit) == ScanDigits(t, 16 * acc + DigitValue(c), true)
    ensures c == 0x5F && afterDigit ==> ScanDigits([c] + t, acc, afterDigit) == ScanDigits(t, acc, false)
  {
    assert ([c] + t)[1..] == t;
  }

  /** The last digit of a numeral, and what is before it. */
  lemma NumeralEnds(s: seq<byte>, n: nat)
    requires Numeral(s, n)
    ensures s != []
    ensures var init := s[..|s| - 1];
            && DigitValue(s[|s| - 1]) < 16 && n == 16 * (n / 16) + DigitValue(s[|s| - 1])
            && (if init == [] then n / 16 == 0
                else Numeral(init, n / 16) || (init[|init| - 1] == 0x5F && Numeral(init[..|init| - 1], n / 16)))
  {
    DigitValueIs(s[|s| - 1]);
  }

  lemma {:induction false} ScanNumeral(b: seq<byte>, n: nat, t: seq<byte>)
    requires Numeral(b, n)
    ensures ScanDigits(b + t, 0, false) == ScanDigits(t, n, true)
    decreases |b|
  {
    hide Numeral, ScanDigits, DigitValue;
    NumeralEnds(b, n);
    var init, d := b[..|b| - 1], b[|b| - 1];
    assert b + t == init + ([d] + t);
    if init == [] {
      assert init + ([d] + t) == [d] + t;
      ScanOne(d, t, 0, false);
    } else if Numeral(init, n / 16) {
      ScanNumeral(init, n / 16, [d] + t);
      ScanOne(d, t, n / 16, true);
    } else {
      var init2 := init[..|init| - 1];
      assert init + ([d] + t) == init2 + ([0x5F] + ([d] + t));
      ScanNumeral(init2, n / 16, [0x5F] + ([d] + t));
      ScanOne(0x5F, [d] + t, n / 16, true);
      ScanOne(d, t, n / 16, false);
    }
  }

  lemma ScanStops(t: seq<byte>, n: nat)
    requires Spaces(t)
    ensures ScanDigits(t, n, true) == Number(n, t)
  {
    if t != [] {
      assert t[0] in {9, 10, 11, 12, 13, 32};
    }
  }

  /** What has been scanned when a scan goes on with `acc`. */
  predicate Scanned(before: seq<byte>, acc: nat, afterDigit: bool) {
    if afterDigit then Numeral(before, acc)
    else if before == [] then acc == 0
    else before[|before| - 1] == 0x5F && Numeral(before[..|before| - 1], acc)
  }

  /** One more digit, or an underscore after one. */
  lemma ScannedMore(before: seq<byte>, c: byte, acc: nat, afterDigit: bool)
    requires Scanned(before, acc, afterDigit)
    ensures DigitValue(c) < 16 ==> Scanned(before + [c], 16 * acc + DigitValue(c), true)
    ensures c == 0x5F && afterDigit ==> Scanned(before + [c], acc, false)
  {
    var more := before + [c];
    assert more[..|before|] == before;
    DigitValueIs(c);
    if DigitValue(c) < 16 {
      var v := 16 * acc + DigitValue(c);
      assert v % 16 == DigitValue(c) && v / 16 == acc;
    }
  }

  lemma {:induction false} ScanIsNumeral(before: seq<byte>, s: seq<byte>, acc: nat, afterDigit: bool)
    requires Scanned(before, acc, afterDigit)
    ensures var r := ScanDigits(s, acc, afterDigit);
            r.Number? ==>
              && |r.rest| <= |s| && s[|s| - |r.rest|..] == r.rest
              && Numeral(before + s[..|s| - |r.rest|], r.value)
    decreases |s|
  {
    hide Numeral, DigitValue;
    var r := ScanDigits(s, acc, afterDigit);
    if s == [] || (DigitValue(s[0]) >= 16 && (s[0] != 95 || !afterDigit)) {
      assert before + s[..0] == before;
    } else {
      var more, rest := before + [s[0]], s[1..];
      ScannedMore(before, s[0], acc, afterDigit);
      if DigitValue(s[0]) < 16 {
        ScanIsNumeral(more, rest, 16 * acc + DigitValue(s[0]), true);
      } else {
        ScanIsNumeral(more, rest, acc, false);
      }
      if r.Number? {
        var k := |s| - |r.rest|;
        assert s[k..] == rest[k - 1..];
        assert before + s[..k] == more + rest[..k - 1];
      }
    }
  }

  lemma {:induction false} TrimLeftIs(s: seq<byte>) returns (q: nat)
    ensures q <= |s| && TrimLeft(s) == s[q..] && Spaces(s[..q])
    ensures q < |s| ==> s[q] !in {9, 10, 11, 12, 13, 32}
    decreases |s|
  {
    if s != [] && IsSpace(s[0]) {
      q := TrimLeftIs(s[1..]);
      q := q + 1;
      assert s[1..][q - 1..] == s[q..];
      forall i | 0 <= i < q ensures s[..q][i] in {9, 10, 11, 12, 13, 32} {
        if i > 0 {
          assert s[..q][i] == s[1..][..q - 1][i - 1];
        }
      }
    } else {
      q := 0;
    }
  }

  lemma OnlySpaces(s: seq<byte>)
    ensures TrimLeft(s) == [] <==> Spaces(s)
  {
    var q := TrimLeftIs(s);
    if q == |s| {
      assert s[..q] == s;
    }
  }

  lemma {:induction false} NumeralStarts(s: seq<byte>, n: nat)
    requires Numeral(s, n)
    ensures DigitValue(s[0]) < 16
    ensures |s| > 1 ==> DigitValue(s[1]) < 16 || s[1] == 0x5F
    decreases |s|
  {
    DigitValueIs(s[|s| - 1]);
    var init := s[..|s| - 1];
    if init != [] {
      if Numeral(init, n / 16) {
        NumeralStarts(init, n / 16);
      } else {
        NumeralStarts(init[..|init| - 1], n / 16);
      }
    }
  }

  /** Where the scanner starts, and that no other start would do. */
  lemma StartsThere(s: seq<byte>, n: nat, p: nat, k: nat)
    requires MagnitudeAt(s, n, p, k)
    ensures p == Start(s)
  {
    NumeralStarts(s[p..k], n);
    assert s[p..k][0] == s[p];
    assert k < |s| ==> s[k..][0] == s[k];
    assert p == 0 && k > 1 ==> s[p..k][1] == s[1];
  }

  function Start(s: seq<byte>): (p: nat)
    ensures p <= |s|
  {
    if !Prefixed(s) then 0 else if |s| > 2 && s[2] == 0x5F then 3 else 2
  }

  lemma MagnitudeScans(s: seq<byte>)
    ensures Magnitude(s) == match ScanDigits(s[Start(s)..], 0, false)
                            case NoNumber => None
                            case Number(n, rest) => if TrimLeft(rest) == [] then Some(n) else None
  {
    hide ScanDigits, TrimLeft;
    assert s[0..] == s;
  }

  lemma MagnitudeIs(s: seq<byte>, n: nat)
    requires Magnitude(s) == Some(n)
    ensures IsMagnitude(s, n)
  {
    hide ScanDigits, TrimLeft, Magnitude, Numeral;
    MagnitudeScans(s);
    var p := Start(s);
    var t := s[p..];
    assert Scanned([], 0, false);
    ScanIsNumeral([], t, 0, false);
    var rest := ScanDigits(t, 0, false).rest;
    OnlySpaces(rest);
    var k := p + |t| - |rest|;
    assert s[p..k] == [] + t[..|t| - |rest|] && s[k..] == t[|t| - |rest|..];
    assert MagnitudeAt(s, n, p, k);
  }

  lemma MagnitudeFound(s: seq<byte>, n: nat)
    requires IsMagnitude(s, n)
    ensures Magnitude(s) == Some(n)
  {
    hide ScanDigits, TrimLeft, Magnitude, Numeral, Spaces;
    MagnitudeScans(s);
    var p: nat, k: nat :| MagnitudeAt(s, n, p, k);
    StartsThere(s, n, p, k);
    assert s[p..] == s[p..k] + s[k..];
    ScanNumeral(s[p..k], n, s[k..]);
    ScanStops(s[k..], n);
    OnlySpaces(s[k..]);
  }

  lemma MagnitudeExactly(s: seq<byte>, n: nat)
    ensures Magnitude(s) == Some(n) <==> IsMagnitude(s, n)
  {
    hide Magnitude, IsMagnitude;
    if Magnitude(s) == Some(n) {
      MagnitudeIs(s, n);
    }
    if IsMagnitude(s, n) {
      MagnitudeFound(s, n);
    }
  }

  /** The first character of a magnitude is a digit. */
  lemma MagnitudeStarts(s: seq<byte>, n: nat)
    requires IsMagnitude(s, n)
    ensures s != [] && DigitValue(s[0]) < 16
  {
    var p: nat, k: nat :| MagnitudeAt(s, n, p, k);
    NumeralStarts(s[p..k], n);
    assert s[p..k][0] == s[p];
  }

  /** What is denoted starts with a sign or a digit. */
  lemma DenotedStarts(s: seq<byte>, v: int, q: nat)
    requires DenotesFrom(s, v, q)
    ensures q < |s| && s[q] !in {9, 10, 11, 12, 13, 32}
  {
    hide IsMagnitude;
    if v >= 0 && IsMagnitude(s[q..], v) {
      MagnitudeStarts(s[q..], v);
      assert s[q..][0] == s[q];
    }
  }

  lemma DenotesHere(s: seq<byte>, v: int, q: nat)
    requires q <= |s| && Spaces(s[..q]) && (q < |s| ==> s[q] !in {9, 10, 11, 12, 13, 32})
    ensures Denotes(s, v) <==> DenotesFrom(s, v, q)
  {
    hide IsMagnitude;
    if Denotes(s, v) {
      var q': nat :| DenotesFrom(s, v, q');
      DenotedStarts(s, v, q');
      assert q == q';
    }
  }

  /** The scanner accepts exactly the texts that denote an integer, and gives
      that integer. */
  lemma HexIntExactly(s: seq<byte>, v: int)
    ensures HexInt(s) == Some(v) <==> Denotes(s, v)
  {
    hide Magnitude, IsMagnitude, Spaces;
    var q := TrimLeftIs(s);
    DenotesHere(s, v, q);
    var t := s[q..];
    if t != [] && (t[0] == 43 || t[0] == 45) {
      assert t[1..] == s[q + 1..];
      NoSignIsMagnitude(t, v);
      if v >= 0 {
        MagnitudeExactly(t[1..], v);
      }
      if v <= 0 {
        MagnitudeExactly(t[1..], -v);
      }
    } else if v >= 0 {
      MagnitudeExactly(t, v);
    }
  }

  lemma NoSignIsMagnitude(t: seq<byte>, v: int)
    requires t != [] && (t[0] == 43 || t[0] == 45)
    ensures v >= 0 ==> !IsMagnitude(t, v)
  {
    hide IsMagnitude;
    if v >= 0 && IsMagnitude(t, v) {
      MagnitudeStarts(t, v);
    }
  }
}
