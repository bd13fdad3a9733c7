/** Bytes, 32-bit words and the fixed-width integer codecs of the program's
    `struct.pack` calls. */
module Bytes {

  type byte = x: int | 0 <= x < 256

  type word = x: int | 0 <= x < 0x1_0000_0000

  /** `bytes(n)`: n zero bytes. */
  function Zeros(n: nat): (s: seq<byte>)
    ensures |s| == n && forall i | 0 <= i < n :: s[i] == 0
  {
    seq(n, _ => 0)
  }

  function Pow256(n: nat): (p: nat)
    ensures p >= 1
  {
    if n == 0 then 1 else 256 * Pow256(n - 1)
  }

  // ----- little-endian words -----

  function Pack(w: word): (s: seq<byte>)
    ensures |s| == 4 && Unpack(s) == w
  {
    [w % 256, w / 0x100 % 256, w / 0x1_0000 % 256, w / 0x100_0000]
  }

  function Unpack(s: seq<byte>): (w: word)
    requires |s| == 4
  {
    var a: int, b: int, c: int, d: int := s[0], s[1], s[2], s[3];
    a + 0x100 * (b + 0x100 * (c + 0x100 * d))
  }

  lemma UnpackPack(s: seq<byte>)
    requires |s| == 4
    ensures Pack(Unpack(s)) == s
  {
    var a: int, b: int, c: int, d: int := s[0], s[1], s[2], s[3];
    var w := a + 0x100 * (b + 0x100 * (c + 0x100 * d));
    assert w % 256 == a && w / 0x100 == b + 0x100 * (c + 0x100 * d);
    assert w / 0x1_0000 == c + 0x100 * d && w / 0x100_0000 == d;
  }

  // ----- naturals of any width -----

  function LittleEndian(n: nat, width: nat): (s: seq<byte>)
    ensures |s| == width
  {
    if width == 0 then [] else [n % 256] + LittleEndian(n / 256, width - 1)
  }

  function BigEndian(n: nat, width: nat): (s: seq<byte>)
    ensures |s| == width
  {
    if width == 0 then [] else BigEndian(n / 256, width - 1) + [n % 256]
  }

  function FromBigEndian(s: seq<byte>): (n: nat)
  {
    if s == [] then 0 else
    var last: int := s[|s| - 1];
    256 * FromBigEndian(s[..|s| - 1]) + last
  }

  lemma {:induction false} BigEndianRoundTrip(n: nat, width: nat)
    requires n < Pow256(width)
    ensures FromBigEndian(BigEndian(n, width)) == n
  {
    if width > 0 {
      var s := BigEndian(n, width);
      assert s[..width - 1] == BigEndian(n / 256, width - 1);
      BigEndianRoundTrip(n / 256, width - 1);
    }
  }

  lemma {:induction false} FromBigEndianRoundTrip(s: seq<byte>)
    ensures FromBigEndian(s) < Pow256(|s|)
    ensures BigEndian(FromBigEndian(s), |s|) == s
  {
    if s != [] {
      var init := s[..|s| - 1];
      FromBigEndianRoundTrip(init);
      assert s == init + [s[|s| - 1]];
      assert FromBigEndian(s) / 256 == FromBigEndian(init);
    }
  }

  // ----- positional digits -----

  lemma SmallMultiple(d: int, x: int)
    requires -d < d * x < d
    ensures x == 0
  {
    assert x >= 1 ==> d * (x - 1) >= 0;
    assert x <= -1 ==> d * (x + 1) <= 0;
  }

  lemma Quotient(n: nat, d: nat, q: nat, r: nat)
    requires d > 0 && n == d * q + r && r < d
    ensures n / d == q
  {
    var x := q - n / d;
    assert d * x == n % d - r;
    SmallMultiple(d, x);
  }

  lemma Recompose(n: nat, a: nat, t: nat, m: nat, b: nat, q: nat, r: nat)
    requires n == a * t + m && t == b * q + r
    ensures n == a * b * q + (a * r + m)
  {
  }

  lemma Below(a: nat, b: nat, r: nat, m: nat)
    requires r < b && m < a
    ensures a * r + m < a * b
  {
    assert a * (b - r - 1) >= 0;
    assert a * (b - r - 1) == a * b - a * r - a;
  }

  lemma Euclid(n: nat, a: nat)
    requires a > 0
    ensures n == a * (n / a) + n % a
  {
  }

  lemma DivideTwice(n: nat, a: nat, b: nat)
    requires a > 0 && b > 0
    ensures a * b > 0 && n / a / b == n / (a * b)
  {
    var t, m := n / a, n % a;
    Euclid(n, a);
    var q, r := t / b, t % b;
    Euclid(t, b);
    DividedTwice(n, a, t, m, b, q, r);
  }

  lemma DividedTwice(n: nat, a: nat, t: nat, m: nat, b: nat, q: nat, r: nat)
    requires n == a * t + m && t == b * q + r && m < a && r < b
    ensures a * b > 0 && n / (a * b) == q
  {
    Recompose(n, a, t, m, b, q, r);
    Below(a, b, r, m);
    Quotient(n, a * b, q, a * r + m);
  }

  /** The bytes of `n`, most significant first. */
  predicate Octets(s: seq<byte>, n: nat) {
    forall i | 0 <= i < |s| :: s[i] == n / Pow256(|s| - 1 - i) % 256
  }

  lemma {:induction false} BigEndianOctets(n: nat, width: nat)
    ensures Octets(BigEndian(n, width), n)
  {
    var s := BigEndian(n, width);
    forall i | 0 <= i < width ensures s[i] == n / Pow256(width - 1 - i) % 256 {
      if i < width - 1 {
        BigEndianOctets(n / 256, width - 1);
        assert s[i] == BigEndian(n / 256, width - 1)[i];
        DivideTwice(n, 256, Pow256(width - 2 - i));
      }
    }
  }
}
