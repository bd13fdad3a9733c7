/** The cpio "newc" archive: the writer of one entry, and the parser that
    walks an archive by offset. Offsets and sizes are Python integers: the
    parser reads a size with `int(field, 16)`, which accepts a sign, so an
    offset can also move backwards. */
module Cpio {
  import opened Bytes
  import opened PythonInt

  const HEADER: int := 110
  const FIELDS: nat := 13

  // ----- Python slices -----

  function Clamp(i: int, n: nat): (c: nat)
    ensures c <= n
  {
    var j := if i < 0 then i + n else i;
    if j < 0 then 0 else if j > n then n else j
  }

  /** `data[lo:hi]`. */
  function Slice(data: seq<byte>, lo: int, hi: int): (s: seq<byte>)
    ensures 0 <= lo <= hi <= |data| ==> s == data[lo..hi]
  {
    var l, h := Clamp(lo, |data|), Clamp(hi, |data|);
    if l <= h then data[l..h] else []
  }

  function Align4(offset: int): (a: int)
    ensures a % 4 == 0 && offset <= a < offset + 4
  {
    offset + (-offset) % 4
  }

  // ----- the parser -----

  datatype Error =
    | EndedEarly | BadMagic | BadField | BadNameSize | NameNotTerminated | NameNotText | Truncated | TrailingData

  datatype Entry = Entry(name: seq<byte>, payload: seq<byte>, fields: seq<int>)

  /** One turn of the parser's loop: stop with an error, stop after the
      trailer, or go on at another offset. */
  datatype Turn = Fail(error: Error) | Last(entry: Entry) | More(entry: Entry, offset: int)

  const MAGIC: seq<byte> := [48, 55, 48, 55, 48, 49]
  const TRAILER: seq<byte> := [84, 82, 65, 73, 76, 69, 82, 33, 33, 33]

  const FILESIZE: nat := 6
  const NAMESIZE: nat := 11

  function FieldAt(header: seq<byte>, i: nat): seq<byte> {
    Slice(header, 6 + 8 * i, 14 + 8 * i)
  }

  predicate AllZero(s: seq<byte>) { forall i | 0 <= i < |s| :: s[i] == 0 }

  predicate FieldsParse(header: seq<byte>) {
    forall i | 0 <= i < FIELDS :: HexInt(FieldAt(header, i)).Some?
  }

  function Fields(header: seq<byte>): (f: seq<int>)
    requires FieldsParse(header)
    ensures |f| == FIELDS
  {
    seq(FIELDS, i requires 0 <= i < FIELDS => HexInt(FieldAt(header, i)).value)
  }

  /** Whether bytes are valid UTF-8 is a parameter. */
  type Decodes = seq<byte> -> bool

  function ParsePayload(data: seq<byte>, offset: int, name: seq<byte>, fields: seq<int>): Turn
    requires |fields| == FIELDS
  {
    var end := offset + fields[FILESIZE];
    if end > |data| then Fail(Truncated)
    else
      var entry := Entry(name, Slice(data, offset, end), fields);
      var next := Align4(end);
      if name != TRAILER then More(entry, next)
      else if AllZero(Slice(data, next, |data|)) then Last(entry)
      else Fail(TrailingData)
  }

  function ParseName(data: seq<byte>, decodes: Decodes, offset: int, fields: seq<int>): Turn
    requires |fields| == FIELDS
  {
    var end := offset + fields[NAMESIZE];
    if fields[NAMESIZE] == 0 || end > |data| then Fail(BadNameSize)
    else
      var raw := Slice(data, offset, end);
      if raw == [] || raw[|raw| - 1] != 0 then Fail(NameNotTerminated)
      else if !decodes(raw[..|raw| - 1]) then Fail(NameNotText)
      else ParsePayload(data, Align4(end), raw[..|raw| - 1], fields)
  }

  function ParseTurn(data: seq<byte>, decodes: Decodes, offset: int): Turn {
    if offset + HEADER > |data| then Fail(EndedEarly)
    else
      var header := Slice(data, offset, offset + HEADER);
      if Slice(header, 0, 6) != MAGIC then Fail(BadMagic)
      else if !FieldsParse(header) then Fail(BadField)
      else ParseName(data, decodes, offset + HEADER, Fields(header))
  }

  datatype Outcome = Parsed(entries: seq<Entry>) | Failed(error: Error) | Unfinished(done: seq<Entry>, at: int)

  /** The loop from `offset`, for at most `turns` turns. */
  function ParseFrom(data: seq<byte>, decodes: Decodes, offset: int, done: seq<Entry>, turns: nat): Outcome
    decreases turns
  {
    if turns == 0 then Unfinished(done, offset)
    else
      match ParseTurn(data, decodes, offset)
      case Fail(e) => Failed(e)
      case Last(entry) => Parsed(done + [entry])
      case More(entry, next) => ParseFrom(data, decodes, next, done + [entry], turns - 1)
  }

  /** `parse_newc_entries`, cut off after `turns` turns. */
  method Parse(data: seq<byte>, decodes: Decodes, turns: nat) returns (r: Outcome)
    ensures r == ParseFrom(data, decodes, 0, [], turns)
  {
    hide ParseTurn;
    var entries: seq<Entry> := [];
    var offset := 0;
    var k := 0;
    while k < turns
      invariant k <= turns
      invariant ParseFrom(data, decodes, 0, [], turns) == ParseFrom(data, decodes, offset, entries, turns - k)
    {
      match ParseTurn(data, decodes, offset) {
        case Fail(e) => return Failed(e);
        case Last(entry) => return Parsed(entries + [entry]);
        case More(entry, next) => entries, offset := entries + [entry], next;
      }
      k := k + 1;
    }
    return Unfinished(entries, offset);
  }

  // ----- what one turn does, in the bytes' own terms -----

  /** What the thirteen fields of the header at `o` say. */
  ghost predicate FieldsAre(data: seq<byte>, o: nat, f: seq<int>)
    requires o + 110 <= |data|
  {
    |f| == 13 && forall i | 0 <= i < 13 :: Denotes(data[o + 6 + 8 * i..o + 14 + 8 * i], f[i])
  }

  lemma FieldIs(data: seq<byte>, o: nat, i: nat, v: int)
    requires o + 110 <= |data| && i < 13
    ensures HexInt(FieldAt(Slice(data, o, o + HEADER), i)) == Some(v)
       <==> Denotes(data[o + 6 + 8 * i..o + 14 + 8 * i], v)
  {
    hide HexInt, Denotes;
    var header := Slice(data, o, o + HEADER);
    assert header == data[o..o + 110];
    assert FieldAt(header, i) == header[6 + 8 * i..14 + 8 * i];
    PartOf(data, o, header, 6 + 8 * i, 14 + 8 * i);
    HexIntExactly(data[o + 6 + 8 * i..o + 14 + 8 * i], v);
  }

  lemma FieldsAreParsed(data: seq<byte>, o: nat, f: seq<int>)
    requires o + 110 <= |data| && FieldsAre(data, o, f)
    ensures FieldsParse(Slice(data, o, o + HEADER)) && Fields(Slice(data, o, o + HEADER)) == f
  {
    hide HexInt, Denotes, FieldAt, Slice;
    var header := Slice(data, o, o + HEADER);
    forall i | 0 <= i < 13 ensures HexInt(FieldAt(header, i)) == Some(f[i]) {
      FieldIs(data, o, i, f[i]);
    }
  }

  lemma ParsedFieldsAre(data: seq<byte>, o: nat)
    requires o + 110 <= |data| && FieldsParse(Slice(data, o, o + HEADER))
    ensures FieldsAre(data, o, Fields(Slice(data, o, o + HEADER)))
  {
    hide HexInt, Denotes, FieldAt, Slice;
    var header := Slice(data, o, o + HEADER);
    forall i | 0 <= i < 13 ensures Denotes(data[o + 6 + 8 * i..o + 14 + 8 * i], Fields(header)[i]) {
      FieldIs(data, o, i, HexInt(FieldAt(header, i)).value);
    }
  }

  /** A turn starts only at a whole header with the magic and thirteen fields
      that denote integers. */
  lemma TurnStarts(data: seq<byte>, decodes: Decodes, o: nat)
    ensures ParseTurn(data, decodes, o) == Fail(EndedEarly) <==> o + 110 > |data|
    ensures o + 110 <= |data| ==>
              && (ParseTurn(data, decodes, o) == Fail(BadMagic) <==>
                    data[o..o + 6] != [0x30, 0x37, 0x30, 0x37, 0x30, 0x31])
              && (ParseTurn(data, decodes, o) == Fail(BadField) <==>
                    && data[o..o + 6] == [0x30, 0x37, 0x30, 0x37, 0x30, 0x31]
                    && !exists f :: FieldsAre(data, o, f))
  {
    hide Fields, FieldsParse, FieldsAre, Slice, Align4, AllZero;
    if o + 110 <= |data| {
      var header := Slice(data, o, o + HEADER);
      SliceInside(data, o, o + HEADER);
      SliceInside(header, 0, 6);
      assert header[0..6] == data[o..o + 6];
      if FieldsParse(header) {
        ParsedFieldsAre(data, o);
      }
      if f :| FieldsAre(data, o, f) {
        FieldsAreParsed(data, o, f);
      }
    }
  }

  function Up4(n: nat): nat { (n + 3) / 4 * 4 }

  /** What a turn at `o` must come to when the sizes are not negative. */
  predicate TurnIs(data: seq<byte>, decodes: Decodes, o: nat, f: seq<int>, r: Turn)
    requires |f| == 13 && f[6] >= 0 && f[11] >= 0
  {
    var n := o + 110 + f[11];
    if f[11] == 0 || n > |data| then r == Fail(BadNameSize)
    else if data[n - 1] != 0 then r == Fail(NameNotTerminated)
    else if !decodes(data[o + 110..n - 1]) then r == Fail(NameNotText)
    else if Up4(n) + f[6] > |data| then r == Fail(Truncated)
    else
      var name, end := data[o + 110..n - 1], Up4(n) + f[6];
      var entry := Entry(name, data[Up4(n)..end], f);
      // "TRAILER!!!"
      if name != [0x54, 0x52, 0x41, 0x49, 0x4C, 0x45, 0x52, 0x21, 0x21, 0x21] then r == More(entry, Up4(end))
      else if exists i | Up4(end) <= i < |data| :: data[i] != 0 then r == Fail(TrailingData)
      else r == Last(entry)
  }

  lemma TurnExactly(data: seq<byte>, decodes: Decodes, o: nat, f: seq<int>)
    requires o + 110 <= |data| && data[o..o + 6] == [0x30, 0x37, 0x30, 0x37, 0x30, 0x31] && FieldsAre(data, o, f)
    requires f[6] >= 0 && f[11] >= 0
    ensures TurnIs(data, decodes, o, f, ParseTurn(data, decodes, o))
  {
    hide Fields, FieldsParse, FieldsAre, Slice, AllZero, ParseName, TurnIs;
    var header := Slice(data, o, o + HEADER);
    SliceInside(data, o, o + HEADER);
    SliceInside(header, 0, 6);
    assert header[0..6] == data[o..o + 6];
    assert |f| == 13 by {
      FieldsCount(data, o, f);
    }
    FieldsAreParsed(data, o, f);
    NameExactly(data, decodes, o, f);
  }

  lemma FieldsCount(data: seq<byte>, o: nat, f: seq<int>)
    requires o + 110 <= |data| && FieldsAre(data, o, f)
    ensures |f| == 13
  {
  }

  lemma NameExactly(data: seq<byte>, decodes: Decodes, o: nat, f: seq<int>)
    requires o + 110 <= |data| && |f| == 13 && f[6] >= 0 && f[11] >= 0
    ensures TurnIs(data, decodes, o, f, ParseName(data, decodes, o + HEADER, f))
  {
    hide Slice, ParsePayload;
    var n := o + 110 + f[11];
    if f[11] > 0 && n <= |data| {
      SliceInside(data, o + HEADER, n);
      var raw := data[o + HEADER..n];
      assert raw[|raw| - 1] == data[n - 1] && raw[..|raw| - 1] == data[o + 110..n - 1];
      assert Align4(n) == Up4(n);
      PayloadExactly(data, Up4(n), data[o + 110..n - 1], f);
    }
  }

  lemma PayloadExactly(data: seq<byte>, m: nat, name: seq<byte>, f: seq<int>)
    requires |f| == 13 && f[6] >= 0
    ensures var end := m + f[6];
            var r := ParsePayload(data, m, name, f);
            if end > |data| then r == Fail(Truncated)
            else
              var entry := Entry(name, data[m..end], f);
              if name != [0x54, 0x52, 0x41, 0x49, 0x4C, 0x45, 0x52, 0x21, 0x21, 0x21] then r == More(entry, Up4(end))
              else if exists i | Up4(end) <= i < |data| :: data[i] != 0 then r == Fail(TrailingData)
              else r == Last(entry)
  {
    hide Slice, AllZero;
    var end := m + f[6];
    if end <= |data| {
      SliceInside(data, m, end);
      var next := Align4(end);
      assert next == Up4(end);
      RestIsZero(data, next);
    }
  }

  lemma RestIsZero(data: seq<byte>, next: nat)
    ensures AllZero(Slice(data, next, |data|)) <==> !exists i | next <= i < |data| :: data[i] != 0
  {
    var rest := Slice(data, next, |data|);
    if next <= |data| {
      assert rest == data[next..];
      assert forall i | next <= i < |data| :: data[i] == rest[i - next];
    }
  }

  // ----- the writer -----

  function HexDigit(v: nat): byte
    requires v < 16
  {
    if v < 10 then 48 + v else 87 + v
  }

  /** Lower-case hexadecimal, zero-padded to at least `width` digits. */
  function HexDigits(n: nat, width: nat): (s: seq<byte>)
    ensures |s| >= width
    decreases n, width
  {
    if n == 0 && width == 0 then []
    else HexDigits(n / 16, if width == 0 then 0 else width - 1) + [HexDigit(n % 16)]
  }

  /** `f"{n:08x}"`. */
  function Hex8(n: int): seq<byte> {
    if n < 0 then [45] + HexDigits(-n, 7) else HexDigits(n, 8)
  }

  /** What `cpio_entry` is given; `fields` are all thirteen header fields. */
  datatype File = File(name: seq<byte>, ino: int, mode: int, nlink: int, data: seq<byte>, major: int, minor: int) {
    function Fields(): (f: seq<int>)
      ensures |f| == FIELDS && f[FILESIZE] == |data| && f[NAMESIZE] == |name| + 1
    {
      [ino, mode, 0, 0, nlink, 0, |data|, 0, 0, major, minor, |name| + 1, 0]
    }
  }

  function HexFields(f: seq<int>): seq<byte> {
    if f == [] then [] else HexFields(f[..|f| - 1]) + Hex8(f[|f| - 1])
  }

  function Header(f: seq<int>): seq<byte> { MAGIC + HexFields(f) }

  function Pad4(s: seq<byte>): (p: seq<byte>)
    ensures |p| % 4 == 0 && |p| == Align4(|s|) && p[..|s|] == s && AllZero(p[|s|..])
  {
    s + Zeros((0 - |s|) % 4)
  }

  function Pad512(s: seq<byte>): (p: seq<byte>)
    ensures |p| % 512 == 0 && |s| <= |p| < |s| + 512 && p[..|s|] == s && AllZero(p[|s|..])
  {
    s + Zeros((0 - |s|) % 512)
  }

  /** Header and NUL-terminated name, before padding. */
  function Head(f: File): seq<byte> { Header(f.Fields()) + f.name + [0] }

  function EntryBytes(f: File): (b: seq<byte>)
    ensures |b| % 4 == 0
  {
    var head, body := Pad4(Head(f)), Pad4(f.data);
    head + body
  }

  function Concat(files: seq<File>): (b: seq<byte>)
    ensures |b| % 4 == 0
  {
    if files == [] then [] else EntryBytes(files[0]) + Concat(files[1..])
  }

  /** `pad512` of the entries and the trailer. */
  function Archive(files: seq<File>, trailer: File): seq<byte> {
    Pad512(Concat(files) + EntryBytes(trailer))
  }

  // ----- fields round trip -----

  /** A value whose text is eight characters: the rest overflow the header. */
  predicate Fits(n: int) { -0x1000_0000 < n < 0x1_0000_0000 }

  function Pow16(k: nat): (p: nat)
    ensures p >= 1
  {
    if k == 0 then 1 else 16 * Pow16(k - 1)
  }

  predicate AllHex(s: seq<byte>) {
    forall i | 0 <= i < |s| :: DigitValue(s[i]) < 16
  }

  function Value(s: seq<byte>, acc: nat): nat
    requires AllHex(s)
  {
    if s == [] then acc else Value(s[1..], 16 * acc + DigitValue(s[0]))
  }

  lemma {:induction false} ValueAppend(s: seq<byte>, b: byte, acc: nat)
    requires AllHex(s) && DigitValue(b) < 16
    ensures AllHex(s + [b]) && Value(s + [b], acc) == 16 * Value(s, acc) + DigitValue(b)
    decreases |s|
  {
    var t := s + [b];
    if s == [] {
      assert t[1..] == [];
    } else {
      assert t[0] == s[0] && t[1..] == s[1..] + [b];
      ValueAppend(s[1..], b, 16 * acc + DigitValue(s[0]));
    }
  }

  lemma {:induction false} HexDigitsRoundTrip(n: nat, width: nat)
    requires n < Pow16(width)
    ensures |HexDigits(n, width)| == width && AllHex(HexDigits(n, width)) && Value(HexDigits(n, width), 0) == n
    decreases width
  {
    if width > 0 {
      HexDigitsRoundTrip(n / 16, width - 1);
      ValueAppend(HexDigits(n / 16, width - 1), HexDigit(n % 16), 0);
    }
  }

  lemma {:induction false} ScanHex(s: seq<byte>, acc: nat, afterDigit: bool)
    requires AllHex(s) && (s != [] || afterDigit)
    ensures ScanDigits(s, acc, afterDigit) == Number(Value(s, acc), [])
    decreases |s|
  {
    if s != [] {
      ScanHex(s[1..], 16 * acc + DigitValue(s[0]), true);
    }
  }

  lemma PlainMagnitude(s: seq<byte>)
    requires s != [] && AllHex(s)
    ensures Magnitude(s) == Some(Value(s, 0))
  {
    ScanHex(s, 0, false);
    assert |s| >= 2 ==> DigitValue(s[1]) < 16;
  }

  lemma Pow16At7()
    ensures Pow16(7) == 0x1000_0000 && Pow16(8) == 0x1_0000_0000
  {
    assert Pow16(2) == 256;
    assert Pow16(4) == 0x1_0000;
    assert Pow16(6) == 0x100_0000;
  }

  /** Reading a written field gives the value back, negative ones included. */
  lemma HexFieldRoundTrip(n: int)
    requires Fits(n)
    ensures |Hex8(n)| == 8 && HexInt(Hex8(n)) == Some(n)
  {
    hide HexDigits, Value, Pow16, HexInt;
    Pow16At7();
    if n < 0 {
      HexDigitsRoundTrip(-n, 7);
      SignedHex(HexDigits(-n, 7));
    } else {
      HexDigitsRoundTrip(n, 8);
      SignedHex(HexDigits(n, 8));
    }
  }

  /** Plain digits read as their value, and after a minus sign as minus it. */
  lemma SignedHex(s: seq<byte>)
    requires s != [] && AllHex(s)
    ensures HexInt(s) == Some(Value(s, 0)) && HexInt([45] + s) == Some(0 - Value(s, 0))
  {
    hide Value, Magnitude;
    PlainMagnitude(s);
    assert DigitValue(s[0]) < 16;
    assert ([45] + s)[1..] == s;
  }

  predicate AllFit(f: seq<int>) { forall i | 0 <= i < |f| :: Fits(f[i]) }

  lemma {:induction false} HexFieldsAt(f: seq<int>, i: nat)
    requires AllFit(f) && i < |f|
    ensures |HexFields(f)| == 8 * |f| && HexFields(f)[8 * i..8 * i + 8] == Hex8(f[i])
  {
    hide Hex8, HexInt, Fits;
    var init := f[..|f| - 1];
    HexFieldRoundTrip(f[|f| - 1]);
    if |f| > 1 {
      HexFieldsAt(init, if i < |f| - 1 then i else 0);
    }
    Within(HexFields(init), Hex8(f[|f| - 1]), 8 * i, 8 * i + 8);
  }

  /** A slice of a concatenation that lies in one of its parts. */
  lemma Within(a: seq<byte>, b: seq<byte>, lo: nat, hi: nat)
    requires lo <= hi <= |a + b|
    ensures hi <= |a| ==> (a + b)[lo..hi] == a[lo..hi]
    ensures lo == |a| && hi == |a + b| ==> (a + b)[lo..hi] == b
  {
  }

  lemma WrittenField(f: seq<int>, i: nat)
    requires |f| == FIELDS && AllFit(f) && i < FIELDS
    ensures |Header(f)| == HEADER && HexInt(FieldAt(Header(f), i)) == Some(f[i])
  {
    hide Hex8, HexInt, HexFields, Slice;
    HexFieldsAt(f, i);
    HexFieldRoundTrip(f[i]);
    var h := Header(f);
    assert h[6..6 + 8 * FIELDS] == HexFields(f);
    PartOf(h, 6, HexFields(f), 8 * i, 8 * i + 8);
    SliceInside(h, 6 + 8 * i, 14 + 8 * i);
  }

  lemma SliceInside(data: seq<byte>, lo: int, hi: int)
    requires 0 <= lo <= hi <= |data|
    ensures Slice(data, lo, hi) == data[lo..hi]
  {
  }

  /** A written header parses to the fields it was made from. */
  lemma HeaderRoundTrip(f: seq<int>)
    requires |f| == FIELDS && AllFit(f)
    ensures |Header(f)| == HEADER && Header(f)[..6] == MAGIC
    ensures FieldsParse(Header(f)) && Fields(Header(f)) == f
  {
    hide HexInt, FieldAt, HexFields;
    WrittenField(f, 0);
    forall i | 0 <= i < FIELDS ensures HexInt(FieldAt(Header(f), i)) == Some(f[i]) {
      WrittenField(f, i);
    }
  }

  lemma {:induction false} HexDigitsOverflow(n: nat, width: nat)
    requires n >= Pow16(width)
    ensures |HexDigits(n, width)| > width
    decreases width
  {
    if width > 0 {
      HexDigitsOverflow(n / 16, width - 1);
    }
  }

  /** Exactly the values that fit keep the header 110 bytes long. */
  lemma FitsExactly(n: int)
    ensures |Hex8(n)| == 8 <==> Fits(n)
  {
    Pow16At7();
    if Fits(n) {
      HexFieldRoundTrip(n);
    } else if n < 0 {
      HexDigitsOverflow(-n, 7);
    } else {
      HexDigitsOverflow(n, 8);
    }
  }

  // ----- archive round trip -----

  /** Every number the header records fits its field. */
  predicate Sized(f: File) {
    && Fits(f.ino) && Fits(f.mode) && Fits(f.nlink) && Fits(f.major) && Fits(f.minor)
    && |f.data| < 0x1_0000_0000 && |f.name| + 1 < 0x1_0000_0000
  }

  predicate Writable(f: File, decodes: Decodes) {
    Sized(f) && decodes(f.name)
  }

  /** The entry a reader should see: inode, mode, two owners, links, time, size,
      two devices of the file, two of the node, length of the name, checksum. */
  function EntryOf(f: File): Entry {
    Entry(f.name, f.data, [f.ino, f.mode, 0, 0, f.nlink, 0, |f.data|, 0, 0, f.major, f.minor, |f.name| + 1, 0])
  }

  function EntriesOf(files: seq<File>): (e: seq<Entry>)
    ensures |e| == |files|
  {
    seq(|files|, i requires 0 <= i < |files| => EntryOf(files[i]))
  }

  lemma SizedFits(f: File)
    requires Sized(f)
    ensures AllFit(f.Fields())
  {
  }

  /** The entry's bytes, as the parser will cut them. */
  lemma EntryParts(f: File)
    requires Sized(f)
    ensures var b, n, m := EntryBytes(f), |f.name| + 1, Align4(HEADER + |f.name| + 1);
            && |b| == m + Align4(|f.data|)
            && b[..HEADER] == Header(f.Fields())
            && b[HEADER..HEADER + n] == f.name + [0]
            && b[m..m + |f.data|] == f.data
  {
    hide Header;
    SizedFits(f);
    HeaderRoundTrip(f.Fields());
    var head := Head(f);
    var b, n, m := EntryBytes(f), |f.name| + 1, Align4(HEADER + |f.name| + 1);
    assert |head| == HEADER + n && head[..HEADER] == Header(f.Fields()) && head[HEADER..] == f.name + [0];
    assert b[..m] == Pad4(head) && b[m..] == Pad4(f.data);
    assert b[..HEADER] == b[..m][..|head|][..HEADER];
    assert b[HEADER..HEADER + n] == b[..m][..|head|][HEADER..];
    assert b[m..m + |f.data|] == b[m..][..|f.data|];
  }

  // ----- where a written entry keeps what -----

  const DIGITS: seq<byte> :=
    [0x30, 0x31, 0x32, 0x33, 0x34, 0x35, 0x36, 0x37, 0x38, 0x39, 0x61, 0x62, 0x63, 0x64, 0x65, 0x66]

  const EIGHT_ZEROS: seq<byte> := [0x30, 0x30, 0x30, 0x30, 0x30, 0x30, 0x30, 0x30]

  /** The `k`-th hexadecimal digit of `n`, the lowest being the zeroth. */
  function Nibble(n: nat, k: nat): byte { DIGITS[n / Pow16(k) % 16] }

  /** `n` in eight characters: eight digits, or a minus sign and seven. */
  predicate Text8(s: seq<byte>, n: int) {
    && |s| == 8
    && if n >= 0 then forall i | 0 <= i < 8 :: s[i] == Nibble(n, 7 - i)
       else s[0] == 0x2D && forall i | 1 <= i < 8 :: s[i] == Nibble(-n, 7 - i)
  }

  lemma {:induction false} HexDigitsAt(n: nat, width: nat, i: nat)
    requires n < Pow16(width) && i < width
    ensures |HexDigits(n, width)| == width && HexDigits(n, width)[i] == Nibble(n, width - 1 - i)
    decreases width
  {
    HexDigitsRoundTrip(n, width);
    HexDigitsRoundTrip(n / 16, width - 1);
    if i < width - 1 {
      HexDigitsAt(n / 16, width - 1, i);
      DivideTwice(n, 16, Pow16(width - 2 - i));
    }
  }

  lemma FieldText(n: int)
    requires Fits(n)
    ensures Text8(Hex8(n), n) && (n == 0 ==> Hex8(n) == EIGHT_ZEROS)
  {
    hide HexDigits, Pow16, Nibble;
    Pow16At7();
    HexFieldRoundTrip(n);
    var s := Hex8(n);
    if n >= 0 {
      forall i | 0 <= i < 8 ensures s[i] == Nibble(n, 7 - i) {
        HexDigitsAt(n, 8, i);
      }
    } else {
      forall i | 1 <= i < 8 ensures s[i] == Nibble(-n, 7 - i) {
        HexDigitsAt(-n, 7, i - 1);
      }
    }
    if n == 0 {
      forall i | 0 <= i < 8 ensures s[i] == 0x30 {
        ZeroNibble(7 - i);
      }
    }
  }

  lemma ZeroNibble(k: nat)
    ensures Nibble(0, k) == 0x30
  {
  }

  lemma HeaderText(f: File, i: nat)
    requires Sized(f) && i < FIELDS
    ensures |EntryBytes(f)| >= HEADER && Text8(EntryBytes(f)[6 + 8 * i..14 + 8 * i], f.Fields()[i])
    ensures f.Fields()[i] == 0 ==> EntryBytes(f)[6 + 8 * i..14 + 8 * i] == EIGHT_ZEROS
  {
    hide Text8, Hex8, HexFields, EntryBytes, File.Fields, Fits, Sized;
    SizedFits(f);
    EntryParts(f);
    HexFieldsAt(f.Fields(), i);
    FieldText(f.Fields()[i]);
    var h, b := Header(f.Fields()), EntryBytes(f);
    assert h[6..6 + 8 * FIELDS] == HexFields(f.Fields());
    PartOf(h, 6, HexFields(f.Fields()), 8 * i, 8 * i + 8);
    assert b[0..0 + |h|] == b[..HEADER] == h;
    PartOf(b, 0, h, 6 + 8 * i, 14 + 8 * i);
  }

  lemma FirstFields(f: File)
    requires Sized(f)
    ensures |EntryBytes(f)| >= HEADER
    ensures var b := EntryBytes(f);
            && Text8(b[6..14], f.ino) && Text8(b[14..22], f.mode) && b[22..30] == b[30..38] == EIGHT_ZEROS
            && Text8(b[38..46], f.nlink) && b[46..54] == EIGHT_ZEROS && Text8(b[54..62], |f.data|)
  {
    hide EntryBytes, Text8, Sized;
    HeaderText(f, 0);
    HeaderText(f, 1);
    HeaderText(f, 2);
    HeaderText(f, 3);
    HeaderText(f, 4);
    HeaderText(f, 5);
    HeaderText(f, 6);
  }

  lemma LastFields(f: File)
    requires Sized(f)
    ensures |EntryBytes(f)| >= HEADER
    ensures var b := EntryBytes(f);
            && b[62..70] == b[70..78] == EIGHT_ZEROS && Text8(b[78..86], f.major) && Text8(b[86..94], f.minor)
            && Text8(b[94..102], |f.name| + 1) && b[102..110] == EIGHT_ZEROS
  {
    hide EntryBytes, Text8, Sized;
    HeaderText(f, 7);
    HeaderText(f, 8);
    HeaderText(f, 9);
    HeaderText(f, 10);
    HeaderText(f, 11);
    HeaderText(f, 12);
  }

  /** Where the writer puts every number, the name and the data, and that the
      rest of the entry is zero digits or zero bytes. */
  lemma EntryLayout(f: File)
    requires Sized(f)
    ensures |EntryBytes(f)| >= 111 + |f.name|
    ensures var b := EntryBytes(f);
            && b[..6] == [0x30, 0x37, 0x30, 0x37, 0x30, 0x31]
            && Text8(b[6..14], f.ino) && Text8(b[14..22], f.mode) && b[22..30] == b[30..38] == EIGHT_ZEROS
            && Text8(b[38..46], f.nlink) && b[46..54] == EIGHT_ZEROS && Text8(b[54..62], |f.data|)
            && b[62..70] == b[70..78] == EIGHT_ZEROS && Text8(b[78..86], f.major) && Text8(b[86..94], f.minor)
            && Text8(b[94..102], |f.name| + 1) && b[102..110] == EIGHT_ZEROS
            && b[110..110 + |f.name|] == f.name && b[110 + |f.name|] == 0
    ensures exists m | 111 + |f.name| <= m < 115 + |f.name| && m % 4 == 0 :: BodyAt(f, EntryBytes(f), m)
  {
    hide EntryBytes, Text8, Sized, BodyAt, Header;
    FirstFields(f);
    LastFields(f);
    MagicInside(f);
    NameInside(f);
    BodyInside(f);
  }

  lemma MagicInside(f: File)
    requires Sized(f)
    ensures |EntryBytes(f)| >= 6 && EntryBytes(f)[..6] == [0x30, 0x37, 0x30, 0x37, 0x30, 0x31]
  {
    hide EntryBytes, Header, Sized, File.Fields;
    SizedFits(f);
    EntryParts(f);
    HeaderRoundTrip(f.Fields());
    assert EntryBytes(f)[..6] == EntryBytes(f)[..HEADER][..6];
  }

  /** The data starts at `m`, with only zero bytes around it. */
  predicate BodyAt(f: File, b: seq<byte>, m: nat) {
    && 111 + |f.name| <= m && m + |f.data| <= |b| < m + |f.data| + 4 && |b| % 4 == 0
    && AllZero(b[111 + |f.name|..m]) && b[m..m + |f.data|] == f.data && AllZero(b[m + |f.data|..])
  }

  lemma NameInside(f: File)
    requires Sized(f)
    ensures |EntryBytes(f)| >= 111 + |f.name|
    ensures EntryBytes(f)[110..110 + |f.name|] == f.name && EntryBytes(f)[110 + |f.name|] == 0
  {
    hide EntryBytes, Header;
    EntryParts(f);
    var b, n := EntryBytes(f), |f.name| + 1;
    var part := b[HEADER..HEADER + n];
    assert part[..|f.name|] == f.name && part[|f.name|] == 0;
    assert b[110..110 + |f.name|] == part[..|f.name|];
  }

  lemma BodyInside(f: File)
    requires Sized(f)
    ensures BodyAt(f, EntryBytes(f), Align4(111 + |f.name|))
  {
    hide Header;
    EntryParts(f);
    SizedFits(f);
    HeaderRoundTrip(f.Fields());
    var b, m, head := EntryBytes(f), Align4(111 + |f.name|), Head(f);
    assert b[..m] == Pad4(head) && b[m..] == Pad4(f.data);
    assert b[111 + |f.name|..m] == Pad4(head)[|head|..];
    assert b[m + |f.data|..] == Pad4(f.data)[|f.data|..];
  }

  lemma AlignShift(off: int, n: int)
    requires off % 4 == 0
    ensures Align4(off + n) == off + Align4(n)
  {
  }

  /** The payload part of a turn, given where the payload lies. */
  lemma PayloadTurn(data: seq<byte>, at: nat, f: File)
    requires at % 4 == 0 && at + Align4(|f.data|) <= |data| && data[at..at + |f.data|] == f.data
    ensures var next := at + Align4(|f.data|);
            ParsePayload(data, at, f.name, f.Fields()) ==
              if f.name != TRAILER then More(EntryOf(f), next)
              else if AllZero(data[next..]) then Last(EntryOf(f)) else Fail(TrailingData)
  {
    hide Slice, AllZero;
    var f' := f.Fields();
    assert f'[FILESIZE] == |f.data|;
    SliceInside(data, at, at + |f.data|);
    AlignShift(at, |f.data|);
    var next := at + Align4(|f.data|);
    SliceInside(data, next, |data|);
    assert data[next..|data|] == data[next..];
  }

  /** The name part of a turn, given where the name lies. */
  lemma NameTurn(data: seq<byte>, decodes: Decodes, at: nat, f: File)
    requires decodes(f.name) && at + |f.name| + 1 <= |data| && data[at..at + |f.name| + 1] == f.name + [0]
    ensures ParseName(data, decodes, at, f.Fields())
         == ParsePayload(data, Align4(at + |f.name| + 1), f.name, f.Fields())
  {
    hide Slice, ParsePayload, Align4;
    assert f.Fields()[NAMESIZE] == |f.name| + 1;
    SliceInside(data, at, at + |f.name| + 1);
    NameOf(f.name);
  }

  /** A part of a part. */
  lemma PartOf(data: seq<byte>, off: nat, b: seq<byte>, i: nat, j: nat)
    requires off + |b| <= |data| && data[off..off + |b|] == b && i <= j <= |b|
    ensures data[off + i..off + j] == b[i..j]
  {
    var l, r := data[off + i..off + j], b[i..j];
    forall k | 0 <= k < |l| ensures l[k] == r[k] {
      assert l[k] == data[off + i + k] == data[off..off + |b|][i + k];
    }
  }

  /** One parser turn on one written entry, at any aligned offset. */
  lemma EntryTurn(data: seq<byte>, decodes: Decodes, off: nat, f: File)
    requires Writable(f, decodes) && off % 4 == 0
    requires off + |EntryBytes(f)| <= |data| && data[off..off + |EntryBytes(f)|] == EntryBytes(f)
    ensures var next := off + |EntryBytes(f)|;
            ParseTurn(data, decodes, off) ==
              if f.name != TRAILER then More(EntryOf(f), next)
              else if AllZero(data[next..]) then Last(EntryOf(f)) else Fail(TrailingData)
  {
    hide Slice, FieldsParse, Fields, EntryBytes, Header, File.Fields, AllFit, AllZero, ParseName, ParsePayload;
    SizedFits(f);
    var b, n, m := EntryBytes(f), |f.name| + 1, Align4(HEADER + |f.name| + 1);
    EntryParts(f);
    HeaderRoundTrip(f.Fields());
    SliceInside(data, off, off + HEADER);
    PartOf(data, off, b, 0, HEADER);
    assert b[0..HEADER] == b[..HEADER];
    SliceInside(b[..HEADER], 0, 6);
    PartOf(data, off, b, HEADER, HEADER + n);
    NameTurn(data, decodes, off + HEADER, f);
    AlignShift(off, HEADER + n);
    PartOf(data, off, b, m, m + |f.data|);
    PayloadTurn(data, off + m, f);
  }

  lemma NameOf(name: seq<byte>)
    ensures var raw := name + [0]; raw[|raw| - 1] == 0 && raw[..|raw| - 1] == name
  {
  }

  lemma {:induction false} ParseWritten(data: seq<byte>, decodes: Decodes, off: nat, files: seq<File>, trailer: File,
                                        done: seq<Entry>, turns: nat)
    requires off % 4 == 0 && off <= |data| && turns > |files|
    requires forall f | f in files :: Writable(f, decodes) && f.name != TRAILER
    requires Writable(trailer, decodes) && trailer.name == TRAILER
    requires Concat(files) + EntryBytes(trailer) <= data[off..]
    requires AllZero(data[off + |Concat(files)| + |EntryBytes(trailer)|..])
    ensures ParseFrom(data, decodes, off, done, turns) == Parsed(done + EntriesOf(files) + [EntryOf(trailer)])
    decreases |files|
  {
    hide ParseTurn, EntryBytes, File.Fields, Writable, AllZero, EntryOf, EntriesOf;
    if files == [] {
      Prefixes([], EntryBytes(trailer), data, off);
      EntryTurn(data, decodes, off, trailer);
      EntriesCons(files, done);
    } else {
      var b, rest := EntryBytes(files[0]), Concat(files[1..]) + EntryBytes(trailer);
      assert Concat(files) + EntryBytes(trailer) == b + rest;
      Prefixes(b, rest, data, off);
      EntryTurn(data, decodes, off, files[0]);
      ParseWritten(data, decodes, off + |b|, files[1..], trailer, done + [EntryOf(files[0])], turns - 1);
      EntriesCons(files, done);
    }
  }

  /** Two parts lying one after the other in `data`. */
  lemma Prefixes(a: seq<byte>, b: seq<byte>, data: seq<byte>, off: nat)
    requires off <= |data| && a + b <= data[off..]
    ensures off + |a| + |b| <= |data| && data[off..off + |a|] == a && b <= data[off + |a|..]
    ensures data[off + |a|..off + |a| + |b|] == b
  {
    PartOf(data, off, a + b, 0, |a|);
    PartOf(data, off, a + b, |a|, |a| + |b|);
    assert data[off + |a|..][..|b|] == data[off + |a|..off + |a| + |b|];
  }

  lemma EntriesCons(files: seq<File>, done: seq<Entry>)
    ensures files == [] ==> done + EntriesOf(files) == done
    ensures files != [] ==> done + [EntryOf(files[0])] + EntriesOf(files[1..]) == done + EntriesOf(files)
  {
    hide EntryOf;
  }

  /** Parsing an archive gives back exactly the files written, then the
      trailer. */
  lemma ArchiveRoundTrip(files: seq<File>, trailer: File, decodes: Decodes, turns: nat)
    requires forall f | f in files :: Writable(f, decodes) && f.name != TRAILER
    requires Writable(trailer, decodes) && trailer.name == TRAILER
    requires turns > |files|
    ensures ParseFrom(Archive(files, trailer), decodes, 0, [], turns)
         == Parsed(EntriesOf(files) + [EntryOf(trailer)])
  {
    hide ParseFrom, EntryBytes, Concat, Writable, EntriesOf;
    var data := Archive(files, trailer);
    assert data[0..] == data;
    ParseWritten(data, decodes, 0, files, trailer, [], turns);
    assert [] + EntriesOf(files) == EntriesOf(files);
  }

  // ----- when the loop ends -----

  /** The offset after `k` turns from `o`, if every one goes on. */
  function Walk(data: seq<byte>, decodes: Decodes, o: int, k: nat): Option<int>
    decreases k
  {
    if k == 0 then Some(o)
    else
      match ParseTurn(data, decodes, o)
      case More(_, next) => Walk(data, decodes, next, k - 1)
      case _ => None
  }

  lemma {:induction false} UnfinishedIsWalk(data: seq<byte>, decodes: Decodes, o: int, done: seq<Entry>, k: nat)
    ensures ParseFrom(data, decodes, o, done, k).Unfinished? <==> Walk(data, decodes, o, k).Some?
    decreases k
  {
    hide ParseTurn;
    if k > 0 && ParseTurn(data, decodes, o).More? {
      var t := ParseTurn(data, decodes, o);
      UnfinishedIsWalk(data, decodes, t.offset, done + [t.entry], k - 1);
    }
  }

  /** The parser ends on `data`. */
  ghost predicate Halts(data: seq<byte>, decodes: Decodes) {
    exists k: nat :: Walk(data, decodes, 0, k).None?
  }

  lemma {:induction false} WalkAdds(data: seq<byte>, decodes: Decodes, o: int, i: nat, j: nat)
    ensures Walk(data, decodes, o, i + j)
         == match Walk(data, decodes, o, i) case None => None case Some(p) => Walk(data, decodes, p, j)
    decreases i
  {
    hide ParseTurn;
    if i > 0 && ParseTurn(data, decodes, o).More? {
      WalkAdds(data, decodes, ParseTurn(data, decodes, o).offset, i - 1, j);
    }
  }

  /** A turn that goes on stands within one header of the data, counting
      negative offsets from the end. */
  lemma TurnInRange(data: seq<byte>, decodes: Decodes, o: int)
    requires ParseTurn(data, decodes, o).More?
    ensures -|data| - HEADER < o <= |data| - HEADER
  {
    hide FieldsParse, Fields, ParseName;
  }

  /** Where the header at `o` sends the parser, by its two sizes alone. */
  function Sent(o: int, fields: seq<int>): int
    requires |fields| == FIELDS
  {
    Align4(Align4(o + HEADER + fields[NAMESIZE]) + fields[FILESIZE])
  }

  lemma TurnSends(data: seq<byte>, decodes: Decodes, o: int)
    requires ParseTurn(data, decodes, o).More?
    ensures var t := ParseTurn(data, decodes, o);
            |t.entry.fields| == FIELDS && t.offset == Sent(o, t.entry.fields)
  {
    hide Slice, FieldsParse, Fields, Align4, AllZero;
  }

  /** Every turn the parser makes moves the offset forward. */
  ghost predicate Forward(data: seq<byte>, decodes: Decodes) {
    forall k: nat | Walk(data, decodes, 0, k).Some? ::
      var o := Walk(data, decodes, 0, k).value;
      ParseTurn(data, decodes, o).More? ==> ParseTurn(data, decodes, o).offset > o
  }

  lemma {:induction false} WalkForward(data: seq<byte>, decodes: Decodes, k: nat)
    requires Forward(data, decodes) && Walk(data, decodes, 0, k).Some?
    ensures Walk(data, decodes, 0, k).value >= k
  {
    hide ParseTurn;
    if k > 0 {
      WalkAdds(data, decodes, 0, k - 1, 1);
      WalkForward(data, decodes, k - 1);
      WalkOne(data, decodes, Walk(data, decodes, 0, k - 1).value);
    }
  }

  lemma WalkOne(data: seq<byte>, decodes: Decodes, o: int)
    ensures Walk(data, decodes, o, 1)
         == if ParseTurn(data, decodes, o).More? then Some(ParseTurn(data, decodes, o).offset) else None
  {
    hide ParseTurn;
  }

  /** Moving forward the parser ends, and within one turn per byte. */
  lemma ForwardHalts(data: seq<byte>, decodes: Decodes)
    requires Forward(data, decodes)
    ensures Walk(data, decodes, 0, |data| + 1).None? && Halts(data, decodes)
  {
    hide ParseTurn, Forward;
    if Walk(data, decodes, 0, |data| + 1).Some? {
      WalkForward(data, decodes, |data| + 1);
      WalkAdds(data, decodes, 0, |data|, 1);
      WalkForward(data, decodes, |data|);
      var o := Walk(data, decodes, 0, |data|).value;
      WalkOne(data, decodes, o);
      TurnInRange(data, decodes, o);
      assert false;
    }
  }

  /** A header stands at byte `o`: magic and thirteen numbers. */
  predicate HeaderAt(data: seq<byte>, o: nat) {
    o + HEADER <= |data| && data[o..o + 6] == MAGIC && FieldsParse(data[o..o + HEADER])
  }

  function FieldsAt(data: seq<byte>, o: nat): (f: seq<int>)
    requires HeaderAt(data, o)
    ensures |f| == FIELDS
  {
    Fields(data[o..o + HEADER])
  }

  /** No header anywhere in the bytes sends the parser back or keeps it in
      place. */
  ghost predicate ForwardHeaders(data: seq<byte>) {
    forall o: nat | HeaderAt(data, o) :: Sent(o, FieldsAt(data, o)) > o
  }

  /** No header anywhere in the bytes has a negative size. */
  ghost predicate SizesNonNegative(data: seq<byte>) {
    forall o: nat | HeaderAt(data, o) :: FieldsAt(data, o)[NAMESIZE] >= 0 && FieldsAt(data, o)[FILESIZE] >= 0
  }

  lemma TurnAtHeader(data: seq<byte>, decodes: Decodes, o: nat)
    requires ParseTurn(data, decodes, o).More?
    ensures HeaderAt(data, o) && ParseTurn(data, decodes, o).entry.fields == FieldsAt(data, o)
  {
    hide FieldsParse, Fields;
    var header := data[o..o + HEADER];
    SliceInside(data, o, o + HEADER);
    SliceInside(header, 0, 6);
    assert header[0..6] == data[o..o + 6];
  }

  lemma {:induction false} ForwardFromBytes(data: seq<byte>, decodes: Decodes, k: nat)
    requires ForwardHeaders(data) && Walk(data, decodes, 0, k).Some?
    ensures var o := Walk(data, decodes, 0, k).value;
            o >= 0 && (ParseTurn(data, decodes, o).More? ==> ParseTurn(data, decodes, o).offset > o)
  {
    hide ParseTurn, HeaderAt, FieldsAt, Sent;
    if k > 0 {
      WalkAdds(data, decodes, 0, k - 1, 1);
      ForwardFromBytes(data, decodes, k - 1);
      WalkOne(data, decodes, Walk(data, decodes, 0, k - 1).value);
    }
    var o := Walk(data, decodes, 0, k).value;
    if ParseTurn(data, decodes, o).More? {
      TurnSends(data, decodes, o);
      TurnAtHeader(data, decodes, o);
    }
  }

  /** A condition on the bytes alone: if every header in them, reached or not,
      points forward, the parser ends. */
  lemma ForwardHeadersHalt(data: seq<byte>, decodes: Decodes)
    requires ForwardHeaders(data)
    ensures Walk(data, decodes, 0, |data| + 1).None? && Halts(data, decodes)
  {
    hide ParseTurn, ForwardHeaders;
    forall k: nat | Walk(data, decodes, 0, k).Some?
      ensures var o := Walk(data, decodes, 0, k).value;
              ParseTurn(data, decodes, o).More? ==> ParseTurn(data, decodes, o).offset > o
    {
      ForwardFromBytes(data, decodes, k);
    }
    ForwardHalts(data, decodes);
  }

  /** In particular if no header in them has a negative size. */
  lemma NonNegativeSizesHalt(data: seq<byte>, decodes: Decodes)
    requires SizesNonNegative(data)
    ensures Walk(data, decodes, 0, |data| + 1).None? && Halts(data, decodes)
  {
    hide HeaderAt, FieldsAt;
    forall o: nat | HeaderAt(data, o) ensures Sent(o, FieldsAt(data, o)) > o {
    }
    ForwardHeadersHalt(data, decodes);
  }

  /** An entry whose file size is minus the end of its own name: the next
      offset is its own. */
  function Trap(): seq<byte> {
    Header([0, 0, 0, 0, 0, 0, -112, 0, 0, 0, 0, 1, 0]) + [0]
  }

  lemma TrapTurn(decodes: Decodes)
    requires decodes([])
    ensures ParseTurn(Trap(), decodes, 0).More? && ParseTurn(Trap(), decodes, 0).offset == 0
  {
    hide Header, FieldsParse, Fields, Slice;
    var f := [0, 0, 0, 0, 0, 0, -112, 0, 0, 0, 0, 1, 0];
    HeaderRoundTrip(f);
    var data := Trap();
    SliceInside(data, 0, HEADER);
    assert data[0..HEADER] == Header(f);
    SliceInside(Header(f), 0, 6);
    assert Header(f)[0..6] == Header(f)[..6];
    SliceInside(data, HEADER, HEADER + 1);
    assert data[HEADER..HEADER + 1] == [0];
    assert [0][..0] == [];
    assert [] != TRAILER;
  }

  lemma {:induction false} TrapWalk(decodes: Decodes, k: nat)
    requires decodes([])
    ensures Walk(Trap(), decodes, 0, k) == Some(0)
  {
    hide ParseTurn, Trap;
    if k > 0 {
      TrapTurn(decodes);
      TrapWalk(decodes, k - 1);
    }
  }

  /** So the parser does not end on every byte string: on these 111 bytes it
      appends the same empty entry for ever. */
  lemma ParserCanLoop(decodes: Decodes)
    requires decodes([])
    ensures !Halts(Trap(), decodes) && |Trap()| == 111
  {
    hide Walk;
    HeaderRoundTrip([0, 0, 0, 0, 0, 0, -112, 0, 0, 0, 0, 1, 0]);
    forall k: nat ensures Walk(Trap(), decodes, 0, k) == Some(0) {
      TrapWalk(decodes, k);
    }
  }

  // ----- exactly when it ends -----

  function Offset(data: seq<byte>, decodes: Decodes, i: nat): int {
    var o := Walk(data, decodes, 0, i);
    if o.Some? then o.value else 0
  }

  /** The offsets of the first `k` turns. */
  function Offsets(data: seq<byte>, decodes: Decodes, k: nat): seq<int> {
    seq(k, i requires 0 <= i < k => Offset(data, decodes, i))
  }

  lemma {:induction false} OffsetInRange(data: seq<byte>, decodes: Decodes, k: nat, i: nat)
    requires i < k && Walk(data, decodes, 0, k).Some?
    ensures Walk(data, decodes, 0, i) == Some(Offset(data, decodes, i))
    ensures -|data| - HEADER < Offset(data, decodes, i) <= |data| - HEADER
  {
    hide ParseTurn, Walk;
    WalkAdds(data, decodes, 0, k - 1, 1);
    if i == k - 1 {
      WalkOne(data, decodes, Walk(data, decodes, 0, i).value);
      TurnInRange(data, decodes, Walk(data, decodes, 0, i).value);
    } else {
      OffsetInRange(data, decodes, k - 1, i);
    }
  }

  /** More values than places: two are equal. */
  lemma {:induction false} Pigeonhole(s: seq<int>, lo: int, n: nat) returns (i: nat, j: nat)
    requires 1 <= n < |s| && forall k | 0 <= k < |s| :: lo <= s[k] < lo + n
    ensures i < j < |s| && s[i] == s[j]
    decreases n
  {
    if n == 1 {
      return 0, 1;
    }
    var top := lo + n - 1;
    if k :| 0 <= k < |s| && s[k] == top {
      if m :| 0 <= m < |s| && m != k && s[m] == top {
        return if m < k then m else k, if m < k then k else m;
      }
      var t := s[..k] + s[k + 1..];
      forall m | 0 <= m < |t| ensures lo <= t[m] < lo + n - 1 {
        assert t[m] == s[if m < k then m else m + 1];
      }
      i, j := Pigeonhole(t, lo, n - 1);
      i, j := if i < k then i else i + 1, if j < k then j else j + 1;
    } else {
      i, j := Pigeonhole(s[..|s| - 1], lo, n - 1);
    }
  }

  /** Coming back to an offset means never ending. */
  lemma {:induction false} CycleWalk(data: seq<byte>, decodes: Decodes, o: int, period: nat, k: nat)
    requires period > 0 && Walk(data, decodes, o, period) == Some(o)
    ensures Walk(data, decodes, o, k).Some?
    decreases k
  {
    hide ParseTurn, Walk;
    if k <= period {
      WalkAdds(data, decodes, o, k, period - k);
    } else {
      WalkAdds(data, decodes, o, period, k - period);
      CycleWalk(data, decodes, o, period, k - period);
    }
  }

  /** The parser stands at the same offset before two of its turns. */
  ghost predicate Repeats(data: seq<byte>, decodes: Decodes) {
    exists i: nat, j: nat :: RepeatsAt(data, decodes, i, j)
  }

  predicate RepeatsAt(data: seq<byte>, decodes: Decodes, i: nat, j: nat) {
    i < j && Walk(data, decodes, 0, j).Some? && Walk(data, decodes, 0, i) == Walk(data, decodes, 0, j)
  }

  lemma RepeatNeverEnds(data: seq<byte>, decodes: Decodes, i: nat, j: nat, k: nat)
    requires RepeatsAt(data, decodes, i, j)
    ensures Walk(data, decodes, 0, k).Some?
  {
    hide ParseTurn, Walk;
    var o := Walk(data, decodes, 0, i).value;
    WalkAdds(data, decodes, 0, i, j - i);
    CycleWalk(data, decodes, o, j - i, k);
    WalkAdds(data, decodes, 0, i, k);
    WalkAdds(data, decodes, 0, k, i);
  }

  /** A parser still going after 2 * |data| turns has come back somewhere. */
  lemma LongWalkRepeats(data: seq<byte>, decodes: Decodes) returns (i: nat, j: nat)
    requires Walk(data, decodes, 0, 2 * |data| + 1).Some?
    ensures RepeatsAt(data, decodes, i, j)
  {
    hide ParseTurn, Walk, Offset;
    var n := 2 * |data|;
    var s := Offsets(data, decodes, n + 1);
    OffsetInRange(data, decodes, n + 1, 0);
    forall i | 0 <= i < |s|
      ensures Walk(data, decodes, 0, i) == Some(s[i]) && -|data| - HEADER + 1 <= s[i] < -|data| - HEADER + 1 + n
    {
      OffsetInRange(data, decodes, n + 1, i);
    }
    i, j := Pigeonhole(s, -|data| - HEADER + 1, n);
  }

  /** The parser ends exactly when its chain of headers visits no offset
      twice. */
  lemma HaltsExactly(data: seq<byte>, decodes: Decodes)
    ensures Halts(data, decodes) <==> !Repeats(data, decodes)
  {
    hide ParseTurn, Walk, RepeatsAt;
    if Repeats(data, decodes) {
      var i: nat, j: nat :| RepeatsAt(data, decodes, i, j);
      forall k: nat ensures Walk(data, decodes, 0, k).Some? {
        RepeatNeverEnds(data, decodes, i, j, k);
      }
    } else if Walk(data, decodes, 0, 2 * |data| + 1).Some? {
      var i, j := LongWalkRepeats(data, decodes);
      assert false;
    }
  }

  /** And if it ends, it ends within 2 * |data| + 1 turns. */
  lemma HaltsInTime(data: seq<byte>, decodes: Decodes)
    ensures Halts(data, decodes) <==> !ParseFrom(data, decodes, 0, [], 2 * |data| + 1).Unfinished?
  {
    hide ParseTurn, Walk, ParseFrom, RepeatsAt;
    UnfinishedIsWalk(data, decodes, 0, [], 2 * |data| + 1);
    HaltsExactly(data, decodes);
    if Walk(data, decodes, 0, 2 * |data| + 1).Some? {
      var i, j := LongWalkRepeats(data, decodes);
      assert Repeats(data, decodes);
    }
  }
}
