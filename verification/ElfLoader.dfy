/** What a kernel makes of an ELF image: the loader reads nothing but the bytes
    of the file, by the field offsets of the ELF-64 object file format. */
module ElfLoader {
  import opened Bytes
  import opened Machine
  import opened Layout
  import opened Blocks

  datatype Option<T> = None | Some(value: T)

  /** A mapped segment: `bytes` from the file, then zeros up to `size`. */
  datatype Segment = Segment(
    address: nat, bytes: seq<byte>, size: nat, readable: bool, writable: bool, executable: bool)

  datatype Process = Process(entry: nat, segment: Segment)

  /** A little-endian field. */
  function Unsigned(s: seq<byte>): nat {
    if s == [] then 0 else s[0] + 256 * Unsigned(s[1..])
  }

  function Field(image: seq<byte>, offset: nat, width: nat): nat
    requires offset + width <= |image|
  {
    Unsigned(image[offset..offset + width])
  }

  /** A 64-bit little-endian executable for AArch64 with one program header. */
  predicate Acceptable(image: seq<byte>) {
    && |image| >= 64 && image[0..4] == [0x7F, 0x45, 0x4C, 0x46] && image[4] == 2 && image[5] == 1 && image[6] == 1
    && Field(image, 16, 2) == 2 && Field(image, 18, 2) == 183 && Field(image, 20, 4) == 1
    && Field(image, 52, 2) == 64 && Field(image, 54, 2) == 56 && Field(image, 56, 2) == 1
    && Field(image, 32, 8) + 56 <= |image|
  }

  /** The one segment, which must lie in the file and keep its place in a page. */
  function SegmentAt(image: seq<byte>, h: nat): Option<Segment>
    requires h + 56 <= |image|
  {
    var flags, offset, address := Field(image, h + 4, 4), Field(image, h + 8, 8), Field(image, h + 16, 8);
    var fileSize, memorySize := Field(image, h + 32, 8), Field(image, h + 40, 8);
    if Field(image, h, 4) != 1 || offset + fileSize > |image| || fileSize > memorySize then None
    else if Field(image, h + 48, 8) != 4096 || address % 4096 != offset % 4096 then None
    else Some(Segment(address, image[offset..offset + fileSize], memorySize,
                      flags / 4 % 2 == 1, flags / 2 % 2 == 1, flags % 2 == 1))
  }

  function LoadElf(image: seq<byte>): Option<Process> {
    if !Acceptable(image) then None
    else
      var s := SegmentAt(image, Field(image, 32, 8));
      if s.None? then None else Some(Process(Field(image, 24, 8), s.value))
  }

  // ----- the generator's images -----

  lemma {:induction false} UnsignedOf(n: nat, width: nat)
    requires n < Power(width)
    ensures Unsigned(LittleEndian(n, width)) == n
  {
    if width > 0 {
      assert LittleEndian(n, width)[1..] == LittleEndian(n / 256, width - 1);
      UnsignedOf(n / 256, width - 1);
    }
  }

  function Power(width: nat): nat { if width == 0 then 1 else 256 * Power(width - 1) }

  lemma Powers()
    ensures Power(2) == 0x1_0000 && Power(4) == 0x1_0000_0000 && Power(8) == 0x1_0000_0000_0000_0000
  {
    assert Power(3) == 256 * Power(2) && Power(5) == 256 * Power(4) && Power(6) == 256 * Power(5);
    assert Power(7) == 256 * Power(6);
  }

  /** A field of the headers is a field of the image. */
  lemma FieldIs(code: seq<byte>, data: seq<byte>, offset: nat, width: nat, n: nat)
    requires offset + width <= 120 && n < Power(width)
    requires Headers(CODE_OFFSET + |code| + |data|)[offset..offset + width] == LittleEndian(n, width)
    ensures Field(Elf(code, data), offset, width) == n
  {
    hide Headers, LittleEndian, Power;
    var h := Headers(CODE_OFFSET + |code| + |data|);
    assert Elf(code, data)[offset..offset + width] == h[offset..offset + width];
    UnsignedOf(n, width);
  }

  lemma Ident(size: nat)
    ensures var h := Headers(size); h[0..4] == [0x7F, 0x45, 0x4C, 0x46] && h[4] == 2 && h[5] == 1 && h[6] == 1
  {
    hide LittleEndian;
  }

  lemma Types(size: nat)
    ensures var h := Headers(size);
            h[16..18] == LittleEndian(2, 2) && h[18..20] == LittleEndian(183, 2) && h[20..24] == LittleEndian(1, 4)
  {
    hide LittleEndian;
    var h, type_, version := Headers(size), LittleEndian(2, 2), LittleEndian(1, 4);
    assert h[16] == type_[0] && h[17] == type_[1];
    assert h[20] == version[0] && h[21] == version[1] && h[22] == version[2] && h[23] == version[3];
  }

  lemma Entry(size: nat)
    ensures var h := Headers(size); h[24..32] == LittleEndian(0x40_0100, 8) && h[32..40] == LittleEndian(64, 8)
  {
    hide LittleEndian;
  }

  lemma MiddleFields(size: nat)
    ensures var h := Headers(size);
            && h[52..54] == LittleEndian(64, 2) && h[54..56] == LittleEndian(56, 2) && h[56..58] == LittleEndian(1, 2)
            && h[64..68] == LittleEndian(1, 4) && h[68..72] == LittleEndian(7, 4) && h[72..80] == LittleEndian(0, 8)
  {
    hide LittleEndian;
  }

  lemma LastFields(size: nat)
    ensures var h := Headers(size);
            && h[80..88] == LittleEndian(0x40_0000, 8) && h[96..104] == LittleEndian(size, 8)
            && h[104..112] == LittleEndian(size, 8) && h[112..120] == LittleEndian(4096, 8)
  {
    hide LittleEndian;
  }

  /** For every code and data the image is accepted, mapped whole at 0x400000
      to be read, written and executed, and entered at 0x400100, where the code
      lies. */
  lemma ElfLoads(code: seq<byte>, data: seq<byte>)
    requires CODE_OFFSET + |code| + |data| < 0x1_0000_0000_0000_0000
    ensures var image := Elf(code, data);
            && LoadElf(image) == Some(Process(0x40_0100, Segment(0x40_0000, image, |image|, true, true, true)))
            && image[0x100..0x100 + |code|] == code && image[0x100 + |code|..] == data
  {
    hide Headers, LittleEndian, Power, Field;
    var image, size := Elf(code, data), CODE_OFFSET + |code| + |data|;
    var h := Headers(size);
    assert image[0..4] == h[0..4] && image[4] == h[4] && image[5] == h[5] && image[6] == h[6];
    assert image[0..|image|] == image;
    Powers();
    Ident(size);
    Types(size);
    Entry(size);
    MiddleFields(size);
    LastFields(size);
    ElfParts(code, data);
    FieldIs(code, data, 16, 2, 2);
    FieldIs(code, data, 18, 2, 183);
    FieldIs(code, data, 20, 4, 1);
    FieldIs(code, data, 24, 8, 0x40_0100);
    FieldIs(code, data, 32, 8, 64);
    FieldIs(code, data, 52, 2, 64);
    FieldIs(code, data, 54, 2, 56);
    FieldIs(code, data, 56, 2, 1);
    FieldIs(code, data, 64, 4, 1);
    FieldIs(code, data, 68, 4, 7);
    FieldIs(code, data, 72, 8, 0);
    FieldIs(code, data, 80, 8, 0x40_0000);
    FieldIs(code, data, 96, 8, size);
    FieldIs(code, data, 104, 8, size);
    FieldIs(code, data, 112, 8, 4096);
  }

  lemma Padding(size: nat)
    ensures var h := Headers(size); h[7] == 0 && h[8..16] == Zeros(8)
  {
    hide LittleEndian;
    var h := Headers(size);
    forall i | 8 <= i < 16 ensures h[i] == 0 {
    }
  }

  lemma NoSections(size: nat)
    ensures var h := Headers(size); h[40..48] == LittleEndian(0, 8)
  {
    hide LittleEndian;
    var h, zero := Headers(size), LittleEndian(0, 8);
    forall i | 0 <= i < 8 ensures h[40 + i] == zero[i] {
    }
  }

  lemma NoFlags(size: nat)
    ensures var h := Headers(size); h[48..52] == LittleEndian(0, 4) && h[88..96] == LittleEndian(0x40_0000, 8)
  {
    hide LittleEndian;
    var h, zero := Headers(size), LittleEndian(0, 4);
    assert h[48] == zero[0] && h[49] == zero[1] && h[50] == zero[2] && h[51] == zero[3];
  }

  lemma NoSectionCounts(size: nat)
    ensures var h := Headers(size); h[58..60] == h[60..62] == h[62..64] == LittleEndian(0, 2)
  {
    hide LittleEndian;
    var h, zero := Headers(size), LittleEndian(0, 2);
    assert h[58] == zero[0] && h[59] == zero[1] && h[60] == zero[0] && h[61] == zero[1];
    assert h[62] == zero[0] && h[63] == zero[1];
  }

  /** What that loader does not read: no special ABI, no sections, no flags, a
      physical address like the virtual one, and zeros up to the code. */
  lemma ElfRest(code: seq<byte>, data: seq<byte>)
    ensures var image := Elf(code, data);
            && image[7] == 0 && image[8..16] == Zeros(8) && image[120..256] == Zeros(136)
            && Field(image, 40, 8) == 0 && Field(image, 48, 4) == 0
            && Field(image, 58, 2) == Field(image, 60, 2) == Field(image, 62, 2) == 0
            && Field(image, 88, 8) == 0x40_0000
  {
    hide Headers, LittleEndian, Power, Field;
    var image, size := Elf(code, data), CODE_OFFSET + |code| + |data|;
    var h := Headers(size);
    assert image[7] == h[7] && image[8..16] == h[8..16];
    Powers();
    Padding(size);
    NoSections(size);
    NoFlags(size);
    NoSectionCounts(size);
    FieldIs(code, data, 40, 8, 0);
    FieldIs(code, data, 48, 4, 0);
    FieldIs(code, data, 58, 2, 0);
    FieldIs(code, data, 60, 2, 0);
    FieldIs(code, data, 62, 2, 0);
    FieldIs(code, data, 88, 8, 0x40_0000);
  }
}
