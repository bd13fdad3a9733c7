/** The A64 instructions the guest programs are made of: their encodings
    (section C6.2 of the Arm Architecture Reference Manual for A-profile,
    DDI 0487), a decoder, and what executing one does to a CPU.

    The encoders or together fields that never overlap, so the model adds
    them. Register fields are 0..30: the programs never name register 31,
    whose meaning (stack pointer or zero) depends on the instruction. */
module A64 {
  import opened Bytes

  type reg = x: int | 0 <= x < 31

  type imm12 = x: int | 0 <= x < 0x1000

  type imm16 = x: int | 0 <= x < 0x1_0000

  /** Signed word displacement of an unconditional branch. */
  type disp26 = x: int | -0x200_0000 <= x < 0x200_0000

  /** Signed word displacement of a conditional branch. */
  type disp19 = x: int | -0x4_0000 <= x < 0x4_0000

  type half = x: int | 0 <= x < 4

  type cond = x: int | 0 <= x < 16

  const EQ: cond := 0
  const NE: cond := 1
  const MI: cond := 4

  datatype Instr =
    | Movz(rd: reg, imm: imm16, hw: half)
    | Movk(rd: reg, imm: imm16, hw: half)
    | MovReg(rd: reg, rm: reg)
    | Svc
    | CmpImm(rn: reg, uimm: imm12)
    | AddImm32(rd: reg, rn: reg, uimm: imm12)
    | AddImm64(rd: reg, rn: reg, uimm: imm12)
    | SubImm64(rd: reg, rn: reg, uimm: imm12)
    | AddReg64(rd: reg, rn: reg, rm: reg)
    | SubReg64(rd: reg, rn: reg, rm: reg)
    | CmpReg32(rn: reg, rm: reg)
    | CmpReg64(rn: reg, rm: reg)
    | Ldr32(rd: reg, rn: reg)
    | Ldrb(rd: reg, rn: reg)
    | Ldar32(rd: reg, rn: reg)
    | Stlr32(rs: reg, rn: reg)
    | B(disp: disp26)
    | BCond(c: cond, cdisp: disp19)

  /** `immediate & (2^bits - 1)` for a signed immediate. */
  function EncodeBranch(disp: disp26): word { 0x1400_0000 + disp % 0x400_0000 }

  function EncodeCondBranch(disp: disp19, c: cond): word { 0x5400_0000 + 32 * (disp % 0x8_0000) + c }

  function Encode(i: Instr): word {
    match i
    case Movz(rd, imm, hw) => 0xD280_0000 + hw * 0x20_0000 + imm * 32 + rd
    case Movk(rd, imm, hw) => 0xF280_0000 + hw * 0x20_0000 + imm * 32 + rd
    case MovReg(rd, rm) => 0xAA00_03E0 + rm * 0x1_0000 + rd
    case Svc => 0xD400_0001
    case CmpImm(rn, uimm) => 0xF100_001F + uimm * 0x400 + rn * 32
    case AddImm32(rd, rn, uimm) => 0x1100_0000 + uimm * 0x400 + rn * 32 + rd
    case AddImm64(rd, rn, uimm) => 0x9100_0000 + uimm * 0x400 + rn * 32 + rd
    case SubImm64(rd, rn, uimm) => 0xD100_0000 + uimm * 0x400 + rn * 32 + rd
    case AddReg64(rd, rn, rm) => 0x8B00_0000 + rm * 0x1_0000 + rn * 32 + rd
    case SubReg64(rd, rn, rm) => 0xCB00_0000 + rm * 0x1_0000 + rn * 32 + rd
    case CmpReg32(rn, rm) => 0x6B00_001F + rm * 0x1_0000 + rn * 32
    case CmpReg64(rn, rm) => 0xEB00_001F + rm * 0x1_0000 + rn * 32
    case Ldr32(rd, rn) => 0xB940_0000 + rn * 32 + rd
    case Ldrb(rd, rn) => 0x3940_0000 + rn * 32 + rd
    case Ldar32(rd, rn) => 0x88DF_FC00 + rn * 32 + rd
    case Stlr32(rs, rn) => 0x889F_FC00 + rn * 32 + rs
    case B(disp) => EncodeBranch(disp)
    case BCond(c, disp) => EncodeCondBranch(disp, c)
  }

  datatype Decoded = Known(instr: Instr) | Unknown

  function SignExtend(field: nat, modulus: nat): int {
    if 2 * field < modulus then field else field - modulus
  }

  // Sub-decoders, on the fields of the low 24 bits.

  type low24 = x: int | 0 <= x < 0x100_0000

  type field = x: int | 0 <= x < 32

  function DecodeWide(op: nat, hw: half, imm: imm16, rd: field): Decoded {
    if rd == 31 then Unknown
    else Known(if op == 0xF2 then Movk(rd, imm, hw) else Movz(rd, imm, hw))
  }

  function DecodeImmediate(op: nat, imm: nat, rn: field, rd: field): Decoded {
    if imm >= 0x1000 || rn == 31 then Unknown
    else if op == 0xF1 then if rd == 31 then Known(CmpImm(rn, imm)) else Unknown
    else if rd == 31 then Unknown
    else if op == 0x11 then Known(AddImm32(rd, rn, imm))
    else if op == 0x91 then Known(AddImm64(rd, rn, imm))
    else Known(SubImm64(rd, rn, imm))
  }

  function DecodeRegister(op: nat, rm: nat, rn: field, rd: field): Decoded {
    if rm >= 31 then Unknown
    else if op == 0xAA then if rn == 31 && rd < 31 then Known(MovReg(rd, rm)) else Unknown
    else if rn == 31 then Unknown
    else if op == 0x6B then if rd == 31 then Known(CmpReg32(rn, rm)) else Unknown
    else if op == 0xEB then if rd == 31 then Known(CmpReg64(rn, rm)) else Unknown
    else if rd == 31 then Unknown
    else if op == 0x8B then Known(AddReg64(rd, rn, rm))
    else Known(SubReg64(rd, rn, rm))
  }

  function DecodeMemory(op: nat, kind: nat, rn: field, rd: field): Decoded {
    if rd == 31 || rn == 31 then Unknown
    else if op == 0xB9 && kind == 0x1000 then Known(Ldr32(rd, rn))
    else if op == 0x39 && kind == 0x1000 then Known(Ldrb(rd, rn))
    else if op == 0x88 && kind == 0x37FF then Known(Ldar32(rd, rn))
    else if op == 0x88 && kind == 0x27FF then Known(Stlr32(rd, rn))
    else Unknown
  }

  /** Opcode byte, then the fields above bit 10. */
  function DecodeFields(op: nat, high: nat, rn: field, rd: field): Decoded {
    if op == 0xF1 || op == 0x11 || op == 0x91 || op == 0xD1 then DecodeImmediate(op, high, rn, rd)
    else if op == 0xAA || op == 0x6B || op == 0xEB || op == 0x8B || op == 0xCB then
      if high % 64 != 0 then Unknown else DecodeRegister(op, high / 64, rn, rd)
    else if op == 0xB9 || op == 0x39 || op == 0x88 then DecodeMemory(op, high, rn, rd)
    else Unknown
  }

  function DecodeCondBranch(low: low24): Decoded {
    if low / 16 % 2 == 1 then Unknown
    else Known(BCond(low % 16, SignExtend(low / 32, 0x8_0000)))
  }

  function Dispatch(op: nat, low: low24): Decoded {
    if op == 0x54 then DecodeCondBranch(low)
    else if op == 0xD4 then if low == 1 then Known(Svc) else Unknown
    else if op == 0xD2 || op == 0xF2 then
      if low < 0x80_0000 then Unknown
      else DecodeWide(op, low / 0x20_0000 % 4, low / 32 % 0x1_0000, low % 32)
    else DecodeFields(op, low / 0x400, low / 32 % 32, low % 32)
  }

  /** Decoder for the subset above. */
  function Decode(w: word): Decoded {
    var op, low := w / 0x100_0000, w % 0x100_0000;
    if 0x14 <= op < 0x18 then Known(B(SignExtend(w - 0x1400_0000, 0x400_0000)))
    else Dispatch(op, low)
  }

  lemma DecodeAt(op: nat, low: low24)
    requires op < 256 && !(0x14 <= op < 0x18)
    ensures Decode(op * 0x100_0000 + low) == Dispatch(op, low)
  {
    var w := op * 0x100_0000 + low;
    assert w / 0x100_0000 == op && w % 0x100_0000 == low;
  }

  lemma DecodeFieldsAt(op: nat, high: nat, rn: field, rd: field)
    requires op < 256 && !(0x14 <= op < 0x18) && high < 0x4000
    requires op != 0x54 && op != 0xD4 && op != 0xD2 && op != 0xF2
    ensures Decode(op * 0x100_0000 + high * 0x400 + rn * 32 + rd) == DecodeFields(op, high, rn, rd)
  {
    var low := high * 0x400 + rn * 32 + rd;
    assert low / 32 == high * 32 + rn && low % 32 == rd;
    assert low / 32 % 32 == rn && low / 0x400 == high;
    DecodeAt(op, low);
  }

  lemma DecodeWideAt(op: nat, hw: half, imm: imm16, rd: field)
    requires op == 0xD2 || op == 0xF2
    ensures Decode(op * 0x100_0000 + 0x80_0000 + hw * 0x20_0000 + imm * 32 + rd) == DecodeWide(op, hw, imm, rd)
  {
    var low := 0x80_0000 + hw * 0x20_0000 + imm * 32 + rd;
    assert low / 32 == (4 + hw) * 0x1_0000 + imm && low % 32 == rd;
    assert low / 0x20_0000 == 4 + hw;
    DecodeAt(op, low);
  }

  lemma DecodeCondBranchAt(c: cond, disp: disp19)
    ensures Decode(EncodeCondBranch(disp, c)) == Known(BCond(c, disp))
  {
    var f := disp % 0x8_0000;
    var low := f * 32 + c;
    assert low / 32 == f && low / 16 == f * 2 && low % 16 == c;
    DecodeAt(0x54, low);
  }

  lemma DecodeBranchAt(disp: disp26)
    ensures Decode(EncodeBranch(disp)) == Known(B(disp))
  {
  }

  lemma DecodeEncodeImmediate(i: Instr)
    requires i.CmpImm? || i.AddImm32? || i.AddImm64? || i.SubImm64?
    ensures Decode(Encode(i)) == Known(i)
  {
    hide Decode;
    match i
    case CmpImm(rn, u) => DecodeFieldsAt(0xF1, u, rn, 31);
    case AddImm32(rd, rn, u) => DecodeFieldsAt(0x11, u, rn, rd);
    case AddImm64(rd, rn, u) => DecodeFieldsAt(0x91, u, rn, rd);
    case SubImm64(rd, rn, u) => DecodeFieldsAt(0xD1, u, rn, rd);
  }

  lemma DecodeEncodeRegister(i: Instr)
    requires i.MovReg? || i.AddReg64? || i.SubReg64? || i.CmpReg32? || i.CmpReg64?
    ensures Decode(Encode(i)) == Known(i)
  {
    hide Decode;
    match i
    case MovReg(rd, rm) => DecodeFieldsAt(0xAA, rm * 64, 31, rd);
    case AddReg64(rd, rn, rm) => DecodeFieldsAt(0x8B, rm * 64, rn, rd);
    case SubReg64(rd, rn, rm) => DecodeFieldsAt(0xCB, rm * 64, rn, rd);
    case CmpReg32(rn, rm) => DecodeFieldsAt(0x6B, rm * 64, rn, 31);
    case CmpReg64(rn, rm) => DecodeFieldsAt(0xEB, rm * 64, rn, 31);
  }

  lemma DecodeEncodeMemory(i: Instr)
    requires i.Ldr32? || i.Ldrb? || i.Ldar32? || i.Stlr32?
    ensures Decode(Encode(i)) == Known(i)
  {
    hide Decode;
    match i
    case Ldr32(rd, rn) => DecodeFieldsAt(0xB9, 0x1000, rn, rd);
    case Ldrb(rd, rn) => DecodeFieldsAt(0x39, 0x1000, rn, rd);
    case Ldar32(rd, rn) => DecodeFieldsAt(0x88, 0x37FF, rn, rd);
    case Stlr32(rs, rn) => DecodeFieldsAt(0x88, 0x27FF, rn, rs);
  }

  lemma DecodeEncodeOther(i: Instr)
    requires i.Movz? || i.Movk? || i.Svc? || i.B? || i.BCond?
    ensures Decode(Encode(i)) == Known(i)
  {
    hide Decode;
    match i
    case Movz(rd, imm, hw) => DecodeWideAt(0xD2, hw, imm, rd);
    case Movk(rd, imm, hw) => DecodeWideAt(0xF2, hw, imm, rd);
    case Svc => DecodeAt(0xD4, 1);
    case B(disp) => DecodeBranchAt(disp);
    case BCond(c, disp) => DecodeCondBranchAt(c, disp);
  }

  /** Encoding loses nothing: the word decodes to the instruction it came from. */
  lemma DecodeEncode(i: Instr)
    ensures Decode(Encode(i)) == Known(i)
  {
    if i.CmpImm? || i.AddImm32? || i.AddImm64? || i.SubImm64? {
      DecodeEncodeImmediate(i);
    } else if i.MovReg? || i.AddReg64? || i.SubReg64? || i.CmpReg32? || i.CmpReg64? {
      DecodeEncodeRegister(i);
    } else if i.Ldr32? || i.Ldrb? || i.Ldar32? || i.Stlr32? {
      DecodeEncodeMemory(i);
    } else {
      DecodeEncodeOther(i);
    }
  }
}
