/**
 * Reference encoders for the RV32I base instruction formats (R, I, S, B,
 * U, J), following sections 2.2 and 2.3 of the RISC-V Unprivileged ISA
 * Specification (version 20191213). They are not part of the emulator;
 * they are a reference the decoder is checked against: decoding an encoded
 * instruction gives back every field and immediate that the format can hold.
 */
module Encode {
  import opened Bits
  import opened Decoder

  // ---------------------------------------------------------------------
  // Encoders

  /** R-type: funct7 | rs2 | rs1 | funct3 | rd | opcode. */
  function EncodeR(opcode: bv32, rd: bv32, funct3: bv32, rs1: bv32, rs2: bv32, funct7: bv32): bv32
    requires opcode < 0x80 && rd < 32 && funct3 < 8 && rs1 < 32 && rs2 < 32 && funct7 < 0x80
  {
    (funct7 << 25) | (rs2 << 20) | (rs1 << 15) | (funct3 << 12) | (rd << 7) | opcode
  }

  /** I-type: imm[11:0] | rs1 | funct3 | rd | opcode. */
  function EncodeI(opcode: bv32, rd: bv32, funct3: bv32, rs1: bv32, imm: bv32): bv32
    requires opcode < 0x80 && rd < 32 && funct3 < 8 && rs1 < 32
  {
    ((imm & 0xFFF) << 20) | (rs1 << 15) | (funct3 << 12) | (rd << 7) | opcode
  }

  /** S-type: imm[11:5] | rs2 | rs1 | funct3 | imm[4:0] | opcode. */
  function EncodeS(opcode: bv32, funct3: bv32, rs1: bv32, rs2: bv32, imm: bv32): bv32
    requires opcode < 0x80 && funct3 < 8 && rs1 < 32 && rs2 < 32
  {
    (((imm >> 5) & 0x7F) << 25) | (rs2 << 20) | (rs1 << 15) | (funct3 << 12)
      | ((imm & 0x1F) << 7) | opcode
  }

  /** B-type: imm[12|10:5] | rs2 | rs1 | funct3 | imm[4:1|11] | opcode. */
  function EncodeB(opcode: bv32, funct3: bv32, rs1: bv32, rs2: bv32, off: bv32): bv32
    requires opcode < 0x80 && funct3 < 8 && rs1 < 32 && rs2 < 32
  {
    (((off >> 12) & 1) << 31) | (((off >> 5) & 0x3F) << 25) | (rs2 << 20) | (rs1 << 15)
      | (funct3 << 12) | (((off >> 1) & 0xF) << 8) | (((off >> 11) & 1) << 7) | opcode
  }

  /** U-type: imm[31:12] | rd | opcode. */
  function EncodeU(opcode: bv32, rd: bv32, imm: bv32): bv32
    requires opcode < 0x80 && rd < 32
  {
    (imm & 0xFFFF_F000) | (rd << 7) | opcode
  }

  /** J-type: imm[20|10:1|11|19:12] | rd | opcode. */
  function EncodeJ(opcode: bv32, rd: bv32, off: bv32): bv32
    requires opcode < 0x80 && rd < 32
  {
    (((off >> 20) & 1) << 31) | (((off >> 1) & 0x3FF) << 21) | (((off >> 11) & 1) << 20)
      | (((off >> 12) & 0xFF) << 12) | (rd << 7) | opcode
  }

  // ---------------------------------------------------------------------
  // The fixed fields come back

  lemma EncodeRFields(opcode: bv32, rd: bv32, funct3: bv32, rs1: bv32, rs2: bv32, funct7: bv32)
    requires opcode < 0x80 && rd < 32 && funct3 < 8 && rs1 < 32 && rs2 < 32 && funct7 < 0x80
    ensures var raw := EncodeR(opcode, rd, funct3, rs1, rs2, funct7);
      Opcode(raw) == opcode && Rd(raw) == rd && Funct3(raw) == funct3
      && Rs1(raw) == rs1 && Rs2(raw) == rs2 && Funct7(raw) == funct7
  {
  }

  lemma EncodeIFields(opcode: bv32, rd: bv32, funct3: bv32, rs1: bv32, imm: bv32)
    requires opcode < 0x80 && rd < 32 && funct3 < 8 && rs1 < 32
    ensures var raw := EncodeI(opcode, rd, funct3, rs1, imm);
      Opcode(raw) == opcode && Rd(raw) == rd && Funct3(raw) == funct3 && Rs1(raw) == rs1
  {
  }

  lemma EncodeSFields(opcode: bv32, funct3: bv32, rs1: bv32, rs2: bv32, imm: bv32)
    requires opcode < 0x80 && funct3 < 8 && rs1 < 32 && rs2 < 32
    ensures var raw := EncodeS(opcode, funct3, rs1, rs2, imm);
      Opcode(raw) == opcode && Funct3(raw) == funct3 && Rs1(raw) == rs1 && Rs2(raw) == rs2
  {
  }

  lemma EncodeBFields(opcode: bv32, funct3: bv32, rs1: bv32, rs2: bv32, off: bv32)
    requires opcode < 0x80 && funct3 < 8 && rs1 < 32 && rs2 < 32
    ensures var raw := EncodeB(opcode, funct3, rs1, rs2, off);
      Opcode(raw) == opcode && Funct3(raw) == funct3 && Rs1(raw) == rs1 && Rs2(raw) == rs2
  {
  }

  lemma EncodeUFields(opcode: bv32, rd: bv32, imm: bv32)
    requires opcode < 0x80 && rd < 32
    ensures var raw := EncodeU(opcode, rd, imm);
      Opcode(raw) == opcode && Rd(raw) == rd
  {
  }

  lemma EncodeJFields(opcode: bv32, rd: bv32, off: bv32)
    requires opcode < 0x80 && rd < 32
    ensures var raw := EncodeJ(opcode, rd, off);
      Opcode(raw) == opcode && Rd(raw) == rd
  {
  }

  // ---------------------------------------------------------------------
  // The immediate comes back, one lemma per sign

  lemma EncodeINonNegative(opcode: bv32, rd: bv32, funct3: bv32, rs1: bv32, imm: bv32)
    requires opcode < 0x80 && rd < 32 && funct3 < 8 && rs1 < 32 && imm < 0x800
    ensures ImmI(EncodeI(opcode, rd, funct3, rs1, imm)) == imm
  {
  }

  lemma EncodeINegative(opcode: bv32, rd: bv32, funct3: bv32, rs1: bv32, imm: bv32)
    requires opcode < 0x80 && rd < 32 && funct3 < 8 && rs1 < 32 && 0xFFFF_F800 <= imm
    ensures ImmI(EncodeI(opcode, rd, funct3, rs1, imm)) == imm
  {
  }

  lemma EncodeSNonNegative(opcode: bv32, funct3: bv32, rs1: bv32, rs2: bv32, imm: bv32)
    requires opcode < 0x80 && funct3 < 8 && rs1 < 32 && rs2 < 32 && imm < 0x800
    ensures ImmS(EncodeS(opcode, funct3, rs1, rs2, imm)) == imm
  {
  }

  lemma EncodeSNegative(opcode: bv32, funct3: bv32, rs1: bv32, rs2: bv32, imm: bv32)
    requires opcode < 0x80 && funct3 < 8 && rs1 < 32 && rs2 < 32 && 0xFFFF_F800 <= imm
    ensures ImmS(EncodeS(opcode, funct3, rs1, rs2, imm)) == imm
  {
  }

  lemma EncodeBNonNegative(opcode: bv32, funct3: bv32, rs1: bv32, rs2: bv32, off: bv32)
    requires opcode < 0x80 && funct3 < 8 && rs1 < 32 && rs2 < 32
    requires off & 1 == 0 && off < 0x1000
    ensures ImmB(EncodeB(opcode, funct3, rs1, rs2, off)) == off
  {
  }

  lemma EncodeBNegative(opcode: bv32, funct3: bv32, rs1: bv32, rs2: bv32, off: bv32)
    requires opcode < 0x80 && funct3 < 8 && rs1 < 32 && rs2 < 32
    requires off & 1 == 0 && 0xFFFF_F000 <= off
    ensures ImmB(EncodeB(opcode, funct3, rs1, rs2, off)) == off
  {
  }

  lemma EncodeJNonNegative(opcode: bv32, rd: bv32, off: bv32)
    requires opcode < 0x80 && rd < 32
    requires off & 1 == 0 && off < 0x10_0000
    ensures ImmJ(EncodeJ(opcode, rd, off)) == off
  {
  }

  lemma EncodeJNegative(opcode: bv32, rd: bv32, off: bv32)
    requires opcode < 0x80 && rd < 32
    requires off & 1 == 0 && 0xFFF0_0000 <= off
    ensures ImmJ(EncodeJ(opcode, rd, off)) == off
  {
  }

  lemma EncodeUImmediate(opcode: bv32, rd: bv32, imm: bv32)
    requires opcode < 0x80 && rd < 32 && imm & 0xFFF == 0
    ensures ImmU(EncodeU(opcode, rd, imm)) == imm
  {
  }

  // ---------------------------------------------------------------------
  // Round trips through the decoder

  /** An R-type word decodes to its six fields and immediate 0. */
  lemma DecodeEncodeR(rd: bv32, funct3: bv32, rs1: bv32, rs2: bv32, funct7: bv32)
    requires rd < 32 && funct3 < 8 && rs1 < 32 && rs2 < 32 && funct7 < 0x80
    ensures Decode(EncodeR(0x33, rd, funct3, rs1, rs2, funct7)) == Instruction(0x33, rd as int, funct3, rs1 as int, rs2 as int, funct7, 0)
  {
    EncodeRFields(0x33, rd, funct3, rs1, rs2, funct7);
  }

  /**
   * A word in I format (loads, JALR, SYSTEM and the OP-IMM instructions
   * other than the shifts) decodes to its fields and its signed 12-bit
   * immediate.
   */
  lemma DecodeEncodeI(opcode: bv32, rd: bv32, funct3: bv32, rs1: bv32, imm: bv32)
    requires opcode == 0x03 || opcode == 0x67 || opcode == 0x73 || (opcode == 0x13 && funct3 != 1 && funct3 != 5)
    requires rd < 32 && funct3 < 8 && rs1 < 32
    requires imm < 0x800 || 0xFFFF_F800 <= imm
    ensures var ins := Decode(EncodeI(opcode, rd, funct3, rs1, imm));
      ins.opcode == opcode && ins.rd == rd as int && ins.funct3 == funct3 && ins.rs1 == rs1 as int && ins.imm == imm
  {
    EncodeIFields(opcode, rd, funct3, rs1, imm);
    if imm < 0x800 {
      EncodeINonNegative(opcode, rd, funct3, rs1, imm);
    } else {
      EncodeINegative(opcode, rd, funct3, rs1, imm);
    }
  }

  /** An immediate shift decodes its shift amount from the rs2 position, unextended. */
  lemma DecodeEncodeShift(rd: bv32, funct3: bv32, rs1: bv32, shamt: bv32, funct7: bv32)
    requires funct3 == 1 || funct3 == 5
    requires rd < 32 && rs1 < 32 && shamt < 32 && funct7 < 0x80
    ensures Decode(EncodeR(0x13, rd, funct3, rs1, shamt, funct7)) == Instruction(0x13, rd as int, funct3, rs1 as int, shamt as int, funct7, shamt)
  {
    EncodeRFields(0x13, rd, funct3, rs1, shamt, funct7);
    ImmShiftIsRs2(EncodeR(0x13, rd, funct3, rs1, shamt, funct7));
  }

  /** A store word decodes to its fields and its signed 12-bit offset. */
  lemma DecodeEncodeS(funct3: bv32, rs1: bv32, rs2: bv32, imm: bv32)
    requires funct3 < 8 && rs1 < 32 && rs2 < 32
    requires imm < 0x800 || 0xFFFF_F800 <= imm
    ensures var ins := Decode(EncodeS(0x23, funct3, rs1, rs2, imm));
      ins.opcode == 0x23 && ins.funct3 == funct3 && ins.rs1 == rs1 as int && ins.rs2 == rs2 as int && ins.imm == imm
  {
    EncodeSFields(0x23, funct3, rs1, rs2, imm);
    if imm < 0x800 {
      EncodeSNonNegative(0x23, funct3, rs1, rs2, imm);
    } else {
      EncodeSNegative(0x23, funct3, rs1, rs2, imm);
    }
  }

  /** A branch decodes to its fields and any even offset in [-2^12, 2^12). */
  lemma DecodeEncodeB(funct3: bv32, rs1: bv32, rs2: bv32, off: bv32)
    requires funct3 < 8 && rs1 < 32 && rs2 < 32
    requires off & 1 == 0 && (off < 0x1000 || 0xFFFF_F000 <= off)
    ensures var ins := Decode(EncodeB(0x63, funct3, rs1, rs2, off));
      ins.opcode == 0x63 && ins.funct3 == funct3 && ins.rs1 == rs1 as int && ins.rs2 == rs2 as int && ins.imm == off
  {
    EncodeBFields(0x63, funct3, rs1, rs2, off);
    if off < 0x1000 {
      EncodeBNonNegative(0x63, funct3, rs1, rs2, off);
    } else {
      EncodeBNegative(0x63, funct3, rs1, rs2, off);
    }
  }

  /** LUI and AUIPC decode to rd and the upper immediate with its low 12 bits clear. */
  lemma DecodeEncodeU(opcode: bv32, rd: bv32, imm: bv32)
    requires opcode == 0x37 || opcode == 0x17
    requires rd < 32 && imm & 0xFFF == 0
    ensures var ins := Decode(EncodeU(opcode, rd, imm));
      ins.opcode == opcode && ins.rd == rd as int && ins.imm == imm
  {
    EncodeUFields(opcode, rd, imm);
    EncodeUImmediate(opcode, rd, imm);
  }

  /** JAL decodes to rd and any even offset in [-2^20, 2^20). */
  lemma DecodeEncodeJ(rd: bv32, off: bv32)
    requires rd < 32
    requires off & 1 == 0 && (off < 0x10_0000 || 0xFFF0_0000 <= off)
    ensures var ins := Decode(EncodeJ(0x6F, rd, off));
      ins.opcode == 0x6F && ins.rd == rd as int && ins.imm == off
  {
    EncodeJFields(0x6F, rd, off);
    if off < 0x10_0000 {
      EncodeJNonNegative(0x6F, rd, off);
    } else {
      EncodeJNegative(0x6F, rd, off);
    }
  }
}
