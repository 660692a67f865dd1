/**
 * What each class of instruction does to the machine state, stated
 * against the handler functions of semantics.dfy: which parts of the
 * state an instruction may change, the value it writes, and where the
 * pc goes. The pc values are the handler's own, before `cpu_step` adds 4.
 */
module Instructions {
  import opened Bits
  import opened Memory
  import opened Decoder
  import opened Semantics

  // ---------------------------------------------------------------------
  // The pc arithmetic, on plain words. Apart from NextPcRedirect these
  // only unfold a helper: they are called on the exact terms of the
  // proofs below, which keeps the solver from unfolding everything at once.

  lemma RedirectPcRelative(pc: bv32, imm: bv32)
    ensures Redirect(PcRelative(pc, imm)) == pc + imm - 4
  {
  }

  lemma NextPcIsPlus4(pc: bv32)
    ensures NextPc(pc) == pc + 4
  {
  }

  /** The step's increment undoes the handler's pre-subtraction. */
  lemma NextPcRedirect(target: bv32)
    ensures NextPc(Redirect(target)) == target
  {
  }

  lemma RedirectIsMinus4(pc: bv32)
    ensures Redirect(pc) == pc - 4
  {
  }

  lemma PcRelativeIsPlus(pc: bv32, imm: bv32)
    ensures PcRelative(pc, imm) == pc + imm
  {
  }

  // ---------------------------------------------------------------------
  // Frames

  /** Only register rd can change: every other register keeps its value. */
  lemma DispatchWritesOnlyRd(s: State, ins: Instruction, i: int)
    requires WellFormed(s) && AccessOk(s.regs, s.mem, ins)
    requires 0 <= i < NREGS && i != ins.rd
    ensures Dispatch(s, ins).regs[i] == s.regs[i]
  {
    var r := Dispatch(s, ins);
    assert r.regs == s.regs[ins.rd := r.regs[ins.rd]];
  }

  /** Only stores write memory. */
  lemma DispatchMemoryOnlyByStores(s: State, ins: Instruction)
    requires WellFormed(s) && AccessOk(s.regs, s.mem, ins) && ins.opcode != 0x23
    ensures Dispatch(s, ins).mem == s.mem
  {
  }

  /** Only branches, jumps and SYSTEM move the pc. */
  lemma DispatchPcOnlyByControl(s: State, ins: Instruction)
    requires WellFormed(s) && AccessOk(s.regs, s.mem, ins)
    requires ins.opcode !in {0x63, 0x6F, 0x67, 0x73}
    ensures Dispatch(s, ins).pc == s.pc
  {
  }

  /** Only ECALL and EBREAK change the run state, and only to Halted: nothing resumes. */
  lemma DispatchRunState(s: State, ins: Instruction)
    requires WellFormed(s) && AccessOk(s.regs, s.mem, ins)
    ensures Dispatch(s, ins).run == (if ins.opcode == 0x73 && (ins.imm == 0 || ins.imm == 1) then Halted else s.run)
  {
  }

  /** FENCE, unknown opcodes (atomics 0x2F among them) and other SYSTEM immediates change nothing. */
  lemma DispatchNoEffect(s: State, ins: Instruction)
    requires WellFormed(s)
    requires ins.opcode == 0x0F || ins.opcode !in {0x33, 0x13, 0x37, 0x17, 0x6F, 0x67, 0x63, 0x03, 0x23, 0x73}
      || (ins.opcode == 0x73 && ins.imm != 0 && ins.imm != 1)
    ensures AccessOk(s.regs, s.mem, ins) && Dispatch(s, ins) == s
  {
  }

  /** After every instruction x0 reads 0, whatever the handler wrote. */
  lemma ExecuteZeroesX0(s: State, raw: bv32)
    requires WellFormed(s) && AccessOk(s.regs, s.mem, Decode(raw))
    ensures WellFormed(Execute(s, raw)) && Execute(s, raw).regs[0] == 0
  {
  }

  // ---------------------------------------------------------------------
  // Control transfer

  /**
   * A branch compares rs1 with rs2; when taken the pc becomes pc + imm - 4,
   * otherwise it stays. Registers, memory and the run state are untouched.
   */
  lemma BranchEffect(s: State, ins: Instruction)
    requires WellFormed(s) && ins.opcode == 0x63
    ensures var r := Dispatch(s, ins);
      r.regs == s.regs && r.mem == s.mem && r.run == s.run
      && r.pc == (if BranchTaken(ins.funct3, s.regs[ins.rs1], s.regs[ins.rs2]) then s.pc + ins.imm - 4 else s.pc)
  {
    RedirectPcRelative(s.pc, ins.imm);
  }

  /** funct3 2 and 3 are not branch conditions: such a branch is never taken. */
  lemma BranchFunct3TwoThreeNeverTaken(funct3: bv32, a: bv32, b: bv32)
    requires funct3 == 2 || funct3 == 3
    ensures !BranchTaken(funct3, a, b)
  {
  }

  /** BGE is the negation of BLT, BGEU of BLTU, BNE of BEQ. */
  lemma BranchConditionsComplement(a: bv32, b: bv32)
    ensures BranchTaken(5, a, b) == !BranchTaken(4, a, b)
    ensures BranchTaken(7, a, b) == !BranchTaken(6, a, b)
    ensures BranchTaken(1, a, b) == !BranchTaken(0, a, b)
  {
  }

  /** JAL writes pc + 4 to rd unless rd is x0, and sets pc to pc + imm - 4. */
  lemma JalEffect(s: State, ins: Instruction)
    requires WellFormed(s) && ins.opcode == 0x6F
    ensures var r := Dispatch(s, ins);
      r.mem == s.mem && r.run == s.run && r.pc == s.pc + ins.imm - 4
      && r.regs[ins.rd] == (if ins.rd == 0 then s.regs[0] else s.pc + 4)
  {
    RedirectPcRelative(s.pc, ins.imm);
    NextPcIsPlus4(s.pc);
  }

  /**
   * JALR jumps to (rs1 + imm) with bit 0 cleared, minus 4, reading rs1
   * before rd is written: with rd == rs1 the target still comes from the
   * old value.
   */
  lemma JalrEffect(s: State, ins: Instruction)
    requires WellFormed(s) && ins.opcode == 0x67
    ensures var r := Dispatch(s, ins);
      r.mem == s.mem && r.run == s.run
      && NextPc(r.pc) == JalrTarget(s.regs[ins.rs1], ins.imm)
      && r.regs[ins.rd] == (if ins.rd == 0 then s.regs[0] else s.pc + 4)
  {
    NextPcRedirect(JalrTarget(s.regs[ins.rs1], ins.imm));
    NextPcIsPlus4(s.pc);
  }

  /** The JALR target clears bit 0 only: bit 1 and every higher bit are those of rs1 + imm. */
  lemma JalrTargetBits(base: bv32, imm: bv32)
    ensures JalrTarget(base, imm) & 1 == 0
    ensures JalrTarget(base, imm) >> 1 == (base + imm) >> 1
  {
  }

  /** LUI writes the immediate, AUIPC the pc plus the immediate; the pc does not move. */
  lemma UpperImmediateEffect(s: State, ins: Instruction)
    requires WellFormed(s) && (ins.opcode == 0x37 || ins.opcode == 0x17)
    ensures var r := Dispatch(s, ins);
      r.mem == s.mem && r.run == s.run && r.pc == s.pc
      && r.regs[ins.rd] == (if ins.opcode == 0x37 then ins.imm else s.pc + ins.imm)
  {
    PcRelativeIsPlus(s.pc, ins.imm);
  }

  /** ECALL and EBREAK halt and pull the pc back by 4, so that the step leaves it on the instruction. */
  lemma SystemHalts(s: State, ins: Instruction)
    requires WellFormed(s) && ins.opcode == 0x73 && (ins.imm == 0 || ins.imm == 1)
    ensures var r := Dispatch(s, ins);
      r.regs == s.regs && r.mem == s.mem && r.run == Halted && r.pc == s.pc - 4
  {
    RedirectIsMinus4(s.pc);
  }

  // ---------------------------------------------------------------------
  // Loads and stores

  /**
   * LB and LH sign-extend the byte or half-word at rs1 + imm, LBU and LHU
   * zero-extend it, LW takes the whole word; funct3 3, 6 and 7 load nothing.
   */
  lemma LoadEffect(s: State, ins: Instruction)
    requires WellFormed(s) && ins.opcode == 0x03 && InBounds(s.regs, s.mem, ins, LoadWidth(ins.funct3))
    ensures var r := Dispatch(s, ins);
      var a := EffectiveAddress(s.regs[ins.rs1], ins.imm) as int;
      r.mem == s.mem && r.pc == s.pc && r.run == s.run
      && (ins.funct3 == 0 ==> r.regs[ins.rd] == SignExtendByte(s.mem[a]))
      && (ins.funct3 == 4 ==> r.regs[ins.rd] == s.mem[a] as bv32)
      && (ins.funct3 == 1 ==> r.regs[ins.rd] == SignExtendHalf(Load16(s.mem, a)))
      && (ins.funct3 == 5 ==> r.regs[ins.rd] == Load16(s.mem, a) as bv32)
      && (ins.funct3 == 2 ==> r.regs[ins.rd] == Load32(s.mem, a))
      && (ins.funct3 !in {0, 1, 2, 4, 5} ==> r == s)
  {
  }

  /** A store changes no register, neither the pc nor the run state. */
  lemma StoreKeepsRegisters(s: State, ins: Instruction)
    requires WellFormed(s) && ins.opcode == 0x23 && InBounds(s.regs, s.mem, ins, StoreWidth(ins.funct3))
    ensures var r := Dispatch(s, ins);
      r.regs == s.regs && r.pc == s.pc && r.run == s.run && |r.mem| == |s.mem|
  {
  }

  /** A store runs `store_exec`. */
  lemma DispatchStore(s: State, ins: Instruction)
    requires WellFormed(s) && ins.opcode == 0x23 && InBounds(s.regs, s.mem, ins, StoreWidth(ins.funct3))
    ensures Dispatch(s, ins) == Store(s, ins)
  {
  }

  lemma StoreIsWrite(s: State, ins: Instruction)
    requires WellFormed(s) && InBounds(s.regs, s.mem, ins, StoreWidth(ins.funct3))
    ensures StoreWidth(ins.funct3) == 0 ==> Store(s, ins) == s
    ensures StoreWidth(ins.funct3) != 0 ==>
      Store(s, ins).mem == Write(s.mem, EffectiveAddress(s.regs[ins.rs1], ins.imm) as int, StoreData(ins.funct3, s.regs[ins.rs2]))
  {
  }

  /**
   * SB, SH and SW write the bytes of `StoreData` from rs1 + imm upwards,
   * and nothing else: the new memory is `Write` of them. Funct3 3 to 7
   * write nothing, wherever rs1 + imm points.
   */
  lemma StoreWrites(s: State, ins: Instruction)
    requires WellFormed(s) && ins.opcode == 0x23 && InBounds(s.regs, s.mem, ins, StoreWidth(ins.funct3))
    ensures StoreWidth(ins.funct3) == 0 ==> Dispatch(s, ins) == s
    ensures StoreWidth(ins.funct3) != 0 ==>
      Dispatch(s, ins).mem == Write(s.mem, EffectiveAddress(s.regs[ins.rs1], ins.imm) as int, StoreData(ins.funct3, s.regs[ins.rs2]))
  {
    DispatchStore(s, ins);
    StoreIsWrite(s, ins);
  }

  /**
   * A store changes no byte outside the ones it writes at rs1 + imm: none
   * at all for funct3 3 and above, whose width is 0.
   */
  lemma StoreFrame(s: State, ins: Instruction)
    requires WellFormed(s) && ins.opcode == 0x23 && InBounds(s.regs, s.mem, ins, StoreWidth(ins.funct3))
    ensures var r := Dispatch(s, ins);
      var a := EffectiveAddress(s.regs[ins.rs1], ins.imm) as int;
      var w := StoreWidth(ins.funct3);
      forall j :: 0 <= j < |s.mem| && !(a <= j < a + w) ==> r.mem[j] == s.mem[j]
  {
    StoreWrites(s, ins);
  }

  /**
   * Loads with funct3 3, 6 or 7 and stores with funct3 3 to 7 touch no
   * memory: whatever rs1 holds, they can be executed, and they change
   * nothing.
   */
  lemma ZeroWidthAccess(s: State, ins: Instruction)
    requires WellFormed(s)
    requires (ins.opcode == 0x03 && ins.funct3 !in {0, 1, 2, 4, 5}) || (ins.opcode == 0x23 && ins.funct3 !in {0, 1, 2})
    ensures AccessOk(s.regs, s.mem, ins) && Dispatch(s, ins) == s
  {
  }

  /** The stored bytes are those of rs2, low-order first: SB one, SH two, SW all four. */
  lemma StoreDataBytes(funct3: bv32, v: bv32)
    ensures var d := StoreData(funct3, v);
      (|d| >= 1 ==> d[0] == (v & 0xFF) as bv8)
      && (|d| >= 2 ==> d[1] == ((v >> 8) & 0xFF) as bv8)
      && (|d| == 4 ==> d[2] == ((v >> 16) & 0xFF) as bv8 && d[3] == ((v >> 24) & 0xFF) as bv8)
  {
  }
}
