/**
 * What one `cpu_step` does (src/cpu.c:53-66), stated against the ISA's
 * own view of control flow: the handlers pre-subtract 4 from the pc and
 * the step adds it back, and the net effect is proved to be the next pc
 * the instruction names. Also the halting behaviour, the register
 * snapshot, two programs from test/test.cpp, and `cpu_reset`.
 */
module Steps {
  import opened Bits
  import opened Memory
  import opened Decoder
  import opened Semantics
  import opened Instructions

  // ---------------------------------------------------------------------
  // The pc after one step

  /**
   * The address of the next instruction as the ISA defines it: the branch
   * or jump target for a taken branch, JAL and JALR, the halting
   * instruction itself for ECALL and EBREAK, and the following word for
   * everything else.
   */
  function IsaNextPc(regs: seq<bv32>, pc: bv32, ins: Instruction): bv32
    requires |regs| == NREGS
  {
    if ins.opcode == 0x63 then
      if BranchTaken(ins.funct3, regs[ins.rs1], regs[ins.rs2]) then PcRelative(pc, ins.imm) else NextPc(pc)
    else if ins.opcode == 0x6F then PcRelative(pc, ins.imm)
    else if ins.opcode == 0x67 then JalrTarget(regs[ins.rs1], ins.imm)
    else if ins.opcode == 0x73 && (ins.imm == 0 || ins.imm == 1) then pc
    else NextPc(pc)
  }

  lemma StepPcSequential(s: State)
    requires CanStep(s) && Decode(Fetch(s)).opcode !in {0x63, 0x6F, 0x67, 0x73}
    ensures Step(s).pc == NextPc(s.pc)
  {
  }

  lemma StepPcBranch(s: State)
    requires CanStep(s) && Decode(Fetch(s)).opcode == 0x63
    ensures var ins := Decode(Fetch(s));
      Step(s).pc == (if BranchTaken(ins.funct3, s.regs[ins.rs1], s.regs[ins.rs2]) then PcRelative(s.pc, ins.imm) else NextPc(s.pc))
  {
    var ins := Decode(Fetch(s));
    NextPcRedirect(PcRelative(s.pc, ins.imm));
  }

  lemma StepPcJal(s: State)
    requires CanStep(s) && Decode(Fetch(s)).opcode == 0x6F
    ensures Step(s).pc == PcRelative(s.pc, Decode(Fetch(s)).imm)
  {
    NextPcRedirect(PcRelative(s.pc, Decode(Fetch(s)).imm));
  }

  lemma StepPcJalr(s: State)
    requires CanStep(s) && Decode(Fetch(s)).opcode == 0x67
    ensures var ins := Decode(Fetch(s));
      Step(s).pc == JalrTarget(s.regs[ins.rs1], ins.imm)
  {
    var ins := Decode(Fetch(s));
    NextPcRedirect(JalrTarget(s.regs[ins.rs1], ins.imm));
  }

  lemma StepPcSystem(s: State)
    requires CanStep(s) && Decode(Fetch(s)).opcode == 0x73
    ensures var ins := Decode(Fetch(s));
      Step(s).pc == (if ins.imm == 0 || ins.imm == 1 then s.pc else NextPc(s.pc))
  {
    NextPcRedirect(s.pc);
  }

  /**
   * The pre-subtract-and-add-back scheme of the handlers and `cpu_step`
   * lands exactly where the ISA says the next instruction is.
   */
  lemma StepPc(s: State)
    requires CanStep(s)
    ensures Step(s).pc == IsaNextPc(s.regs, s.pc, Decode(Fetch(s)))
  {
    var ins := Decode(Fetch(s));
    if ins.opcode == 0x63 {
      StepPcBranch(s);
    } else if ins.opcode == 0x6F {
      StepPcJal(s);
    } else if ins.opcode == 0x67 {
      StepPcJalr(s);
    } else if ins.opcode == 0x73 {
      StepPcSystem(s);
    } else {
      StepPcSequential(s);
    }
  }

  // ---------------------------------------------------------------------
  // Run state, snapshot and x0

  /**
   * A step halts on ECALL and EBREAK and leaves the run state alone
   * otherwise: nothing sets it back to Running, and a step taken while
   * Halted (the step does not look) stays Halted.
   */
  lemma StepRunState(s: State)
    requires CanStep(s)
    ensures var ins := Decode(Fetch(s));
      Step(s).run == (if ins.opcode == 0x73 && (ins.imm == 0 || ins.imm == 1) then Halted else s.run)
  {
    DispatchRunState(s.(prev := s.regs), Decode(Fetch(s)));
  }

  /** After a step, prev_registers holds the registers as they were before it, and x0 is 0. */
  lemma StepSnapshot(s: State)
    requires CanStep(s)
    ensures WellFormed(Step(s)) && Step(s).prev == s.regs && Step(s).regs[0] == 0
  {
  }

  /** A step changes no register but rd, x0 aside. */
  lemma StepWritesOnlyRd(s: State, i: int)
    requires CanStep(s) && 0 < i < NREGS && i != Decode(Fetch(s)).rd
    ensures WellFormed(Step(s)) && Step(s).regs[i] == s.regs[i]
  {
    var ins := Decode(Fetch(s));
    DispatchWritesOnlyRd(s.(prev := s.regs), ins, i);
  }

  // ---------------------------------------------------------------------
  // Programs from test/test.cpp

  /** Little-endian bytes of a list of instruction words. */
  function Program(words: seq<bv32>): (m: seq<bv8>)
    ensures |m| == 4 * |words|
  {
    if words == [] then [] else Bytes32(words[0]) + Program(words[1..])
  }

  /** The state the tests start from: all zero, Running, the program at address 0. */
  function Loaded(words: seq<bv32>): State
  {
    Initial(Program(words))
  }

  /** JAL x1, 8; NOP; ADDI x2, x0, 5, loaded at address 0. */
  function JalStart(): State
  {
    Loaded([0x0080_00EF, 0x0000_0013, 0x0050_0113])
  }

  /** JAL x1, 8 at address 0 links 4 into x1 and jumps over the NOP to 8. */
  lemma JalFirst()
    ensures CanStep(JalStart()) && Step(JalStart()) == JalStart().(regs := JalStart().regs[1 := 4], pc := 8)
  {
  }

  /** The ADDI at the jump target then runs: x2 = 5 and the pc moves on to 12. */
  lemma JalSecond(s: State)
    requires s == JalStart().(regs := JalStart().regs[1 := 4], pc := 8)
    ensures CanStep(s) && Step(s) == s.(regs := s.regs[2 := 5], prev := s.regs, pc := 12)
  {
  }

  /** Two steps of the JAL program: x1 = 4 from the link, x2 = 5 from the instruction at the target. */
  lemma JalExample()
    ensures SafeFor(JalStart(), 2) && RunFor(JalStart(), 2).regs[1] == 4 && RunFor(JalStart(), 2).regs[2] == 5
    ensures Step(JalStart()).pc == 8 && RunFor(JalStart(), 2).run == Running
  {
    JalFirst();
    JalSecond(Step(JalStart()));
  }

  /**
   * The word 0x0000B103 (a load with funct3 3, RV64's LD) with x1 = 0x100, far past
   * the 8 bytes of memory: it reads nothing, so the step is defined and
   * only moves the pc on.
   */
  lemma NoWidthLoadExample()
    ensures var s := Loaded([0x0000_B103, 0x0000_0013]).(regs := Zeros(NREGS)[1 := 0x100]);
      CanStep(s) && Step(s) == s.(prev := s.regs, pc := 4)
  {
  }

  /** ECALL at address 0 halts with the pc left on it. */
  lemma EcallExample()
    ensures var s := Loaded([0x0000_0073]);
      CanStep(s) && Step(s).pc == 0 && Step(s).run == Halted
  {
  }

  /** ADDI x1, x0, 5; ADDI x2, x0, 10; ADD x3, x1, x2, loaded at address 0. */
  function AddStart(): State
  {
    Loaded([0x0050_0093, 0x00A0_0113, 0x0020_81B3])
  }

  lemma AddFirst()
    ensures CanStep(AddStart()) && Step(AddStart()) == AddStart().(regs := AddStart().regs[1 := 5], pc := 4)
  {
  }

  lemma AddSecond(s: State)
    requires s == AddStart().(regs := AddStart().regs[1 := 5], pc := 4)
    ensures CanStep(s) && Step(s) == s.(regs := s.regs[2 := 10], prev := s.regs, pc := 8)
  {
  }

  lemma AddThird(s: State)
    requires s == AddStart().(regs := AddStart().regs[1 := 5][2 := 10], prev := AddStart().regs[1 := 5], pc := 8)
    ensures CanStep(s) && Step(s) == s.(regs := s.regs[3 := 15], prev := s.regs, pc := 12)
  {
  }

  /** After three steps from pc 0 the program leaves x3 = 15 and pc = 12. */
  lemma AddProgram()
    ensures SafeFor(AddStart(), 3) && RunFor(AddStart(), 3).regs[3] == 15 && RunFor(AddStart(), 3).pc == 12
  {
    var s0 := AddStart();
    AddFirst();
    var s1 := Step(s0);
    AddSecond(s1);
    var s2 := Step(s1);
    AddThird(s2);
  }

  // ---------------------------------------------------------------------
  // cpu_reset

  /**
   * `cpu_reset` zeroes the registers, the snapshot, the pc and the
   * reservation words, sets Running (from any state, Halted included),
   * clears the first MEM_SIZE bytes and keeps any bytes beyond them.
   */
  lemma ResetState(s: State)
    requires |s.mem| >= MEM_SIZE
    ensures var r := Reset(s);
      WellFormed(r) && r.pc == 0 && r.run == Running && r.reservationSet == 0 && r.reservationAddress == 0
      && (forall i :: 0 <= i < NREGS ==> r.regs[i] == 0 && r.prev[i] == 0)
      && |r.mem| == |s.mem|
      && (forall i :: 0 <= i < MEM_SIZE ==> r.mem[i] == 0)
      && (forall i :: MEM_SIZE <= i < |s.mem| ==> r.mem[i] == s.mem[i])
  {
  }

  /** Resetting twice is resetting once. */
  lemma ResetIdempotent(s: State)
    requires |s.mem| >= MEM_SIZE
    ensures |Reset(s).mem| >= MEM_SIZE && Reset(Reset(s)) == Reset(s)
  {
  }
}
