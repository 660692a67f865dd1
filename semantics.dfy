/**
 * What one instruction, one `cpu_step` and a bounded `cpu_run` do to the
 * machine state, as pure functions (src/instr.c, src/cpu.c). The class in
 * machine.dfy updates its arrays in place and is proved to agree with
 * these functions; the properties of the core are proved here, about them.
 */
module Semantics {
  import opened Bits
  import opened Memory
  import opened Decoder

  datatype Option<T> = None | Some(value: T)

  /** `enum cpu_state`. */
  datatype RunState = Running | Halted

  /** Number of integer registers (include/cpu.h NREGS). */
  const NREGS: nat := 32

  /**
   * The fields of `struct cpu` (include/cpu.h): the register file, its
   * snapshot from before the last step, the program counter, the run
   * state, the memory bytes, and the two reservation words that nothing
   * in the core reads or writes after initialisation.
   */
  datatype State = State(
    regs: seq<bv32>,
    prev: seq<bv32>,
    pc: bv32,
    run: RunState,
    mem: seq<bv8>,
    reservationSet: bv32,
    reservationAddress: bv32)

  predicate WellFormed(s: State)
  {
    |s.regs| == NREGS && |s.prev| == NREGS
  }

  /** A C comparison result written into a register: 1 or 0. */
  function Flag(b: bool): bv32
  {
    if b then 1 else 0
  }

  // ---------------------------------------------------------------------
  // The arithmetic of r_type_exec and i_type_exec. `None` is a funct
  // combination the switch does not handle: nothing is written.

  /** The value `r_type_exec` writes to rd, from the values of rs1 and rs2. */
  function RTypeValue(funct3: bv32, funct7: bv32, a: bv32, b: bv32): Option<bv32>
  {
    if funct3 == 0 then
      if funct7 == 0x00 then Some(a + b)
      else if funct7 == 0x20 then Some(a - b)
      else None
    else if funct3 == 1 then Some(a << (b & 0x1F))
    else if funct3 == 2 then Some(Flag(Signed(a) < Signed(b)))
    else if funct3 == 3 then Some(Flag(a < b))
    else if funct3 == 4 then Some(a ^ b)
    else if funct3 == 5 then
      if funct7 == 0x00 then Some(a >> (b & 0x1F))
      else if funct7 == 0x20 then Some(ShiftRightArith(a, b & 0x1F))
      else None
    else if funct3 == 6 then Some(a | b)
    else if funct3 == 7 then Some(a & b)
    else None
  }

  /** The value `i_type_exec` writes to rd, from the value of rs1 and the immediate. */
  function ITypeValue(funct3: bv32, funct7: bv32, a: bv32, imm: bv32): Option<bv32>
  {
    if funct3 == 0 then Some(a + imm)
    else if funct3 == 1 then Some(a << (imm & 0x1F))
    else if funct3 == 2 then Some(Flag(Signed(a) < Signed(imm)))
    else if funct3 == 3 then Some(Flag(a < imm))
    else if funct3 == 4 then Some(a ^ imm)
    else if funct3 == 5 then
      if funct7 == 0x00 then Some(a >> (imm & 0x1F))
      else if funct7 == 0x20 then Some(ShiftRightArith(a, imm & 0x1F))
      else None
    else if funct3 == 6 then Some(a | imm)
    else if funct3 == 7 then Some(a & imm)
    else None
  }

  /** The branch condition of `b_type_exec`; funct3 2 and 3 never branch. */
  predicate BranchTaken(funct3: bv32, a: bv32, b: bv32)
  {
    if funct3 == 0 then a == b
    else if funct3 == 1 then a != b
    else if funct3 == 4 then Signed(a) < Signed(b)
    else if funct3 == 5 then Signed(a) >= Signed(b)
    else if funct3 == 6 then a < b
    else if funct3 == 7 then a >= b
    else false
  }

  // ---------------------------------------------------------------------
  // Loads and stores

  /** Bytes read by a load with this funct3; 0 for the funct3 values that read nothing. */
  function LoadWidth(funct3: bv32): nat
  {
    if funct3 == 0 || funct3 == 4 then 1
    else if funct3 == 1 || funct3 == 5 then 2
    else if funct3 == 2 then 4
    else 0
  }

  /** Bytes written by a store with this funct3; 0 for the funct3 values that write nothing. */
  function StoreWidth(funct3: bv32): nat
  {
    if funct3 == 0 then 1
    else if funct3 == 1 then 2
    else if funct3 == 2 then 4
    else 0
  }

  /** The value `load_exec` writes to rd, read from `addr`. */
  function LoadValue(funct3: bv32, mem: seq<bv8>, addr: nat): (v: Option<bv32>)
    requires LoadWidth(funct3) == 0 || addr + LoadWidth(funct3) <= |mem|
    ensures v.None? <==> LoadWidth(funct3) == 0
  {
    if funct3 == 0 then Some(SignExtendByte(Load8(mem, addr)))
    else if funct3 == 1 then Some(SignExtendHalf(Load16(mem, addr)))
    else if funct3 == 2 then Some(Load32(mem, addr))
    else if funct3 == 4 then Some(Load8(mem, addr) as bv32)
    else if funct3 == 5 then Some(Load16(mem, addr) as bv32)
    else None
  }

  /** The bytes `store_exec` writes: the low 1, 2 or 4 bytes of rs2. */
  function StoreData(funct3: bv32, val: bv32): (b: seq<bv8>)
    ensures |b| == StoreWidth(funct3)
  {
    if funct3 == 0 then Bytes8(Byte0(val))
    else if funct3 == 1 then Bytes16(Low16(val))
    else if funct3 == 2 then Bytes32(val)
    else []
  }

  /** The address of a load or store: rs1 + imm, wrapping modulo 2^32. */
  function EffectiveAddress(base: bv32, imm: bv32): bv32
  {
    base + imm
  }

  // ---------------------------------------------------------------------
  // One handler per format

  /**
   * What no instruction changes: the snapshot, the reservation words and
   * the sizes of the register file and of memory.
   */
  predicate Preserved(s: State, r: State)
  {
    r.prev == s.prev && r.reservationSet == s.reservationSet && r.reservationAddress == s.reservationAddress
    && |r.regs| == |s.regs| && |r.mem| == |s.mem|
  }

  /** Of the registers, only rd may differ between `s` and `r`. */
  predicate OnlyRd(s: State, r: State, rd: RegIndex)
    requires WellFormed(s) && WellFormed(r)
  {
    r.regs == s.regs[rd := r.regs[rd]]
  }

  function SetReg(s: State, rd: RegIndex, v: Option<bv32>): (r: State)
    requires WellFormed(s)
    ensures WellFormed(r) && Preserved(s, r) && OnlyRd(s, r, rd)
  {
    match v
    case None => s
    case Some(x) => s.(regs := s.regs[rd := x])
  }

  function RType(s: State, ins: Instruction): (r: State)
    requires WellFormed(s)
    ensures Preserved(s, r) && WellFormed(r) && OnlyRd(s, r, ins.rd)
    ensures r.pc == s.pc && r.mem == s.mem && r.run == s.run
  {
    SetReg(s, ins.rd, RTypeValue(ins.funct3, ins.funct7, s.regs[ins.rs1], s.regs[ins.rs2]))
  }

  function IType(s: State, ins: Instruction): (r: State)
    requires WellFormed(s)
    ensures Preserved(s, r) && WellFormed(r) && OnlyRd(s, r, ins.rd)
    ensures r.pc == s.pc && r.mem == s.mem && r.run == s.run
  {
    SetReg(s, ins.rd, ITypeValue(ins.funct3, ins.funct7, s.regs[ins.rs1], ins.imm))
  }

  function BType(s: State, ins: Instruction): (r: State)
    requires WellFormed(s)
    ensures Preserved(s, r) && WellFormed(r) && OnlyRd(s, r, ins.rd)
    ensures r.regs == s.regs && r.mem == s.mem && r.run == s.run
  {
    if BranchTaken(ins.funct3, s.regs[ins.rs1], s.regs[ins.rs2]) then s.(pc := Redirect(PcRelative(s.pc, ins.imm))) else s
  }

  /** The value `u_type_exec` writes to rd: LUI the immediate, AUIPC the pc plus the immediate. */
  function UTypeValue(opcode: bv32, pc: bv32, imm: bv32): Option<bv32>
  {
    if opcode == 0x37 then Some(imm)
    else if opcode == 0x17 then Some(PcRelative(pc, imm))
    else None
  }

  function UType(s: State, ins: Instruction): (r: State)
    requires WellFormed(s)
    ensures Preserved(s, r) && WellFormed(r) && OnlyRd(s, r, ins.rd)
    ensures r.pc == s.pc && r.mem == s.mem && r.run == s.run
  {
    SetReg(s, ins.rd, UTypeValue(ins.opcode, s.pc, ins.imm))
  }

  /** A pc-relative address: AUIPC's value and the target of JAL and of a taken branch. */
  function PcRelative(pc: bv32, imm: bv32): bv32
  {
    pc + imm
  }

  /** The address of the following instruction: the pc `cpu_step` advances to, and the link value of JAL and JALR. */
  function NextPc(pc: bv32): bv32
  {
    pc + 4
  }

  /** The JALR target: rs1 + imm with bit 0 cleared (bit 1 is kept). */
  function JalrTarget(base: bv32, imm: bv32): bv32
  {
    (base + imm) & !1
  }

  /** Taken branches and jumps pre-subtract the 4 that `cpu_step` adds afterwards. */
  function Redirect(target: bv32): bv32
  {
    target - 4
  }

  /** JAL links only when rd is not x0, then jumps pc-relative. */
  function JType(s: State, ins: Instruction): (r: State)
    requires WellFormed(s)
    ensures Preserved(s, r) && WellFormed(r) && OnlyRd(s, r, ins.rd)
    ensures r.mem == s.mem && r.run == s.run
  {
    var linked := if ins.rd != 0 then s.regs[ins.rd := NextPc(s.pc)] else s.regs;
    s.(regs := linked, pc := Redirect(PcRelative(s.pc, ins.imm)))
  }

  /** The target is computed from rs1 before rd is written. */
  function Jalr(s: State, ins: Instruction): (r: State)
    requires WellFormed(s)
    ensures Preserved(s, r) && WellFormed(r) && OnlyRd(s, r, ins.rd)
    ensures r.mem == s.mem && r.run == s.run
  {
    var target := JalrTarget(s.regs[ins.rs1], ins.imm);
    var linked := if ins.rd != 0 then s.regs[ins.rd := NextPc(s.pc)] else s.regs;
    s.(regs := linked, pc := Redirect(target))
  }

  /**
   * The bytes a load or store of this width touches at its effective
   * address lie in memory. An access of width 0 touches no byte, so any
   * address will do.
   */
  predicate InBounds(regs: seq<bv32>, mem: seq<bv8>, ins: Instruction, width: nat)
    requires |regs| == NREGS
  {
    width == 0 || Fits(regs, mem, ins, width)
  }

  /** The `width` bytes from the effective address on lie in memory. */
  predicate Fits(regs: seq<bv32>, mem: seq<bv8>, ins: Instruction, width: nat)
    requires |regs| == NREGS
  {
    EffectiveAddress(regs[ins.rs1], ins.imm) as int + width <= |mem|
  }

  /** Funct3 3, 6 and 7 fall through the switch of `load_exec`: no byte is read and rd is not written. */
  function Load(s: State, ins: Instruction): (r: State)
    requires WellFormed(s) && InBounds(s.regs, s.mem, ins, LoadWidth(ins.funct3))
    ensures Preserved(s, r) && WellFormed(r) && OnlyRd(s, r, ins.rd)
    ensures r.pc == s.pc && r.mem == s.mem && r.run == s.run
  {
    if LoadWidth(ins.funct3) == 0 then s else LoadFrom(s, ins)
  }

  /** The loads that read: rd gets the value read at rs1 + imm. */
  function LoadFrom(s: State, ins: Instruction): (r: State)
    requires WellFormed(s) && Fits(s.regs, s.mem, ins, LoadWidth(ins.funct3))
    ensures Preserved(s, r) && WellFormed(r) && OnlyRd(s, r, ins.rd)
    ensures r.pc == s.pc && r.mem == s.mem && r.run == s.run
  {
    SetReg(s, ins.rd, LoadValue(ins.funct3, s.mem, EffectiveAddress(s.regs[ins.rs1], ins.imm) as int))
  }

  /** Funct3 3 to 7 fall through the switch of `store_exec`: no byte is written. */
  function Store(s: State, ins: Instruction): (r: State)
    requires WellFormed(s) && InBounds(s.regs, s.mem, ins, StoreWidth(ins.funct3))
    ensures Preserved(s, r) && WellFormed(r) && OnlyRd(s, r, ins.rd)
    ensures r.regs == s.regs && r.pc == s.pc && r.run == s.run
  {
    if StoreWidth(ins.funct3) == 0 then s else StoreTo(s, ins)
  }

  /** The stores that write: the low bytes of rs2 go to rs1 + imm onwards. */
  function StoreTo(s: State, ins: Instruction): (r: State)
    requires WellFormed(s) && Fits(s.regs, s.mem, ins, StoreWidth(ins.funct3))
    ensures Preserved(s, r) && WellFormed(r) && OnlyRd(s, r, ins.rd)
    ensures r.regs == s.regs && r.pc == s.pc && r.run == s.run
  {
    s.(mem := Write(s.mem, EffectiveAddress(s.regs[ins.rs1], ins.imm) as int, StoreData(ins.funct3, s.regs[ins.rs2])))
  }

  /** ECALL (imm 0) and EBREAK (imm 1) halt with pc left on the instruction; funct3 is not looked at. */
  function System(s: State, ins: Instruction): (r: State)
    ensures Preserved(s, r) && r.regs == s.regs && r.mem == s.mem
  {
    if ins.imm == 0 || ins.imm == 1 then s.(run := Halted, pc := Redirect(s.pc)) else s
  }

  // ---------------------------------------------------------------------
  // instr_exec

  /** The memory accesses of the instruction stay inside memory. */
  predicate AccessOk(regs: seq<bv32>, mem: seq<bv8>, ins: Instruction)
    requires |regs| == NREGS
  {
    (ins.opcode == 0x03 ==> InBounds(regs, mem, ins, LoadWidth(ins.funct3)))
    && (ins.opcode == 0x23 ==> InBounds(regs, mem, ins, StoreWidth(ins.funct3)))
  }

  /** The handler chosen by the opcode; FENCE and unknown opcodes change nothing. */
  function Dispatch(s: State, ins: Instruction): (r: State)
    requires WellFormed(s) && AccessOk(s.regs, s.mem, ins)
    ensures WellFormed(r) && Preserved(s, r) && OnlyRd(s, r, ins.rd)
  {
    if ins.opcode == 0x33 then RType(s, ins)
    else if ins.opcode == 0x13 then IType(s, ins)
    else if ins.opcode == 0x37 || ins.opcode == 0x17 then UType(s, ins)
    else if ins.opcode == 0x6F then JType(s, ins)
    else if ins.opcode == 0x67 then Jalr(s, ins)
    else if ins.opcode == 0x63 then BType(s, ins)
    else if ins.opcode == 0x03 then Load(s, ins)
    else if ins.opcode == 0x23 then Store(s, ins)
    else if ins.opcode == 0x0F then s
    else if ins.opcode == 0x73 then System(s, ins)
    else s
  }

  /** `instr_exec`: decode, run the handler, then force x0 back to 0. */
  function Execute(s: State, raw: bv32): State
    requires WellFormed(s) && AccessOk(s.regs, s.mem, Decode(raw))
  {
    var t := Dispatch(s, Decode(raw));
    t.(regs := t.regs[0 := 0])
  }

  /** The diagnostic `instr_exec` prints, as a tag; its text is not modelled. */
  datatype Report = Silent | EcallHalt | EbreakHalt | UnknownSystem(imm: bv32) | UnknownOpcode(opcode: bv32)

  function ReportFor(ins: Instruction): Report
  {
    if ins.opcode == 0x73 then
      if ins.imm == 0 then EcallHalt
      else if ins.imm == 1 then EbreakHalt
      else UnknownSystem(ins.imm)
    else if ins.opcode in {0x33, 0x13, 0x37, 0x17, 0x6F, 0x67, 0x63, 0x03, 0x23, 0x0F} then Silent
    else UnknownOpcode(ins.opcode)
  }

  // ---------------------------------------------------------------------
  // cpu_step and cpu_run

  /** The word at pc and the accesses of the instruction it holds are in memory. */
  predicate CanStep(s: State)
  {
    WellFormed(s) && s.pc as int + 4 <= |s.mem| && AccessOk(s.regs, s.mem, Decode(Fetch(s)))
  }

  function Fetch(s: State): bv32
    requires s.pc as int + 4 <= |s.mem|
  {
    Load32(s.mem, s.pc as int)
  }

  /** `cpu_step`: snapshot the registers, fetch, execute, advance pc by 4. The run state is not consulted. */
  function Step(s: State): State
    requires CanStep(s)
  {
    var t := Execute(s.(prev := s.regs), Fetch(s));
    t.(pc := NextPc(t.pc))
  }

  /**
   * Each of the first `n` iterations of the `cpu_run` loop that happens
   * fetches from inside memory and accesses memory only inside it.
   */
  predicate SafeFor(s: State, n: nat)
    decreases n
  {
    n == 0 || s.run == Halted || (CanStep(s) && SafeFor(Step(s), n - 1))
  }

  /** The state after at most `n` iterations of the `cpu_run` loop: it stops early once Halted. */
  function RunFor(s: State, n: nat): State
    requires SafeFor(s, n)
    decreases n
  {
    if n == 0 || s.run == Halted then s else RunFor(Step(s), n - 1)
  }

  /** A halted state is where the loop has exited: more iterations change nothing. */
  lemma RunForHalted(s: State, n: nat)
    requires s.run == Halted
    ensures SafeFor(s, n) && RunFor(s, n) == s
  {
  }

  // ---------------------------------------------------------------------
  // cpu_create and cpu_reset

  function Zeros(n: nat): (z: seq<bv32>)
    ensures |z| == n && forall i :: 0 <= i < n ==> z[i] == 0
  {
    seq(n, _ => 0)
  }

  /** The state `cpu_create` leaves: everything zero and Running; memory as allocated. */
  function Initial(mem: seq<bv8>): State
  {
    State(Zeros(NREGS), Zeros(NREGS), 0, Running, mem, 0, 0)
  }

  /** `cpu_reset`: the initial state again, with the first MEM_SIZE memory bytes cleared. */
  function Reset(s: State): State
    requires |s.mem| >= MEM_SIZE
  {
    Initial(seq(MEM_SIZE, _ => 0 as bv8) + s.mem[MEM_SIZE..])
  }
}

