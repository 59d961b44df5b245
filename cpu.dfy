/** The CPU of src/cpu.h and src/cpu.cpp: sixteen 32-bit registers, zeroed on
    construction, and the half-written opcode extractor decodeArm.  Beside them
    the class holds the state the software-interrupt scenario of
    src/tests/test_software_interrupt.cpp observes: the CPSR with its mode
    field, the Supervisor-bank LR and the Supervisor SPSR. */
module Cpu {
  import opened Wrappers
  import opened Opcodes

  /** cpu.cpp decodeArm: for a word whose bits 27:25 are 001 (data processing
      with an immediate operand) the opcode in bits 24:21.  The condition field
      is extracted but unused; for other values of bits 27:25 the C++ function
      reaches its end without a return, so those words are excluded. */
  function DecodeArmOpcode(word: bv32): (op: Opcode)
    requires (word >> 25) & 0x7 == 1
    ensures Encode(op) as bv32 == (word >> 21) & 0xF
  {
    Decode(((word >> 21) & 0xF) as bv4)
  }

  /** The condition field, bits 31:28, never affects the opcode returned. */
  lemma DecodeArmOpcodeIgnoresCondition(w: bv32, v: bv32)
    requires (w >> 25) & 0x7 == 1
    requires w & 0x0FFF_FFFF == v & 0x0FFF_FFFF
    ensures (v >> 25) & 0x7 == 1
    ensures DecodeArmOpcode(w) == DecodeArmOpcode(v)
  {
    EncodeInjective(DecodeArmOpcode(w), DecodeArmOpcode(v));
  }

  /** The processor modes of the ARM7TDMI. */
  datatype Mode = User | FastInterrupt | Interrupt | Supervisor | Abort | Undefined | System

  /** The mode field, bits 4:0 of a status register, with the values of the
      PSR mode-bit table in section 3.8 of the ARM7TDMI Data Sheet (ARM DDI
      0029E); the source names the modes but not their encodings.  Bit 4 is set
      in every one of them: these are the 32-bit modes. */
  function ModeBits(m: Mode): (b: bv5)
    ensures b & 0x10 == 0x10
  {
    match m
    case User => 0x10
    case FastInterrupt => 0x11
    case Interrupt => 0x12
    case Supervisor => 0x13
    case Abort => 0x17
    case Undefined => 0x1B
    case System => 0x1F
  }

  /** The mode a 5-bit mode field names, if it names one. */
  function ModeOf(b: bv5): (r: Option<Mode>)
    ensures r.Some? ==> ModeBits(r.value) == b
    ensures r.None? ==> forall m: Mode :: ModeBits(m) != b
  {
    if b == 0x10 then Some(User)
    else if b == 0x11 then Some(FastInterrupt)
    else if b == 0x12 then Some(Interrupt)
    else if b == 0x13 then Some(Supervisor)
    else if b == 0x17 then Some(Abort)
    else if b == 0x1B then Some(Undefined)
    else if b == 0x1F then Some(System)
    else None
  }

  /** Reading back a mode's field gives the mode. */
  lemma ModeRoundTrip(m: Mode)
    ensures ModeOf(ModeBits(m)) == Some(m)
  {
  }

  /** Distinct modes have distinct mode fields. */
  lemma ModeBitsInjective(a: Mode, b: Mode)
    ensures ModeBits(a) == ModeBits(b) ==> a == b
  {
  }

  /** The mode field of a status register: the mode whose encoding is bits 4:0,
      if there is one; the other 27 bits play no part. */
  function StatusMode(psr: bv32): (r: Option<Mode>)
    ensures r.Some? ==> ModeBits(r.value) as bv32 == psr & 0x1F
    ensures r.None? ==> forall m: Mode :: ModeBits(m) as bv32 != psr & 0x1F
  {
    ModeOf((psr & 0x1F) as bv5)
  }

  /** The status register `psr` with its mode field set to `m`. */
  function WithMode(psr: bv32, m: Mode): (r: bv32)
    ensures StatusMode(r) == Some(m)
    ensures r & 0xFFFF_FFE0 == psr & 0xFFFF_FFE0
  {
    ModeRoundTrip(m);
    (psr & 0xFFFF_FFE0) | (ModeBits(m) as bv32)
  }

  /** MOV{S} PC, LR: data processing, register operand, opcode MOV, Rn = 0,
      Rd = 15, operand R14 unshifted; any condition, either S. */
  predicate IsMovPcLr(w: bv32) { w & 0x0FEF_FFFF == 0x01A0_F00E }

  /** The S bit, bit 20, of a data-processing word. */
  predicate SetsStatus(w: bv32) { w & 0x0010_0000 != 0 }

  /** Whether a data-processing handler ran the instruction or the instruction
      lies outside what this model covers. */
  datatype Outcome = Executed | NotModelled

  const SoftwareInterruptVector: bv32 := 0x08

  class CPU {
    var registers: array<bv32>
    var cpsr: bv32
    var lrSvc: bv32     // R14_svc
    var spsrSvc: bv32   // SPSR_svc

    ghost predicate Valid()
      reads this
    {
      registers.Length == 16
    }

    /** CPU::CPU: all sixteen registers are zero. */
    constructor ()
      ensures Valid() && fresh(registers)
      ensures forall i :: 0 <= i < 16 ==> registers[i] == 0
      ensures cpsr == 0 && lrSvc == 0 && spsrSvc == 0
    {
      registers := new bv32[16](_ => 0);
      cpsr, lrSvc, spsrSvc := 0, 0, 0;
    }

    /** R15, the program counter. */
    function PC(): bv32
      reads this, registers
      requires Valid()
    {
      registers[15]
    }

    function GetMode(): Option<Mode>
      reads this
    {
      StatusMode(cpsr)
    }

    /** LR(mode): the R14 of the given mode's bank, where this model keeps one:
        R14 for User and System mode, which share it, and R14_svc for
        Supervisor mode. */
    function LinkRegister(m: Mode): Option<bv32>
      reads this, registers
      requires Valid()
    {
      match m
      case User => Some(registers[14])
      case System => Some(registers[14])
      case Supervisor => Some(lrSvc)
      case _ => None
    }

    /** The LR of the current mode, if the mode field names a mode. */
    function CurrentLinkRegister(): Option<bv32>
      reads this, registers
      requires Valid()
    {
      match GetMode()
      case Some(m) => LinkRegister(m)
      case None => None
    }

    /** setMode: replaces the mode field of the CPSR and nothing else. */
    method SetMode(m: Mode)
      requires Valid()
      modifies this`cpsr
      ensures Valid()
      ensures GetMode() == Some(m)
      ensures cpsr == WithMode(old(cpsr), m)
    {
      cpsr := WithMode(cpsr, m);
    }

    /** Assignment through PC(). */
    method SetPC(value: bv32)
      requires Valid()
      modifies registers
      ensures Valid()
      ensures PC() == value
      ensures forall i :: 0 <= i < 15 ==> registers[i] == old(registers[i])
    {
      registers[15] := value;
    }

    /** callSoftwareInterruptInstruction: entry to Supervisor mode.  LR_svc
        receives the address after the SWI, SPSR_svc the CPSR, the mode field
        becomes Supervisor and PC the software-interrupt vector.  The comment
        field of the word is ignored. */
    method CallSoftwareInterruptInstruction(instruction: bv32, pc: bv32)
      requires Valid()
      modifies this`cpsr, this`lrSvc, this`spsrSvc, registers
      ensures Valid()
      ensures LinkRegister(Supervisor) == Some(pc + 4)
      ensures forall m :: m != Supervisor ==> LinkRegister(m) == old(LinkRegister(m))
      ensures spsrSvc == old(cpsr)
      ensures cpsr == WithMode(old(cpsr), Supervisor)
      ensures GetMode() == Some(Supervisor)
      ensures PC() == SoftwareInterruptVector
      ensures forall i :: 0 <= i < 15 ==> registers[i] == old(registers[i])
    {
      lrSvc := pc + 4;
      spsrSvc := cpsr;
      cpsr := WithMode(cpsr, Supervisor);
      registers[15] := SoftwareInterruptVector;
    }

    /** callDataProcessingInstruction, for MOV{S} PC, LR: PC receives the LR of
        the current mode; with S set, in Supervisor mode, the CPSR is restored
        from SPSR_svc, which also restores the mode.  Any other word, and a
        mode whose bank is not modelled, leaves the state unchanged and
        reports NotModelled. */
    method CallDataProcessingInstruction(instruction: bv32, pc: bv32) returns (outcome: Outcome)
      requires Valid()
      modifies this`cpsr, registers
      ensures Valid()
      ensures outcome == Executed <==>
        IsMovPcLr(instruction)
        && (if SetsStatus(instruction) then old(GetMode()) == Some(Supervisor)
            else old(CurrentLinkRegister()).Some?)
      ensures outcome == Executed ==>
        PC() == old(CurrentLinkRegister()).value
        && cpsr == (if SetsStatus(instruction) then old(spsrSvc) else old(cpsr))
      ensures outcome == NotModelled ==> PC() == old(PC()) && cpsr == old(cpsr)
      ensures forall i :: 0 <= i < 15 ==> registers[i] == old(registers[i])
    {
      var lr := CurrentLinkRegister();
      if !IsMovPcLr(instruction) || lr.None? {
        return NotModelled;
      }
      if SetsStatus(instruction) {
        if GetMode() != Some(Supervisor) {
          return NotModelled;
        }
        registers[15] := lrSvc;
        cpsr := spsrSvc;
      } else {
        registers[15] := lr.value;
      }
      outcome := Executed;
    }
  }

  /** A software interrupt followed by MOVS PC, LR returns, from any state, to
      the address after the SWI with the CPSR, and so the mode, exactly as it
      was before the SWI. */
  method SoftwareInterruptRoundTrip(cpu: CPU, pc: bv32) returns (outcome: Outcome)
    requires cpu.Valid()
    modifies cpu, cpu.registers
    ensures cpu.Valid()
    ensures cpu.registers == old(cpu.registers)
    ensures outcome == Executed
    ensures cpu.PC() == pc + 4
    ensures cpu.cpsr == old(cpu.cpsr) && cpu.GetMode() == old(cpu.GetMode())
    ensures cpu.LinkRegister(Supervisor) == Some(pc + 4) && cpu.spsrSvc == old(cpu.cpsr)
    ensures forall i :: 0 <= i < 15 ==> cpu.registers[i] == old(cpu.registers[i])
  {
    cpu.CallSoftwareInterruptInstruction(0xEF00_0000, pc);
    outcome := cpu.CallDataProcessingInstruction(0xE1B0_F00E, cpu.PC());
  }

  /** The scenario of the software-interrupt test: in User mode at PC = 0, SWI
      0xEF000000 enters Supervisor mode at 0x08 with LR_svc = 0x04; MOVS PC, LR
      (0xE1B0F00E) then returns to 0x04 in User mode with the CPSR captured
      before the SWI. */
  method SoftwareInterruptScenario()
    returns (modeAfterSwi: Option<Mode>, pcAfterSwi: bv32, lrSvcAfterSwi: Option<bv32>,
             pcAfterReturn: bv32, modeAfterReturn: Option<Mode>,
             cpsrBefore: bv32, cpsrAfter: bv32)
    ensures modeAfterSwi == Some(Supervisor)
    ensures pcAfterSwi == 0x08
    ensures lrSvcAfterSwi == Some(0x04)
    ensures pcAfterReturn == 0x04
    ensures modeAfterReturn == Some(User)
    ensures cpsrAfter == cpsrBefore
  {
    var cpu := new CPU();
    cpu.SetMode(User);
    cpu.SetPC(0);
    cpsrBefore := cpu.cpsr;
    cpu.CallSoftwareInterruptInstruction(0xEF00_0000, cpu.PC());
    modeAfterSwi, pcAfterSwi, lrSvcAfterSwi := cpu.GetMode(), cpu.PC(), cpu.LinkRegister(Supervisor);
    var _ := cpu.CallDataProcessingInstruction(0xE1B0_F00E, cpu.PC());
    pcAfterReturn, modeAfterReturn, cpsrAfter := cpu.PC(), cpu.GetMode(), cpu.cpsr;
  }
}
