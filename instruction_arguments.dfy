/** The decoded-argument records of the 32-bit instruction formats
    (src/instruction_types_arguments.h).  Each datatype keeps the record's
    fields in declaration order; the C++ member-initialiser constructors, whose
    parameter order differs from the field order, are the Make... functions. */
module InstructionArguments {
  import opened ShiftTypes

  datatype DataProcessingArguments = DataProcessingArguments(
    S: bool,             // status bit: the instruction updates the CPSR
    Rn: bv32,
    Rd: bv32,
    shiftedValue: bv32,
    shiftValue: bv32,
    shiftType: ShiftType)

  /** DataProcessingArguments(S, _Rd, _Rn, ...) takes Rd before Rn, while the
      fields declare Rn before Rd; each parameter still lands in the field of
      its own name. */
  function MakeDataProcessingArguments(S: bool, rd: bv32, rn: bv32, shiftedValue: bv32,
                                       shiftValue: bv32, shiftType: ShiftType)
    : (a: DataProcessingArguments)
    ensures a.S == S && a.Rd == rd && a.Rn == rn
    ensures a.shiftedValue == shiftedValue && a.shiftValue == shiftValue && a.shiftType == shiftType
  {
    DataProcessingArguments(S, rn, rd, shiftedValue, shiftValue, shiftType)
  }

  datatype MultiplyArguments = MultiplyArguments(
    A: bool,             // accumulate bit
    S: bool,             // status bit
    Rd: bv32,
    Rn: bv32,
    Rs: bv32,
    Rm: bv32)

  /** MultiplyArguments(_S, _A, ...) takes S before A, while the fields declare
      A before S; each flag still lands in the field of its own name. */
  function MakeMultiplyArguments(S: bool, A: bool, rd: bv32, rn: bv32, rs: bv32, rm: bv32)
    : (a: MultiplyArguments)
    ensures a.S == S && a.A == A
    ensures a.Rd == rd && a.Rn == rn && a.Rs == rs && a.Rm == rm
  {
    MultiplyArguments(A, S, rd, rn, rs, rm)
  }

  datatype MultiplyLongArguments = MultiplyLongArguments(
    U: bool,             // unsigned bit
    A: bool,             // accumulate bit
    S: bool,             // status bit
    RdHi: bv32,
    RdLo: bv32,
    Rm: bv32,
    Rs: bv32)

  datatype SingleDataTransferArguments = SingleDataTransferArguments(
    I: bool,             // immediate offset bit
    P: bool,             // pre/post indexing bit
    U: bool,             // up/down bit
    B: bool,             // byte/word bit
    W: bool,             // write-back bit
    L: bool,             // load/store bit
    Rn: bv32,
    Rd: bv32,
    offset: bv32)

  datatype HalfWordAndSignedDataTransferArguments = HalfWordAndSignedDataTransferArguments(
    P: bool,             // pre/post indexing bit
    U: bool,             // up/down bit
    W: bool,             // write-back bit
    L: bool,             // load/store bit
    S: bool,             // sign bit
    H: bool,             // halfword/signed data bit
    Rn: bv32,
    Rd: bv32,
    offset: bv32)

  /** The nine-parameter constructor copies each parameter to its own field. */
  function MakeHalfWordAndSignedDataTransferArguments(P: bool, U: bool, W: bool, L: bool,
                                                      S: bool, H: bool, rn: bv32, rd: bv32,
                                                      offset: bv32)
    : (a: HalfWordAndSignedDataTransferArguments)
    ensures a.P == P && a.U == U && a.W == W && a.L == L && a.S == S && a.H == H
    ensures a.Rn == rn && a.Rd == rd && a.offset == offset
  {
    HalfWordAndSignedDataTransferArguments(P, U, W, L, S, H, rn, rd, offset)
  }

  datatype BlockDataTransferArguments = BlockDataTransferArguments(
    P: bool,             // pre/post indexing bit
    U: bool,             // up/down bit
    S: bool,             // PSR and force-user bit
    W: bool,             // write-back bit
    L: bool,             // load/store bit
    Rn: bv32,            // base register
    registers: bv32)     // register list bitfield

  /** The seven-parameter constructor copies each parameter to its own field. */
  function MakeBlockDataTransferArguments(P: bool, U: bool, S: bool, W: bool, L: bool,
                                          rn: bv32, registers: bv32)
    : (a: BlockDataTransferArguments)
    ensures a.P == P && a.U == U && a.S == S && a.W == W && a.L == L
    ensures a.Rn == rn && a.registers == registers
  {
    BlockDataTransferArguments(P, U, S, W, L, rn, registers)
  }

  datatype SingleDataSwapArguments = SingleDataSwapArguments(Rn: bv32, Rd: bv32)

  datatype CoprocessorDataOperationsArguments = CoprocessorDataOperationsArguments(
    CP_opc: bv32,
    CRn: bv32,
    CRd: bv32,
    CP_num: bv32,
    CP_inf: bv32,
    C_Rm: bv32)

  datatype CoprocessorDataTransfersArguments = CoprocessorDataTransfersArguments(
    P: bool,             // pre/post indexing bit
    U: bool,             // up/down bit
    N: bool,             // transfer length bit
    W: bool,             // write-back bit
    L: bool,             // load/store bit
    Rn: bv32,
    CRd: bv32,
    CP_num: bv32,
    Offset: bv32)

  datatype CoprocessorRegisterTransfersArguments = CoprocessorRegisterTransfersArguments(
    CP_opc: bv32,
    L: bool,             // load/store bit
    C_Rn: bv32,
    Rd: bv32,
    CP_num: bv32,
    CP_inf: bv32,
    C_Rm: bv32)

  /** Swapping the register arguments of the data-processing constructor swaps
      the fields, so the constructor distinguishes its Rd and Rn parameters. */
  lemma DataProcessingArgumentOrder(S: bool, x: bv32, y: bv32, v: bv32, n: bv32, t: ShiftType)
    requires x != y
    ensures MakeDataProcessingArguments(S, x, y, v, n, t) != MakeDataProcessingArguments(S, y, x, v, n, t)
    ensures MakeDataProcessingArguments(S, x, y, v, n, t) != DataProcessingArguments(S, x, y, v, n, t)
  {
  }

  /** Likewise the multiply constructor distinguishes its S and A parameters. */
  lemma MultiplyArgumentOrder(S: bool, A: bool, rd: bv32, rn: bv32, rs: bv32, rm: bv32)
    requires S != A
    ensures MakeMultiplyArguments(S, A, rd, rn, rs, rm) != MakeMultiplyArguments(A, S, rd, rn, rs, rm)
    ensures MakeMultiplyArguments(S, A, rd, rn, rs, rm) != MultiplyArguments(S, A, rd, rn, rs, rm)
  {
  }
}
