/** Classification of a 32-bit ARM instruction word into its instruction format.
    The classifier is fixed by the table of src/tests/test_data_processing.cpp;
    its bit masks are those of the instruction-set summary (section 4.1) of the
    ARM7TDMI Data Sheet, ARM DDI 0029E.  Bits 31:28, the condition field, are
    never examined. */
module ArmDecoder {
  import opened InstructionTypes

  // One predicate per format of the instruction-set summary.

  /** BX: cond 0001 0010 1111 1111 1111 0001 Rn */
  predicate IsBranchAndExchangeWord(w: bv32) { w & 0x0FFF_FFF0 == 0x012F_FF10 }
  /** LDM/STM: cond 100 P U S W L Rn list */
  predicate IsBlockDataTransferWord(w: bv32) { w & 0x0E00_0000 == 0x0800_0000 }
  /** B/BL: cond 101 L offset */
  predicate IsBranchWord(w: bv32) { w & 0x0E00_0000 == 0x0A00_0000 }
  /** SWI: cond 1111 comment */
  predicate IsSoftwareInterruptWord(w: bv32) { w & 0x0F00_0000 == 0x0F00_0000 }
  /** The undefined-instruction space: cond 011 x..x 1 xxxx */
  predicate IsUndefinedWord(w: bv32) { w & 0x0E00_0010 == 0x0600_0010 }
  /** LDR/STR: cond 01 I P U B W L Rn Rd offset */
  predicate IsSingleDataTransferWord(w: bv32) { w & 0x0C00_0000 == 0x0400_0000 }
  /** SWP: cond 00010 B 00 Rn Rd 0000 1001 Rm */
  predicate IsSingleDataSwapWord(w: bv32) { w & 0x0FB0_0FF0 == 0x0100_0090 }
  /** MUL/MLA: cond 000000 A S Rd Rn Rs 1001 Rm */
  predicate IsMultiplyWord(w: bv32) { w & 0x0FC0_00F0 == 0x0000_0090 }
  /** MULL/MLAL: cond 00001 U A S RdHi RdLo Rs 1001 Rm */
  predicate IsMultiplyLongWord(w: bv32) { w & 0x0F80_00F0 == 0x0080_0090 }
  /** Bits 6:5 (S, H) of a halfword transfer are not both zero; SH = 00 is the
      swap and multiply space. */
  predicate HasHalfwordKind(w: bv32) { w & 0x60 != 0 }
  /** LDRH/STRH/LDRSB/LDRSH, register offset: cond 000 P U 0 W L Rn Rd 0000 1 S H 1 Rm */
  predicate IsHalfwordRegisterWord(w: bv32) { w & 0x0E40_0F90 == 0x0000_0090 && HasHalfwordKind(w) }
  /** The same, immediate offset: cond 000 P U 1 W L Rn Rd offset 1 S H 1 offset */
  predicate IsHalfwordImmediateWord(w: bv32) { w & 0x0E40_0090 == 0x0040_0090 && HasHalfwordKind(w) }
  /** MRS: cond 00010 Ps 001111 Rd 0000 0000 0000 */
  predicate IsMrsWord(w: bv32) { w & 0x0FBF_0FFF == 0x010F_0000 }
  /** MSR to the whole PSR: cond 00010 Pd 10 1001 1111 0000 0000 Rm */
  predicate IsMsrRegisterWord(w: bv32) { w & 0x0FBF_FFF0 == 0x0129_F000 }
  /** MSR to the flag bits only: cond 00 I 10 Pd 10 1000 1111 source */
  predicate IsMsrFlagsWord(w: bv32) { w & 0x0DBF_F000 == 0x0128_F000 }
  /** The data-processing space: cond 00 I opcode S Rn Rd operand2 */
  predicate IsDataProcessingSpace(w: bv32) { w & 0x0C00_0000 == 0 }
  /** LDC/STC: cond 110 P U N W L Rn CRd CP# offset */
  predicate IsCoprocessorDataTransferWord(w: bv32) { w & 0x0E00_0000 == 0x0C00_0000 }
  /** CDP: cond 1110 CP_opc CRn CRd CP# CP 0 CRm */
  predicate IsCoprocessorDataOperationWord(w: bv32) { w & 0x0F00_0010 == 0x0E00_0000 }
  /** MRC/MCR: cond 1110 CP_opc L CRn Rd CP# CP 1 CRm */
  predicate IsCoprocessorRegisterTransferWord(w: bv32) { w & 0x0F00_0010 == 0x0E00_0010 }

  /** The words of the data-processing space that belong to another format. */
  predicate IsOtherFormatInDataProcessingSpace(w: bv32) {
    IsBranchAndExchangeWord(w) || IsSingleDataSwapWord(w) || IsMultiplyWord(w)
    || IsMultiplyLongWord(w) || IsHalfwordRegisterWord(w) || IsHalfwordImmediateWord(w)
    || IsMrsWord(w) || IsMsrRegisterWord(w) || IsMsrFlagsWord(w)
  }

  /** decodeArm: the first format, in this order, whose mask matches. */
  function DecodeArm(w: bv32): InstructionType {
    if IsBranchAndExchangeWord(w) then BranchAndExchange
    else if IsBlockDataTransferWord(w) then BlockDataTransfer
    else if IsBranchWord(w) then Branch
    else if IsSoftwareInterruptWord(w) then InstructionType.SoftwareInterrupt
    else if IsUndefinedWord(w) then InstructionType.Undefined
    else if IsSingleDataTransferWord(w) then SingleDataTransfer
    else if IsSingleDataSwapWord(w) then SingleDataSwap
    else if IsMultiplyWord(w) then Multiply
    else if IsMultiplyLongWord(w) then MultiplyLong
    else if IsHalfwordRegisterWord(w) then HalfwordDataTransferRegister
    else if IsHalfwordImmediateWord(w) then HalfwordDataTransferImmediate
    else if IsMrsWord(w) then ProgramStatusRegisterTransferOut
    else if IsMsrRegisterWord(w) || IsMsrFlagsWord(w) then ProgramStatusRegisterTransferIn
    else if IsDataProcessingSpace(w) then DataProcessing
    else if IsCoprocessorDataTransferWord(w) then CoprocessorDataTransfer
    else if IsCoprocessorDataOperationWord(w) then CoprocessorDataOperation
    else if IsCoprocessorRegisterTransferWord(w) then CoprocessorRegisterTransfer
    else InstructionType.Undefined
  }

  // The (word, expected type) pairs of the classifier test, in its order,
  // in eight parts of eight rows so that each part is checked on its own.

  const ArmTestCasesPart0: seq<(bv32, InstructionType)> := [
    (0x00000000, DataProcessing),
    (0xF3FFFFFF, DataProcessing),
    (0x010F0000, ProgramStatusRegisterTransferOut),
    (0x014F0000, ProgramStatusRegisterTransferOut),
    (0xF10F0000, ProgramStatusRegisterTransferOut),
    (0xF10FF000, ProgramStatusRegisterTransferOut),
    (0xF14F0000, ProgramStatusRegisterTransferOut),
    (0xF14FF000, ProgramStatusRegisterTransferOut)
  ]

  const ArmTestCasesPart1: seq<(bv32, InstructionType)> := [
    (0x0129F000, ProgramStatusRegisterTransferIn),
    (0x0129F00F, ProgramStatusRegisterTransferIn),
    (0x0169F000, ProgramStatusRegisterTransferIn),
    (0x0169F00F, ProgramStatusRegisterTransferIn),
    (0xF129F000, ProgramStatusRegisterTransferIn),
    (0xF129F00F, ProgramStatusRegisterTransferIn),
    (0xF169F000, ProgramStatusRegisterTransferIn),
    (0xF169F00F, ProgramStatusRegisterTransferIn)
  ]

  const ArmTestCasesPart2: seq<(bv32, InstructionType)> := [
    (0x0128F000, ProgramStatusRegisterTransferIn),
    (0x0128FFFF, ProgramStatusRegisterTransferIn),
    (0x0168F000, ProgramStatusRegisterTransferIn),
    (0x0328F000, ProgramStatusRegisterTransferIn),
    (0x0328FFFF, ProgramStatusRegisterTransferIn),
    (0x0368F000, ProgramStatusRegisterTransferIn),
    (0x0368FFFF, ProgramStatusRegisterTransferIn),
    (0x00000090, Multiply)
  ]

  const ArmTestCasesPart3: seq<(bv32, InstructionType)> := [
    (0xF03FFF9F, Multiply),
    (0x00800090, MultiplyLong),
    (0xF0FFFF9F, MultiplyLong),
    (0x01000090, SingleDataSwap),
    (0xF14FF09F, SingleDataSwap),
    (0x012FFF10, BranchAndExchange),
    (0xF12FFF1F, BranchAndExchange),
    (0x000000B0, HalfwordDataTransferRegister)
  ]

  const ArmTestCasesPart4: seq<(bv32, InstructionType)> := [
    (0x000000D0, HalfwordDataTransferRegister),
    (0x000000F0, HalfwordDataTransferRegister),
    (0xF1BFF0BF, HalfwordDataTransferRegister),
    (0xF1BFF0DF, HalfwordDataTransferRegister),
    (0xF1BFF0FF, HalfwordDataTransferRegister),
    (0x004000B0, HalfwordDataTransferImmediate),
    (0x004000D0, HalfwordDataTransferImmediate),
    (0x004000F0, HalfwordDataTransferImmediate)
  ]

  const ArmTestCasesPart5: seq<(bv32, InstructionType)> := [
    (0xF1FFFFBF, HalfwordDataTransferImmediate),
    (0xF1FFFFDF, HalfwordDataTransferImmediate),
    (0xF1FFFFFF, HalfwordDataTransferImmediate),
    (0x04000000, SingleDataTransfer),
    (0x04000010, SingleDataTransfer),
    (0x05000000, SingleDataTransfer),
    (0x05000010, SingleDataTransfer),
    (0x06000000, SingleDataTransfer)
  ]

  const ArmTestCasesPart6: seq<(bv32, InstructionType)> := [
    (0x07000000, SingleDataTransfer),
    (0xF7FFFFEF, SingleDataTransfer),
    (0x08000000, BlockDataTransfer),
    (0xF9FFFFFF, BlockDataTransfer),
    (0x0A000000, Branch),
    (0xFBFFFFFF, Branch),
    (0x0C000000, CoprocessorDataTransfer),
    (0xFDFFFFFF, CoprocessorDataTransfer)
  ]

  const ArmTestCasesPart7: seq<(bv32, InstructionType)> := [
    (0x0E000000, CoprocessorDataOperation),
    (0xFEFFFFEF, CoprocessorDataOperation),
    (0x0E000010, CoprocessorRegisterTransfer),
    (0xFEFFFFFF, CoprocessorRegisterTransfer),
    (0x0F000000, InstructionType.SoftwareInterrupt),
    (0xFFFFFFFF, InstructionType.SoftwareInterrupt),
    (0x06000010, InstructionType.Undefined),
    (0xF7FFFFFF, InstructionType.Undefined)
  ]

  const ArmTestCases: seq<(bv32, InstructionType)> :=
    ArmTestCasesPart0 + ArmTestCasesPart1 + ArmTestCasesPart2 + ArmTestCasesPart3
    + ArmTestCasesPart4 + ArmTestCasesPart5 + ArmTestCasesPart6 + ArmTestCasesPart7

  /** Every row of `rows` is classified as it expects. */
  predicate RowsClassified(rows: seq<(bv32, InstructionType)>) {
    forall row :: row in rows ==> DecodeArm(row.0) == row.1
  }

  lemma ArmTestCasesPart0Classified()
    ensures RowsClassified(ArmTestCasesPart0)
  {
    assert DecodeArm(0x00000000) == DataProcessing;
    assert DecodeArm(0xF3FFFFFF) == DataProcessing;
    assert DecodeArm(0x010F0000) == ProgramStatusRegisterTransferOut;
    assert DecodeArm(0x014F0000) == ProgramStatusRegisterTransferOut;
    assert DecodeArm(0xF10F0000) == ProgramStatusRegisterTransferOut;
    assert DecodeArm(0xF10FF000) == ProgramStatusRegisterTransferOut;
    assert DecodeArm(0xF14F0000) == ProgramStatusRegisterTransferOut;
    assert DecodeArm(0xF14FF000) == ProgramStatusRegisterTransferOut;
  }

  lemma ArmTestCasesPart1Classified()
    ensures RowsClassified(ArmTestCasesPart1)
  {
    assert DecodeArm(0x0129F000) == ProgramStatusRegisterTransferIn;
    assert DecodeArm(0x0129F00F) == ProgramStatusRegisterTransferIn;
    assert DecodeArm(0x0169F000) == ProgramStatusRegisterTransferIn;
    assert DecodeArm(0x0169F00F) == ProgramStatusRegisterTransferIn;
    assert DecodeArm(0xF129F000) == ProgramStatusRegisterTransferIn;
    assert DecodeArm(0xF129F00F) == ProgramStatusRegisterTransferIn;
    assert DecodeArm(0xF169F000) == ProgramStatusRegisterTransferIn;
    assert DecodeArm(0xF169F00F) == ProgramStatusRegisterTransferIn;
  }

  lemma ArmTestCasesPart2Classified()
    ensures RowsClassified(ArmTestCasesPart2)
  {
    assert DecodeArm(0x0128F000) == ProgramStatusRegisterTransferIn;
    assert DecodeArm(0x0128FFFF) == ProgramStatusRegisterTransferIn;
    assert DecodeArm(0x0168F000) == ProgramStatusRegisterTransferIn;
    assert DecodeArm(0x0328F000) == ProgramStatusRegisterTransferIn;
    assert DecodeArm(0x0328FFFF) == ProgramStatusRegisterTransferIn;
    assert DecodeArm(0x0368F000) == ProgramStatusRegisterTransferIn;
    assert DecodeArm(0x0368FFFF) == ProgramStatusRegisterTransferIn;
    assert DecodeArm(0x00000090) == Multiply;
  }

  lemma ArmTestCasesPart3Classified()
    ensures RowsClassified(ArmTestCasesPart3)
  {
    assert DecodeArm(0xF03FFF9F) == Multiply;
    assert DecodeArm(0x00800090) == MultiplyLong;
    assert DecodeArm(0xF0FFFF9F) == MultiplyLong;
    assert DecodeArm(0x01000090) == SingleDataSwap;
    assert DecodeArm(0xF14FF09F) == SingleDataSwap;
    assert DecodeArm(0x012FFF10) == BranchAndExchange;
    assert DecodeArm(0xF12FFF1F) == BranchAndExchange;
    assert DecodeArm(0x000000B0) == HalfwordDataTransferRegister;
  }

  lemma ArmTestCasesPart4Classified()
    ensures RowsClassified(ArmTestCasesPart4)
  {
    assert DecodeArm(0x000000D0) == HalfwordDataTransferRegister;
    assert DecodeArm(0x000000F0) == HalfwordDataTransferRegister;
    assert DecodeArm(0xF1BFF0BF) == HalfwordDataTransferRegister;
    assert DecodeArm(0xF1BFF0DF) == HalfwordDataTransferRegister;
    assert DecodeArm(0xF1BFF0FF) == HalfwordDataTransferRegister;
    assert DecodeArm(0x004000B0) == HalfwordDataTransferImmediate;
    assert DecodeArm(0x004000D0) == HalfwordDataTransferImmediate;
    assert DecodeArm(0x004000F0) == HalfwordDataTransferImmediate;
  }

  lemma ArmTestCasesPart5Classified()
    ensures RowsClassified(ArmTestCasesPart5)
  {
    assert DecodeArm(0xF1FFFFBF) == HalfwordDataTransferImmediate;
    assert DecodeArm(0xF1FFFFDF) == HalfwordDataTransferImmediate;
    assert DecodeArm(0xF1FFFFFF) == HalfwordDataTransferImmediate;
    assert DecodeArm(0x04000000) == SingleDataTransfer;
    assert DecodeArm(0x04000010) == SingleDataTransfer;
    assert DecodeArm(0x05000000) == SingleDataTransfer;
    assert DecodeArm(0x05000010) == SingleDataTransfer;
    assert DecodeArm(0x06000000) == SingleDataTransfer;
  }

  lemma ArmTestCasesPart6Classified()
    ensures RowsClassified(ArmTestCasesPart6)
  {
    assert DecodeArm(0x07000000) == SingleDataTransfer;
    assert DecodeArm(0xF7FFFFEF) == SingleDataTransfer;
    assert DecodeArm(0x08000000) == BlockDataTransfer;
    assert DecodeArm(0xF9FFFFFF) == BlockDataTransfer;
    assert DecodeArm(0x0A000000) == Branch;
    assert DecodeArm(0xFBFFFFFF) == Branch;
    assert DecodeArm(0x0C000000) == CoprocessorDataTransfer;
    assert DecodeArm(0xFDFFFFFF) == CoprocessorDataTransfer;
  }

  lemma ArmTestCasesPart7Classified()
    ensures RowsClassified(ArmTestCasesPart7)
  {
    assert DecodeArm(0x0E000000) == CoprocessorDataOperation;
    assert DecodeArm(0xFEFFFFEF) == CoprocessorDataOperation;
    assert DecodeArm(0x0E000010) == CoprocessorRegisterTransfer;
    assert DecodeArm(0xFEFFFFFF) == CoprocessorRegisterTransfer;
    assert DecodeArm(0x0F000000) == InstructionType.SoftwareInterrupt;
    assert DecodeArm(0xFFFFFFFF) == InstructionType.SoftwareInterrupt;
    assert DecodeArm(0x06000010) == InstructionType.Undefined;
    assert DecodeArm(0xF7FFFFFF) == InstructionType.Undefined;
  }

  /** Every row of the classifier test holds, for condition field 0x0 and 0xF alike. */
  lemma ArmTestCasesClassified()
    ensures |ArmTestCases| == 64
    ensures forall i :: 0 <= i < |ArmTestCases| ==> DecodeArm(ArmTestCases[i].0) == ArmTestCases[i].1
  {
    ArmTestCasesPart0Classified();
    ArmTestCasesPart1Classified();
    ArmTestCasesPart2Classified();
    ArmTestCasesPart3Classified();
    ArmTestCasesPart4Classified();
    ArmTestCasesPart5Classified();
    ArmTestCasesPart6Classified();
    ArmTestCasesPart7Classified();
    assert RowsClassified(ArmTestCases);
  }

  // Properties of the classifier over all words.

  /** The condition field, bits 31:28, never affects the classification. */
  lemma DecodeArmIgnoresCondition(w: bv32, cond: bv4)
    ensures DecodeArm((w & 0x0FFF_FFFF) | ((cond as bv32) << 28)) == DecodeArm(w)
  {
  }

  /** Bits 27:25 = 011 with bit 4 set is Undefined; with bit 4 clear it is a
      single data transfer; no other word is Undefined. */
  lemma UndefinedExactly(w: bv32)
    ensures DecodeArm(w) == InstructionType.Undefined <==> IsUndefinedWord(w)
    ensures w & 0x0E00_0000 == 0x0600_0000 ==>
      DecodeArm(w) == (if w & 0x10 != 0 then InstructionType.Undefined else SingleDataTransfer)
  {
  }

  /** MRS words, and only they, are ProgramStatusRegisterTransferOut. */
  lemma PsrTransferOutExactly(w: bv32)
    ensures DecodeArm(w) == ProgramStatusRegisterTransferOut <==> IsMrsWord(w)
  {
  }

  /** An MRS word needs bits 11:0 clear: with the MRS pattern in bits 27:16 and
      any of bits 11:0 set, the word is something else (0xF14FF09F is a swap). */
  lemma MrsNeedsClearLowBits(w: bv32)
    requires w & 0x0FBF_0000 == 0x010F_0000 && w & 0xFFF != 0
    ensures DecodeArm(w) != ProgramStatusRegisterTransferOut
  {
  }

  /** MSR words are ProgramStatusRegisterTransferIn unless they are also
      halfword transfers, which take priority. */
  lemma PsrTransferInExactly(w: bv32)
    ensures DecodeArm(w) == ProgramStatusRegisterTransferIn <==>
      (IsMsrRegisterWord(w) || IsMsrFlagsWord(w))
      && !IsHalfwordRegisterWord(w) && !IsHalfwordImmediateWord(w)
  {
  }

  /** The flag-only MSR form ignores bits 11:0 in its immediate form, and in
      its register form to the CPSR whenever bits 11:8 are not all clear
      (0x0128FFFF).  (Written to the SPSR with bits 7 and 4 set, the register
      form is a halfword transfer, immediate offset.) */
  lemma MsrFlagsIgnoresLowBits(w: bv32)
    requires IsMsrFlagsWord(w)
    requires w & 0x0200_0000 != 0 || (w & 0x0040_0000 == 0 && w & 0xF00 != 0)
    ensures DecodeArm(w) == ProgramStatusRegisterTransferIn
  {
  }

  /** No PSR-transfer word is classified as data processing, although all of
      them lie in the data-processing space. */
  lemma PsrTransferNotDataProcessing(w: bv32)
    requires IsMrsWord(w) || IsMsrRegisterWord(w) || IsMsrFlagsWord(w)
    ensures IsDataProcessingSpace(w)
    ensures DecodeArm(w) != DataProcessing
  {
  }

  /** DataProcessing is the fallback of the data-processing space. */
  lemma DataProcessingExactly(w: bv32)
    ensures DecodeArm(w) == DataProcessing <==>
      IsDataProcessingSpace(w) && !IsOtherFormatInDataProcessingSpace(w)
  {
  }

  /** With bits 27:24 and 22 clear and bits 7:4 = 1001, bit 23 separates
      Multiply (0x00000090) from MultiplyLong (0x00800090). */
  lemma MultiplyBit23(w: bv32)
    requires w & 0x0F40_00F0 == 0x0000_0090
    ensures DecodeArm(w) == if w & 0x0080_0000 != 0 then MultiplyLong else Multiply
  {
  }

  /** For a halfword transfer (bits 27:25 = 000, bits 11:8 clear, bit 7 and
      bit 4 set, S or H set), bit 22 separates the register-offset form from
      the immediate-offset form. */
  lemma HalfwordBit22(w: bv32)
    requires w & 0x0E00_0F90 == 0x0000_0090 && HasHalfwordKind(w)
    ensures DecodeArm(w) ==
      if w & 0x0040_0000 != 0 then HalfwordDataTransferImmediate else HalfwordDataTransferRegister
  {
  }

  /** For bits 27:24 = 1110 bit 4 separates the coprocessor data operation from
      the coprocessor register transfer; bits 27:24 = 1111 is a software interrupt. */
  lemma CoprocessorAndSoftwareInterrupt(w: bv32)
    ensures w & 0x0F00_0000 == 0x0E00_0000 ==>
      DecodeArm(w) == if w & 0x10 != 0 then CoprocessorRegisterTransfer else CoprocessorDataOperation
    ensures w & 0x0F00_0000 == 0x0F00_0000 ==> DecodeArm(w) == InstructionType.SoftwareInterrupt
  {
  }
}
