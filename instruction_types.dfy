/** Instruction-format categories of the 32-bit and 16-bit instruction sets and
    the two functions that name them (src/instruction_types.h, src/instruction_types.cpp). */
module InstructionTypes {

  /** The 17 formats of the 32-bit instruction set. */
  datatype InstructionType =
    | DataProcessing
    | ProgramStatusRegisterTransferOut
    | ProgramStatusRegisterTransferIn
    | Multiply
    | MultiplyLong
    | SingleDataSwap
    | BranchAndExchange
    | HalfwordDataTransferRegister
    | HalfwordDataTransferImmediate
    | SingleDataTransfer
    | BlockDataTransfer
    | Branch
    | CoprocessorDataTransfer
    | CoprocessorDataOperation
    | CoprocessorRegisterTransfer
    | SoftwareInterrupt
    | Undefined

  /** The 19 formats of the 16-bit instruction set, plus Undefined. */
  datatype ThumbInstructionType =
    | MoveShiftedRegister
    | AddSubtract
    | MoveCompareAddSubtractImmediate
    | ALUOperation
    | HighRegisterOperationBranchExchange
    | PCRelativeLoad
    | LoadStoreRegOffset
    | LoadStoreSignByteHalfword
    | LoadStoreImmediateOffset
    | LoadStoreHalfword
    | SPRelativeLoadStore
    | LoadAddress
    | AddOffsetToStackPointer
    | PushPopRegisters
    | MultipleLoadStore
    | ConditionalBranch
    | SoftwareInterrupt
    | UnconditionalBranch
    | LongBranchLink
    | Undefined

  /** Every InstructionType, in declaration order. */
  const AllInstructionTypes: seq<InstructionType> := [
    DataProcessing, ProgramStatusRegisterTransferOut, ProgramStatusRegisterTransferIn,
    Multiply, MultiplyLong, SingleDataSwap, BranchAndExchange,
    HalfwordDataTransferRegister, HalfwordDataTransferImmediate, SingleDataTransfer,
    BlockDataTransfer, Branch, CoprocessorDataTransfer, CoprocessorDataOperation,
    CoprocessorRegisterTransfer, InstructionType.SoftwareInterrupt, InstructionType.Undefined
  ]

  /** Every ThumbInstructionType, in declaration order. */
  const AllThumbInstructionTypes: seq<ThumbInstructionType> := [
    MoveShiftedRegister, AddSubtract, MoveCompareAddSubtractImmediate, ALUOperation,
    HighRegisterOperationBranchExchange, PCRelativeLoad, LoadStoreRegOffset,
    LoadStoreSignByteHalfword, LoadStoreImmediateOffset, LoadStoreHalfword,
    SPRelativeLoadStore, LoadAddress, AddOffsetToStackPointer, PushPopRegisters,
    MultipleLoadStore, ConditionalBranch, ThumbInstructionType.SoftwareInterrupt,
    UnconditionalBranch, LongBranchLink, ThumbInstructionType.Undefined
  ]

  predicate Distinct<T(==)>(s: seq<T>) {
    forall i, j :: 0 <= i < j < |s| ==> s[i] != s[j]
  }

  /** The underlying value of an InstructionType enumerator: its position in the
      declaration, counting from 0. */
  function Ordinal(t: InstructionType): (n: nat)
    ensures n < |AllInstructionTypes| && AllInstructionTypes[n] == t
  {
    match t
    case DataProcessing => 0
    case ProgramStatusRegisterTransferOut => 1
    case ProgramStatusRegisterTransferIn => 2
    case Multiply => 3
    case MultiplyLong => 4
    case SingleDataSwap => 5
    case BranchAndExchange => 6
    case HalfwordDataTransferRegister => 7
    case HalfwordDataTransferImmediate => 8
    case SingleDataTransfer => 9
    case BlockDataTransfer => 10
    case Branch => 11
    case CoprocessorDataTransfer => 12
    case CoprocessorDataOperation => 13
    case CoprocessorRegisterTransfer => 14
    case SoftwareInterrupt => 15
    case Undefined => 16
  }

  /** The underlying value of a ThumbInstructionType enumerator. */
  function ThumbOrdinal(t: ThumbInstructionType): (n: nat)
    ensures n < |AllThumbInstructionTypes| && AllThumbInstructionTypes[n] == t
  {
    match t
    case MoveShiftedRegister => 0
    case AddSubtract => 1
    case MoveCompareAddSubtractImmediate => 2
    case ALUOperation => 3
    case HighRegisterOperationBranchExchange => 4
    case PCRelativeLoad => 5
    case LoadStoreRegOffset => 6
    case LoadStoreSignByteHalfword => 7
    case LoadStoreImmediateOffset => 8
    case LoadStoreHalfword => 9
    case SPRelativeLoadStore => 10
    case LoadAddress => 11
    case AddOffsetToStackPointer => 12
    case PushPopRegisters => 13
    case MultipleLoadStore => 14
    case ConditionalBranch => 15
    case SoftwareInterrupt => 16
    case UnconditionalBranch => 17
    case LongBranchLink => 18
    case Undefined => 19
  }

  /** InstructionType has exactly 17 values. */
  lemma InstructionTypeCount()
    ensures |AllInstructionTypes| == 17 && Distinct(AllInstructionTypes)
    ensures forall t: InstructionType :: t in AllInstructionTypes
  {
    forall t: InstructionType ensures t in AllInstructionTypes {
      assert AllInstructionTypes[Ordinal(t)] == t;
    }
  }

  /** ThumbInstructionType has exactly 20 values, Undefined among them. */
  lemma ThumbInstructionTypeCount()
    ensures |AllThumbInstructionTypes| == 20 && Distinct(AllThumbInstructionTypes)
    ensures forall t: ThumbInstructionType :: t in AllThumbInstructionTypes
  {
    forall t: ThumbInstructionType ensures t in AllThumbInstructionTypes {
      assert AllThumbInstructionTypes[ThumbOrdinal(t)] == t;
    }
  }

  /** getInstructionTypeText: the enumerator's own identifier.  The C++ `default`
      arm, reached only by a value outside the enumeration, cannot occur for a
      closed datatype; Undefined gives "Undefined" as that arm does. */
  function InstructionTypeText(t: InstructionType): string {
    match t
    case DataProcessing => "DataProcessing"
    case ProgramStatusRegisterTransferOut => "ProgramStatusRegisterTransferOut"
    case ProgramStatusRegisterTransferIn => "ProgramStatusRegisterTransferIn"
    case Multiply => "Multiply"
    case MultiplyLong => "MultiplyLong"
    case SingleDataSwap => "SingleDataSwap"
    case BranchAndExchange => "BranchAndExchange"
    case HalfwordDataTransferRegister => "HalfwordDataTransferRegister"
    case HalfwordDataTransferImmediate => "HalfwordDataTransferImmediate"
    case SingleDataTransfer => "SingleDataTransfer"
    case BlockDataTransfer => "BlockDataTransfer"
    case Branch => "Branch"
    case CoprocessorDataTransfer => "CoprocessorDataTransfer"
    case CoprocessorDataOperation => "CoprocessorDataOperation"
    case CoprocessorRegisterTransfer => "CoprocessorRegisterTransfer"
    case SoftwareInterrupt => "SoftwareInterrupt"
    case Undefined => "Undefined"
  }

  /** Distinct types have distinct names. */
  lemma InstructionTypeTextInjective(a: InstructionType, b: InstructionType)
    ensures InstructionTypeText(a) == InstructionTypeText(b) ==> a == b
  {
  }

  predicate IsPsrTransfer(t: InstructionType) {
    t == ProgramStatusRegisterTransferOut || t == ProgramStatusRegisterTransferIn
  }

  /** getInstructionTypeString: the switch of instruction_types.cpp, which lists
      15 of the 17 types; the two PSR-transfer types fall out of the switch to
      the final `return "Undefined"`. */
  function InstructionTypeString(t: InstructionType): (s: string)
    ensures !IsPsrTransfer(t) ==> s == InstructionTypeText(t)
    ensures IsPsrTransfer(t) ==> s == InstructionTypeText(InstructionType.Undefined)
  {
    match t
    case DataProcessing => "DataProcessing"
    case Multiply => "Multiply"
    case MultiplyLong => "MultiplyLong"
    case SingleDataSwap => "SingleDataSwap"
    case BranchAndExchange => "BranchAndExchange"
    case HalfwordDataTransferRegister => "HalfwordDataTransferRegister"
    case HalfwordDataTransferImmediate => "HalfwordDataTransferImmediate"
    case SingleDataTransfer => "SingleDataTransfer"
    case BlockDataTransfer => "BlockDataTransfer"
    case Branch => "Branch"
    case CoprocessorDataTransfer => "CoprocessorDataTransfer"
    case CoprocessorDataOperation => "CoprocessorDataOperation"
    case CoprocessorRegisterTransfer => "CoprocessorRegisterTransfer"
    case SoftwareInterrupt => "SoftwareInterrupt"
    case Undefined => "Undefined"
    case _ => "Undefined"
  }

  /** Exactly three types are named "Undefined" by getInstructionTypeString, so
      unlike getInstructionTypeText it does not tell the types apart. */
  lemma InstructionTypeStringCollapses(t: InstructionType)
    ensures InstructionTypeString(t) == "Undefined" <==> IsPsrTransfer(t) || t == InstructionType.Undefined
    ensures InstructionTypeString(ProgramStatusRegisterTransferOut) == InstructionTypeString(InstructionType.Undefined)
  {
  }
}
