# GBA emulator core, early snapshot: a Dafny model

This project models the parts of an early snapshot of a Game Boy Advance
emulator (an ARM7TDMI core written in C++) whose behaviour the snapshot fixes:

- **The byte memory store** (`GbaMemory`): a zero-filled array of
  `MaxSize = 0xFFFFFFFF` bytes; the constructor paints the 240 x 160 RGBA
  display region at `DisplayBufferAddress = 1 << 30` with one colour in its
  first half and another in its second half; `loadBIOS` copies an image to
  address 0; `getDisplayBuffer` is a read-only window onto the display region.
  The store is a class over an `array<bv8>`. Its fill loops keep loop
  invariants. The `memcpy` of `loadBIOS` is a `forall` statement.
- **The ARM instruction classifier** (`ArmDecoder`): a pure function from a
  32-bit word to one of the 17 instruction formats. The classifier test pins
  it on 64 words. No file of this snapshot defines the classifier itself, so
  `DecodeArm` is defined from the format masks of section 4.1 (instruction set
  summary) of the ARM7TDMI Data Sheet, ARM DDI 0029E. The masks are tried in
  the order that makes every table row hold. The model proves every row and
  the boundary cases that decide that order.
- **The CPU** (`Cpu`): its sixteen zeroed registers and the half-written
  `decodeArm` of `src/cpu.cpp`, which returns the data-processing opcode of an
  immediate-form word. Beside them sits the state the software-interrupt test
  observes: the CPSR with its mode field, the program counter, `R14_svc` and
  `SPSR_svc`. The SWI handler and the `MOVS PC, LR` return are methods of the
  class, proved to restore the CPSR exactly from any starting state.
- **Encodings and name tables** (`Opcodes`, `ShiftTypes`, `InstructionTypes`,
  `InstructionArguments`): the opcode and shift-type enumerations with their
  bit encodings and round trips; the instruction-type enumerations and their
  two name functions; the decoded-argument records and their constructors,
  whose parameter order differs from their field order.

Machine words are `bv32` and bytes `bv8`. The C++ `size_t` constants are `nat`.

## Model

| member | source | states |
|---|---|---|
| `Opcodes.Encode` | src/opcode.h:6-21 | the encoding of an opcode has bits 3:2 equal to 10 exactly for TST, TEQ, CMP and CMN (0x8 to 0xB) |
| `Opcodes.Decode` | src/opcode.h:4-22 | every 4-bit field is the encoding of the opcode it decodes to, so the sixteen encodings cover 0x0 to 0xF |
| `Opcodes.EncodeInjective` | src/opcode.h:4-22 | distinct opcodes have distinct encodings |
| `Opcodes.DecodeEncode` | src/opcode.h:4-22 | decoding an opcode's encoding gives back the opcode |
| `ShiftTypes.Encode` | src/shift_types.h:3-6 | LSL, LSR, ASR and ROR are 00, 01, 10 and 11; ShiftTypes.EncodeInjective and ShiftTypes.DecodeEncode make it a bijection onto the 2-bit fields |
| `ShiftTypes.Decode` | src/shift_types.h:2-7 | every 2-bit field is the encoding of the shift type it decodes to |
| `ShiftTypes.EncodeInjective` | src/shift_types.h:2-7 | the four shift-type encodings are distinct |
| `ShiftTypes.DecodeEncode` | src/shift_types.h:2-7 | decoding a shift type's encoding gives back the shift type |
| `InstructionTypes.Ordinal` | src/instruction_types.h:8-26 | each InstructionType's underlying value is its position in the list of all 17 enumerators |
| `InstructionTypes.ThumbOrdinal` | src/instruction_types.h:28-49 | each ThumbInstructionType's underlying value is its position in the list of all 20 enumerators |
| `InstructionTypes.InstructionTypeCount` | src/instruction_types.h:8-26 | InstructionType has exactly 17 distinct values, and every value is listed |
| `InstructionTypes.ThumbInstructionTypeCount` | src/instruction_types.h:28-49 | ThumbInstructionType has exactly 20 distinct values, Undefined among them |
| `InstructionTypes.InstructionTypeText` | src/instruction_types.h:51-88 | each type's name is its enumerator's identifier; InstructionTypes.InstructionTypeTextInjective proves no two types share a name |
| `InstructionTypes.InstructionTypeTextInjective` | src/instruction_types.h:51-88 | getInstructionTypeText names distinct types differently |
| `InstructionTypes.InstructionTypeString` | src/instruction_types.cpp:4-40 | equals getInstructionTypeText on the 15 types its switch lists; gives "Undefined" for the two PSR-transfer types |
| `InstructionTypes.InstructionTypeStringCollapses` | src/instruction_types.cpp:6-39 | exactly three types are named "Undefined" (both PSR transfers and Undefined), so the function is not injective |
| `InstructionArguments.MakeDataProcessingArguments` | src/instruction_types_arguments.h:8-19 | each parameter lands in its same-named field, although Rd precedes Rn among the parameters and follows it among the fields |
| `InstructionArguments.MakeMultiplyArguments` | src/instruction_types_arguments.h:21-33 | _S goes to S and _A to A, although the fields are declared A, S |
| `InstructionArguments.MakeHalfWordAndSignedDataTransferArguments` | src/instruction_types_arguments.h:59-73 | all nine parameters go to their same-named fields |
| `InstructionArguments.MakeBlockDataTransferArguments` | src/instruction_types_arguments.h:75-87 | all seven parameters go to their same-named fields |
| `InstructionArguments.DataProcessingArgumentOrder` | src/instruction_types_arguments.h:17-18 | swapping the Rd and Rn arguments gives a different record, which differs from the positional field layout |
| `InstructionArguments.MultiplyArgumentOrder` | src/instruction_types_arguments.h:31-32 | for any S != A, swapping the S and A arguments gives a different record, which differs from the positional field layout |
| `ArmDecoder.DecodeArm` | src/tests/test_data_processing.cpp:16-81 | the classifier the table pins: the ArmTestCases lemmas prove all 64 rows; UndefinedExactly, PsrTransferOutExactly, PsrTransferInExactly and DataProcessingExactly characterise four classes over all words; DecodeArmIgnoresCondition shows bits 31:28 never matter |
| `ArmDecoder.ArmTestCasesPart0Classified` | src/tests/test_data_processing.cpp:17-24 | the DataProcessing and MRS rows of the table classify as the table expects |
| `ArmDecoder.ArmTestCasesPart1Classified` | src/tests/test_data_processing.cpp:25-32 | the rows for MSR to the whole PSR classify as expected |
| `ArmDecoder.ArmTestCasesPart2Classified` | src/tests/test_data_processing.cpp:33-40 | the flag-only MSR rows and the first Multiply row classify as expected |
| `ArmDecoder.ArmTestCasesPart3Classified` | src/tests/test_data_processing.cpp:41-48 | the Multiply, MultiplyLong, swap, BX and first halfword rows classify as expected |
| `ArmDecoder.ArmTestCasesPart4Classified` | src/tests/test_data_processing.cpp:49-56 | the halfword-transfer rows classify as expected |
| `ArmDecoder.ArmTestCasesPart5Classified` | src/tests/test_data_processing.cpp:57-64 | the last halfword rows and the single-data-transfer rows classify as expected |
| `ArmDecoder.ArmTestCasesPart6Classified` | src/tests/test_data_processing.cpp:65-72 | the single-data-transfer, block-transfer, branch and coprocessor-data-transfer rows classify as expected |
| `ArmDecoder.ArmTestCasesPart7Classified` | src/tests/test_data_processing.cpp:73-80 | the coprocessor, SWI and Undefined rows classify as expected |
| `ArmDecoder.ArmTestCasesClassified` | src/tests/test_data_processing.cpp:16-81 | every one of the 64 (word, type) pairs satisfies DecodeArm(word) == type, for condition field 0x0 and 0xF alike |
| `ArmDecoder.DecodeArmIgnoresCondition` | src/tests/test_data_processing.cpp:16-81 | replacing bits 31:28 of any word by any condition never changes its classification |
| `ArmDecoder.UndefinedExactly` | src/tests/test_data_processing.cpp:60-80 | a word is Undefined exactly when bits 27:25 = 011 and bit 4 = 1; with bits 27:25 = 011 and bit 4 = 0 it is a SingleDataTransfer |
| `ArmDecoder.PsrTransferOutExactly` | src/tests/test_data_processing.cpp:19-24 | a word is ProgramStatusRegisterTransferOut exactly when it matches the MRS mask |
| `ArmDecoder.MrsNeedsClearLowBits` | src/tests/test_data_processing.cpp:21-45 | a word with the MRS pattern in bits 27:16 but any of bits 11:0 set is not an MRS (0xF14FF09F is a swap) |
| `ArmDecoder.PsrTransferInExactly` | src/tests/test_data_processing.cpp:25-39 | a word is ProgramStatusRegisterTransferIn exactly when it matches an MSR mask and is not a halfword transfer |
| `ArmDecoder.MsrFlagsIgnoresLowBits` | src/tests/test_data_processing.cpp:33-39 | a flag-only MSR word is ProgramStatusRegisterTransferIn whatever bits 11:0 hold, in immediate form, and in register form to the CPSR whenever bits 11:8 are not all clear (0x0128FFFF) |
| `ArmDecoder.PsrTransferNotDataProcessing` | src/tests/test_data_processing.cpp:19-39 | PSR-transfer words lie in the data-processing space (bits 27:26 = 00) and are still never DataProcessing |
| `ArmDecoder.DataProcessingExactly` | src/tests/test_data_processing.cpp:17-18 | a word is DataProcessing exactly when bits 27:26 = 00 and it matches none of the nine formats that share that space |
| `ArmDecoder.MultiplyBit23` | src/tests/test_data_processing.cpp:40-43 | with bits 27:24 and 22 clear and bits 7:4 = 1001, bit 23 separates MultiplyLong from Multiply |
| `ArmDecoder.HalfwordBit22` | src/tests/test_data_processing.cpp:48-59 | for a halfword-transfer word, bit 22 separates the immediate-offset form from the register-offset form |
| `ArmDecoder.CoprocessorAndSoftwareInterrupt` | src/tests/test_data_processing.cpp:71-78 | for bits 27:24 = 1110, bit 4 separates CoprocessorRegisterTransfer from CoprocessorDataOperation; bits 27:24 = 1111 is SoftwareInterrupt |
| `Cpu.DecodeArmOpcode` | src/cpu.cpp:9-19 | for a word with bits 27:25 = 001, the opcode returned is the one whose encoding is bits 24:21; other words are excluded, as the C++ function has no return for them |
| `Cpu.DecodeArmOpcodeIgnoresCondition` | src/cpu.cpp:10-13 | the condition bits 31:28 are extracted but never affect the opcode returned |
| `Cpu.ModeBits` | src/tests/test_software_interrupt.cpp:13 | the mode field of each mode, from the PSR mode-bit table in section 3.8 of ARM DDI 0029E (the source names the modes but gives no encoding); bit 4 is set in all seven |
| `Cpu.ModeBitsInjective` | src/tests/test_software_interrupt.cpp:13-18 | distinct modes have distinct mode fields, so setMode and getMode can tell User from Supervisor |
| `Cpu.ModeOf` | src/tests/test_software_interrupt.cpp:13-18 | with the encodings of ModeBits, a 5-bit mode field that decodes to a mode is that mode's encoding; a field that decodes to none is no mode's encoding |
| `Cpu.ModeRoundTrip` | src/tests/test_software_interrupt.cpp:13-18 | reading back a mode's field gives the mode |
| `Cpu.StatusMode` | src/tests/test_software_interrupt.cpp:18 | the mode of a status register is the mode whose field equals bits 4:0, and None when no mode has that field |
| `Cpu.WithMode` | src/tests/test_software_interrupt.cpp:13 | setting the mode field gives a status register in that mode whose bits 31:5 are unchanged |
| `Cpu.CPU.constructor` | src/cpu.cpp:3-4 | a new CPU has all 16 registers equal to 0 |
| `Cpu.CPU.PC` | src/tests/test_software_interrupt.cpp:14 | PC() is register 15; Cpu.CPU.SetPC and the SWI and return handlers state their effect through it |
| `Cpu.CPU.GetMode` | src/tests/test_software_interrupt.cpp:18 | getMode is the StatusMode of the CPSR; Cpu.CPU.SetMode proves it returns the mode just set |
| `Cpu.CPU.LinkRegister` | src/tests/test_software_interrupt.cpp:26 | LR(mode) is R14_svc for Supervisor and the shared R14 for User and System; Cpu.CPU.CallSoftwareInterruptInstruction states through it that the SWI sets LR(Supervisor) to pc + 4 and leaves every other mode's LR alone, and Cpu.SoftwareInterruptScenario reads line 26's LR(Supervisor) == 0x4 through it |
| `Cpu.CPU.SetMode` | src/tests/test_software_interrupt.cpp:13 | setMode puts the CPSR in the given mode and changes no other CPSR bit |
| `Cpu.CPU.SetPC` | src/tests/test_software_interrupt.cpp:14 | assignment through PC() sets R15 and no other register |
| `Cpu.CPU.CallSoftwareInterruptInstruction` | src/tests/test_software_interrupt.cpp:17-29 | after the SWI, the mode is Supervisor, PC = 0x08, LR(Supervisor) = old PC + 4, the LR of every other mode is unchanged, SPSR_svc = old CPSR, and R0 to R14 are unchanged |
| `Cpu.CPU.CallDataProcessingInstruction` | src/tests/test_software_interrupt.cpp:31-43 | MOVS PC, LR in Supervisor mode sets PC to LR_svc and the CPSR to SPSR_svc; MOV PC, LR copies the current mode's LR to PC; other words and modes change nothing and report NotModelled |
| `Cpu.SoftwareInterruptRoundTrip` | src/tests/test_software_interrupt.cpp:15-43 | from any state, SWI at pc followed by MOVS PC, LR returns to pc + 4 with the CPSR, and so the mode, exactly as before the SWI |
| `Cpu.SoftwareInterruptScenario` | src/tests/test_software_interrupt.cpp:10-46 | the test's scenario: Supervisor, PC 0x08 and LR_svc 0x04 after the SWI; PC 0x04, User mode and the captured CPSR after the return |
| `GbaMemory.DisplayLayout` | src/memory.h:16-18 | DisplayBufferAddress is 0x40000000; DisplayBufferSize is 153600, four bytes per pixel; the region lies below MaxSize; its halves split on a pixel boundary |
| `GbaMemory.InitialDisplay` | src/memory.cpp:5-17 | the constructed display image is DisplayBufferSize bytes long |
| `GbaMemory.InitialDisplayPixel` | src/memory.cpp:5-17 | in the constructed display, each pixel in the first half holds 00 00 FF 00 and each pixel in the second half holds 00 FF FF FF |
| `GbaMemory.WritePixel` | src/memory.cpp:6-9 | the four byte stores of one loop iteration put R, G, B and A at a to a + 3 and change no other byte of the array |
| `GbaMemory.Memory.constructor` | src/memory.cpp:4-18 | the store is MaxSize bytes; every byte outside the display region is 0; the two loops give every display byte the colour of its half |
| `GbaMemory.Memory.DisplayBuffer` | src/memory.cpp:27-31 | the window is exactly DisplayBufferSize bytes, equal to memory[DisplayBufferAddress ..] byte for byte; as a function it changes nothing |
| `GbaMemory.Memory.LoadBIOS` | src/memory.cpp:23-25 | needs the image to fit; afterwards memory[k] = bios[k] below the image's length, all other bytes and the length are unchanged, and an image shorter than DisplayBufferAddress leaves the display window as it was |
| `GbaMemory.BootDisplay` | src/memory.cpp:4-31 | a new store, after loading a BIOS no longer than DisplayBufferAddress, shows exactly the constructed display image |

## Left out

- src/main.cpp (SDL window, event loop, frame pacing, ROM file loading) is I/O and user interface and is not part of this model.
- src/emulator.cpp and src/emulator.h forward to CPU methods (loadBIOS, reset, step) that no source file defines; they are not part of this model. src/common.h (a deleter calling `free`) is a foreign allocator hook.
- The printing and exit-code harness of both tests is left out; only their asserted input and output pairs are modelled.
- The shifter, condition evaluation, the ALU, block transfers, Thumb decoding and the banks of the FIQ, IRQ, Abort and Undefined modes (Cpu.CPU.LinkRegister gives None for those modes): no source file implements them.
- Cpu.CPU.CallDataProcessingInstruction: handles only MOV{S} PC, LR. Every other data-processing word returns NotModelled and changes nothing. MOVS in a mode other than Supervisor, and MOV in a mode whose LR bank is not modelled, do the same. Its `pc` argument is not used by this form.
- Cpu.CPU.CallSoftwareInterruptInstruction: does not set the IRQ-disable bit or force ARM state on entry, which section 3.9 of ARM DDI 0029E also asks for; the test does not observe either. It also does not evaluate the condition field.
- Cpu.CPU.constructor: the cpsr, lrSvc and spsrSvc fields are absent from src/cpu.h in this snapshot. The model sets them to 0.
- The failure of the 4 GiB allocation is left out: the store is an array of MaxSize bytes whose allocation always succeeds. The iterator pair of getDisplayBuffer is a sequence slice.
- The `= default` constructors of the argument records, which leave the fields uninitialised, are left out. The Thumb argument records are also left out, because no function in this snapshot builds or reads them.
- InstructionTypes.InstructionTypeText: the `default` arm of the C++ switch serves only integer values outside the enumeration, which a Dafny datatype cannot hold.
- ArmDecoder.DecodeArm: the halfword-transfer formats also require bits 6:5 (S, H) not both clear. Section 4.10 of ARM DDI 0029E reserves SH = 00 for the swap and multiply encodings. No row of the table depends on this choice.

## Findings

| source | as written | input that shows it | evidently intended | confidence | as-written member | corrected member |
|---|---|---|---|---|---|---|
| src/instruction_types.cpp:6-39 | the switch of getInstructionTypeString has no case for ProgramStatusRegisterTransferOut or ProgramStatusRegisterTransferIn, so both fall through to "Undefined" | ProgramStatusRegisterTransferOut gives "Undefined", the same string as Undefined | the enumerator's own name, as getInstructionTypeText in src/instruction_types.h:51-88 gives | medium, not executed | `InstructionTypes.InstructionTypeStringCollapses` | `InstructionTypes.InstructionTypeTextInjective` |
