/** The sixteen data-processing opcodes (src/opcode.h) and their 4-bit encodings,
    the value of bits 24:21 of a data-processing instruction word. */
module Opcodes {

  datatype Opcode =
    | AND | XOR | SUB | RSB | ADD | ADC | SBC | RSC
    | TST | TEQ | CMP | CMN | ORR | MOV | BIC | MVN

  /** The opcodes that only set flags and write no destination register. */
  predicate IsTestOpcode(op: Opcode) {
    op == TST || op == TEQ || op == CMP || op == CMN
  }

  /** The enumerator value of an opcode: AND = 0x0 through MVN = 0xF.
      Bits 3:2 of the encoding are 10 exactly for the four test opcodes. */
  function Encode(op: Opcode): (b: bv4)
    ensures IsTestOpcode(op) <==> b >> 2 == 0x2
  {
    match op
    case AND => 0x0
    case XOR => 0x1
    case SUB => 0x2
    case RSB => 0x3
    case ADD => 0x4
    case ADC => 0x5
    case SBC => 0x6
    case RSC => 0x7
    case TST => 0x8
    case TEQ => 0x9
    case CMP => 0xA
    case CMN => 0xB
    case ORR => 0xC
    case MOV => 0xD
    case BIC => 0xE
    case MVN => 0xF
  }

  /** The opcode a 4-bit field names; every field names one. */
  function Decode(b: bv4): (op: Opcode)
    ensures Encode(op) == b
  {
    if b == 0x0 then AND
    else if b == 0x1 then XOR
    else if b == 0x2 then SUB
    else if b == 0x3 then RSB
    else if b == 0x4 then ADD
    else if b == 0x5 then ADC
    else if b == 0x6 then SBC
    else if b == 0x7 then RSC
    else if b == 0x8 then TST
    else if b == 0x9 then TEQ
    else if b == 0xA then CMP
    else if b == 0xB then CMN
    else if b == 0xC then ORR
    else if b == 0xD then MOV
    else if b == 0xE then BIC
    else MVN
  }

  /** Distinct opcodes have distinct encodings. */
  lemma EncodeInjective(a: Opcode, b: Opcode)
    ensures Encode(a) == Encode(b) ==> a == b
  {
  }

  /** Decoding an opcode's encoding gives back the opcode. */
  lemma DecodeEncode(op: Opcode)
    ensures Decode(Encode(op)) == op
  {
    EncodeInjective(Decode(Encode(op)), op);
  }
}
