/** The four barrel-shifter kinds (src/shift_types.h) and their 2-bit encodings,
    the value of the shift-type field of an instruction word. */
module ShiftTypes {

  datatype ShiftType = LogicalLeft | LogicalRight | ArithmeticRight | RotateRight

  /** The enumerator value: LSL = 0, LSR = 1, ASR = 2, ROR = 3. */
  function Encode(t: ShiftType): bv2
  {
    match t
    case LogicalLeft => 0x0
    case LogicalRight => 0x1
    case ArithmeticRight => 0x2
    case RotateRight => 0x3
  }

  /** The shift type a 2-bit field names; every field names one. */
  function Decode(b: bv2): (t: ShiftType)
    ensures Encode(t) == b
  {
    if b == 0x0 then LogicalLeft
    else if b == 0x1 then LogicalRight
    else if b == 0x2 then ArithmeticRight
    else RotateRight
  }

  /** Distinct shift types have distinct encodings. */
  lemma EncodeInjective(a: ShiftType, b: ShiftType)
    ensures Encode(a) == Encode(b) ==> a == b
  {
  }

  /** Decoding a shift type's encoding gives back the shift type. */
  lemma DecodeEncode(t: ShiftType)
    ensures Decode(Encode(t)) == t
  {
    EncodeInjective(Decode(Encode(t)), t);
  }
}
