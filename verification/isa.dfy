/** The SAP-1 instruction set: the sixteen values of the 4-bit opcode field.
    Five of them (`NI0` to `NI4`) are reserved and have no operation. */
module Isa {
  import opened Bits

  datatype Opcode =
    | NOP | LDA | ADD | SUB | STA | LDI | JMP | JC
    | JZ | NI0 | NI1 | NI2 | NI3 | NI4 | OUT | HLT
  {
    /** The opcode's value in the high nibble of an instruction byte: its
        position in the C enumeration. */
    function Code(): Nibble {
      match this
      case NOP => 0
      case LDA => 1
      case ADD => 2
      case SUB => 3
      case STA => 4
      case LDI => 5
      case JMP => 6
      case JC => 7
      case JZ => 8
      case NI0 => 9
      case NI1 => 10
      case NI2 => 11
      case NI3 => 12
      case NI4 => 13
      case OUT => 14
      case HLT => 15
    }

    /** True for the eleven opcodes that have an operation. */
    predicate Implemented() {
      !(NI0? || NI1? || NI2? || NI3? || NI4?)
    }
  }

  /** Decodes a 4-bit opcode field. */
  function FromCode(n: Nibble): (op: Opcode)
    ensures op.Code() == n
    ensures op.Implemented() <==> !(9 <= n <= 13)
  {
    match n
    case 0 => NOP
    case 1 => LDA
    case 2 => ADD
    case 3 => SUB
    case 4 => STA
    case 5 => LDI
    case 6 => JMP
    case 7 => JC
    case 8 => JZ
    case 9 => NI0
    case 10 => NI1
    case 11 => NI2
    case 12 => NI3
    case 13 => NI4
    case 14 => OUT
    case 15 => HLT
  }

  /** Encoding then decoding an opcode gives it back, so no two opcodes
      share a code. */
  lemma CodeRoundTrip(op: Opcode)
    ensures FromCode(op.Code()) == op
  {
  }

  /** Exactly five codes, 9 through 13, decode to a reserved opcode. */
  lemma ReservedCodes()
    ensures forall n: Nibble :: !FromCode(n).Implemented() <==> n in {9, 10, 11, 12, 13}
    ensures |set n: Nibble | 0 <= n < 16 && !FromCode(n).Implemented()| == 5
  {
    var reserved := set n: Nibble | 0 <= n < 16 && !FromCode(n).Implemented();
    assert reserved == {9, 10, 11, 12, 13} by {
      forall n: Nibble
        ensures n in reserved <==> n in {9, 10, 11, 12, 13}
      {
        var _ := FromCode(n);
      }
    }
  }
}
