/** Fixed-width quantities of the SAP-1 and the C operators the emulator
    applies to them.

    Every register width is a subset type, so a value that does not fit its
    field can never be stored in it: each assignment of the C code appears
    in the model together with the truncation that the C bit-field performs. */
module Bits {

  /** An 8-bit register or RAM cell (`unsigned char`). */
  type Byte = x: int | 0 <= x < 256

  /** A 4-bit bit-field (`M_REG`, `P_CNT`, `INS`, `OPR`). */
  type Nibble = x: int | 0 <= x < 16

  /** A 1-bit flag (`CF`, `ZF`). */
  type Bit = x: int | 0 <= x < 2

  /** The 9-bit internal `BUS` bit-field. */
  type Bus9 = x: int | 0 <= x < 512

  /** Storing an `int` into the 9-bit `BUS` field. C converts to an unsigned
      bit-field modulo 2^9; for a negative difference that is exactly
      Dafny's Euclidean remainder, which is never negative. */
  function ToBus(v: int): Bus9 {
    v % 512
  }

  /** Storing an `int` into a 4-bit field (this is how `P_CNT++` wraps). */
  function ToNibble(v: int): Nibble {
    v % 16
  }

  /** Storing an `int` into a 1-bit field. */
  function ToBit(v: int): Bit {
    v % 2
  }

  /** `v & 0xFF` on a non-negative value. */
  function Mask8(v: nat): Byte {
    v % 256
  }

  /** `v & 0xF` on a non-negative value. */
  function Mask4(v: nat): Nibble {
    v % 16
  }

  /** `b >> 4`: the high nibble of a byte. */
  function HighNibble(b: Byte): Nibble {
    b / 16
  }

  /** The `ASM(I, O)` macro, `(I << 4) | O`: opcode in the high nibble,
      operand in the low nibble. The two nibbles do not overlap, so the
      bitwise or is a sum. */
  function Asm(i: Nibble, o: Nibble): Byte {
    i * 16 + o
  }

  /** `ASM` written with the C operators on 8-bit words agrees with `Asm`. */
  lemma AsmIsShiftOr(i: bv8, o: bv8)
    requires i < 16 && o < 16
    ensures ((i << 4) | o) as int == Asm(i as int, o as int)
  {
  }

  /** Decoding at fetch with `>> 4` and `& 0xF`, written with the C operators
      on an 8-bit word, agrees with `HighNibble` and `Mask4`. */
  lemma DecodeIsShiftAnd(w: bv8)
    ensures (w >> 4) as int == HighNibble(w as int)
    ensures (w & 0xF) as int == Mask4(w as int)
  {
  }

  /** Splitting an assembled instruction gives back its opcode and operand. */
  lemma AsmSplit(i: Nibble, o: Nibble)
    ensures HighNibble(Asm(i, o)) == i
    ensures Mask4(Asm(i, o)) == o
  {
  }

  /** An assembled instruction fits on the 9-bit bus unchanged. */
  lemma AsmFitsBus(i: Nibble, o: Nibble)
    ensures ToBus(Asm(i, o)) == Asm(i, o)
  {
  }

  /** Every byte is the assembly of its own two nibbles, so fetch loses
      nothing when it splits a byte into `INS` and `OPR`. */
  lemma AsmJoin(b: Byte)
    ensures Asm(HighNibble(b), Mask4(b)) == b
  {
  }

  /** ADD on the 9-bit bus: the sum of two bytes always fits, its low byte
      is the sum modulo 256, and its bit 8 (the carry) is set exactly when
      the sum does not fit in 8 bits. */
  lemma SumOnBus(a: Byte, b: Byte)
    ensures ToBus(a + b) == a + b
    ensures Mask8(ToBus(a + b)) == (a + b) % 256
    ensures ToBit(ToBus(a + b) / 256) == 1 <==> a + b > 255
  {
    if a + b > 255 {
      assert (a + b) / 256 == 1;
    } else {
      assert (a + b) / 256 == 0;
    }
  }

  /** SUB on the 9-bit bus: the difference is stored modulo 512, its low
      byte is the difference modulo 256, and its bit 8 is set exactly when
      the subtraction borrows. */
  lemma DifferenceOnBus(a: Byte, b: Byte)
    ensures Mask8(ToBus(a - b)) == (a - b) % 256
    ensures ToBit(ToBus(a - b) / 256) == 1 <==> a < b
  {
    if a < b {
      assert ToBus(a - b) == a - b + 512;
      assert (a - b + 512) / 256 == 1;
      assert (a - b + 512) % 256 == (a - b) % 256;
    } else {
      assert ToBus(a - b) == a - b;
      assert (a - b) / 256 == 0;
    }
  }
}
