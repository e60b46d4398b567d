/**
 * The register encoder of the assembler (src/assembler/CSL.rs): the inverse
 * of the CPU's operand decoder, and the two-byte CB-prefixed opcodes.
 */
module Csl {
  import opened CpuConstants

  /** Encodes an 8-bit operand as the three register bits of an opcode; a literal is unreachable. */
  function CpuRegDispatch(reg: CpuRegister): (r: bv8)
    requires !reg.Num?
    ensures r <= 7
  {
    match reg
    case B => 0
    case C => 1
    case D => 2
    case E => 3
    case H => 4
    case L => 5
    case HLInd => 6
    case A => 7
  }

  /** Encoding after decoding is the identity on 0..=7. */
  lemma EncodeDecode(n: bv8)
    requires n <= 7
    ensures CpuRegDispatch(CpuDispatch(n)) == n
  {
  }

  /** Decoding after encoding is the identity on the eight register operands. */
  lemma DecodeEncode(reg: CpuRegister)
    requires !reg.Num?
    ensures CpuDispatch(CpuRegDispatch(reg)) == reg
  {
  }

  /** The CB-prefixed opcode for operation row `n` on `reg`, big-endian. */
  function LookupPrefix(n: bv8, reg: CpuRegister): (r: (bv8, bv8))
    requires !reg.Num?
    ensures r.0 == 0xCB
    ensures r.1 & 7 == CpuRegDispatch(reg)
    ensures r.1 & 8 == 0
    ensures r.1 >> 4 == n & 0xF
  {
    (0xCB, (n << 4) | CpuRegDispatch(reg))
  }

  /** Two prefixed opcodes are equal only if they name the same register and the same row modulo 16. */
  lemma LookupPrefixInjective(n1: bv8, r1: CpuRegister, n2: bv8, r2: CpuRegister)
    requires !r1.Num? && !r2.Num?
    requires LookupPrefix(n1, r1) == LookupPrefix(n2, r2)
    ensures r1 == r2 && n1 & 0xF == n2 & 0xF
  {
    DecodeEncode(r1);
    DecodeEncode(r2);
  }
}
