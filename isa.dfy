/**
 * The LS-8 instruction set as the CPU class sees it: the twelve opcode bytes,
 * the dispatch table from opcode to handler, and the decoding of an opcode's
 * size and "sets PC" bit that the run loop performs (cpu.py:5-16, 28-40, 196-197).
 */
module Isa {
  import opened Wrappers
  import opened Bits

  const PRN: nat := 0x47  // 0b01000111
  const LDI: nat := 0x82  // 0b10000010
  const HLT: nat := 0x01  // 0b00000001
  const MUL: nat := 0xA2  // 0b10100010
  const PUSH: nat := 0x45  // 0b01000101
  const POP: nat := 0x46  // 0b01000110
  const CALL: nat := 0x50  // 0b01010000
  const RET: nat := 0x11  // 0b00010001
  const CMP: nat := 0xA7  // 0b10100111
  const JMP: nat := 0x54  // 0b01010100
  const JEQ: nat := 0x55  // 0b01010101
  const JNE: nat := 0x56  // 0b01010110

  /** The handlers registered in the dispatch table. */
  datatype Instr = Prn | Ldi | Hlt | Mul | Push | Pop | Call | Ret | Cmp | Jmp | Jeq | Jne

  function Opcode(i: Instr): nat
  {
    match i
    case Prn => PRN
    case Ldi => LDI
    case Hlt => HLT
    case Mul => MUL
    case Push => PUSH
    case Pop => POP
    case Call => CALL
    case Ret => RET
    case Cmp => CMP
    case Jmp => JMP
    case Jeq => JEQ
    case Jne => JNE
  }

  /** Looking an opcode up in the dispatch table; `None` is the KeyError. */
  function Dispatch(op: int): (r: Option<Instr>)
    ensures r.Some? ==> Opcode(r.value) == op
    ensures r.None? ==> forall i: Instr :: Opcode(i) != op
  {
    if op == PRN then Some(Prn)
    else if op == LDI then Some(Ldi)
    else if op == HLT then Some(Hlt)
    else if op == MUL then Some(Mul)
    else if op == PUSH then Some(Push)
    else if op == POP then Some(Pop)
    else if op == CALL then Some(Call)
    else if op == RET then Some(Ret)
    else if op == CMP then Some(Cmp)
    else if op == JMP then Some(Jmp)
    else if op == JEQ then Some(Jeq)
    else if op == JNE then Some(Jne)
    else None
  }

  /** No two handlers share an opcode: each handler is found under its own byte. */
  lemma DispatchOpcode(i: Instr)
    ensures Dispatch(Opcode(i)) == Some(i)
  {
  }

  /** The size mask as written in the run loop: the DECIMAL number 11000000. */
  const SIZE_MASK: nat := 11000000
  /** The "sets PC" bit, bit 4. */
  const PC_SET_FLAG: nat := 0x10  // 0b00010000

  /** Instruction size: `((op & 11000000) >> 6) + 1`. */
  function SizeOf(op: nat): nat
  {
    BitAnd(op, SIZE_MASK) / 64 + 1
  }

  /** `op & 0b00010000` equals `0b00010000`: the handler sets PC itself. */
  predicate SetsPc(op: nat)
  {
    BitAnd(op, PC_SET_FLAG) == PC_SET_FLAG
  }

  /** Operand bytes per instruction, as the LS-8 instruction table lists them. */
  function OperandCount(i: Instr): nat
  {
    match i
    case Hlt | Ret => 0
    case Prn | Push | Pop | Call | Jmp | Jeq | Jne => 1
    case Ldi | Mul | Cmp => 2
  }

  /** The instructions that the instruction table marks as setting PC directly. */
  predicate IsJump(i: Instr)
  {
    i == Call || i == Ret || i == Jmp || i == Jeq || i == Jne
  }

  /** On every byte, the decimal mask selects the same bits as the binary mask 0b11000000 (0xC0). */
  lemma SizeMaskIsTopTwoBits(op: nat)
    requires op < 256
    ensures BitAnd(op, SIZE_MASK) == BitAnd(op, 0xC0)
  {
    assert Pow2(8) == 256;
    assert SameLowBits(SIZE_MASK, 0xC0, 8);
    BitAndLowBits(op, SIZE_MASK, 0xC0, 8);
  }

  /** Bits 7-6 of a byte, kept in place by the mask 0b11000000. */
  lemma TopTwoBits(op: nat)
    requires op < 256
    ensures BitAnd(op, 0xC0) == 64 * (op / 64)
  {
    var a1, a2, a3 := op / 2, op / 4, op / 8;
    var a4, a5, a6 := op / 16, op / 32, op / 64;
    assert a2 == a1 / 2 && a3 == a2 / 2 && a4 == a3 / 2 && a5 == a4 / 2 && a6 == a5 / 2;
    assert BitAnd(a6, 3) == a6 by {
      assert a6 < 4;
      BitAndOne(a6 / 2);
    }
    assert BitAnd(a5, 6) == 2 * a6 by { BitAndEvenMask(a5, 3); }
    assert BitAnd(a4, 12) == 4 * a6 by { BitAndEvenMask(a4, 6); }
    assert BitAnd(a3, 24) == 8 * a6 by { BitAndEvenMask(a3, 12); }
    assert BitAnd(a2, 48) == 16 * a6 by { BitAndEvenMask(a2, 24); }
    assert BitAnd(a1, 96) == 32 * a6 by { BitAndEvenMask(a1, 48); }
    BitAndEvenMask(op, 96);
  }

  /** The size decoded from a byte is bits 7-6 plus one: `((op >> 6) & 3) + 1`. */
  lemma SizeDecode(op: nat)
    requires op < 256
    ensures SizeOf(op) == (op / 64) % 4 + 1
    ensures 1 <= SizeOf(op) <= 4
  {
    var top := op / 64;
    assert BitAnd(op, SIZE_MASK) == 64 * top by {
      SizeMaskIsTopTwoBits(op);
      TopTwoBits(op);
    }
    assert (64 * top) / 64 == top && top < 4;
  }

  /** The "sets PC" test reads exactly bit 4 of the opcode. */
  lemma PcSetDecode(op: nat)
    ensures SetsPc(op) <==> (op / 16) % 2 == 1
  {
    var a1, a2, a3, a4 := op / 2, op / 4, op / 8, op / 16;
    assert a2 == a1 / 2 && a3 == a2 / 2 && a4 == a3 / 2;
    var bit := a4 % 2;
    assert BitAnd(a4, 1) == bit by { BitAndOne(a4); }
    assert BitAnd(a3, 2) == 2 * bit by { BitAndEvenMask(a3, 1); }
    assert BitAnd(a2, 4) == 4 * bit by { BitAndEvenMask(a2, 2); }
    assert BitAnd(a1, 8) == 8 * bit by { BitAndEvenMask(a1, 4); }
    BitAndEvenMask(op, 8);
  }

  /** Bits 7-6 and bit 4 of each registered opcode, read off the constants. */
  lemma OpcodeFields(i: Instr)
    ensures (Opcode(i) / 64) % 4 == OperandCount(i)
    ensures (Opcode(i) / 16) % 2 == 1 <==> IsJump(i)
  {
  }

  /**
   * The encoding of every registered opcode agrees with the instruction
   * table: its size is one plus its operand count, and its bit 4 is set
   * exactly for CALL, RET, JMP, JEQ and JNE.
   */
  lemma OpcodeLayout(i: Instr)
    ensures SizeOf(Opcode(i)) == OperandCount(i) + 1
    ensures SetsPc(Opcode(i)) <==> IsJump(i)
  {
    OpcodeFields(i);
    SizeDecode(Opcode(i));
    PcSetDecode(Opcode(i));
  }
}
