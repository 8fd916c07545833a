/**
  The instruction set shared by the Real Machine and the Virtual Machine:
  constants, instruction fields, and the 16-bit instruction layout.
  */
module Isa {
  import opened Words

  const REG_COUNT := 8
  const MEMORY_SIZE := 512
  const USER_MEMORY_END := 255
  const SUPERVISOR_MEMORY_START := 256
  const SUPERVISOR_MEMORY_END := 511
  const VM_MEMORY_SIZE := 255
  const TICK_LIMIT := 10
  const WORD_MAX := 0xFFFF

  const MODE_USER: Word := 0
  const MODE_SUPERVISOR: Word := 1

  const FLAG_ZERO := 1
  const FLAG_NEGATIVE := 2
  const FLAG_OVERFLOW := 4
  const FLAG_CARRY := 8

  const PI_NONE: Word := 0
  const PI_INVALID_OPCODE: Word := 1
  const PI_INVALID_ADDRESS: Word := 2
  const PI_DIVZERO: Word := 4
  const PI_OVERFLOW: Word := 6

  const SI_NONE: Word := 0
  const SI_READ: Word := 1
  const SI_WRITE: Word := 2
  const SI_HALT: Word := 3
  const SI_SYS: Word := 4

  const TI_NONE: Word := 0
  const TI_EXPIRED: Word := 1

  const OP_HALT := 0x0
  const OP_LOAD := 0x1
  const OP_STORE := 0x2
  const OP_ADD := 0x3
  const OP_SUB := 0x4
  const OP_MUL := 0x5
  const OP_DIV := 0x6
  const OP_CMP := 0x7
  const OP_JMP := 0x8
  const OP_JZ := 0x9
  const OP_JNZ := 0xA
  const OP_READ := 0xB
  const OP_WRITE := 0xC
  const OP_NOP := 0xD
  const OP_SYS := 0xE

  type Opcode = x: int | 0 <= x < 16
  type Reg = x: int | 0 <= x < 8
  type Mode = x: int | 0 <= x < 4

  type Registers = s: seq<Word> | |s| == REG_COUNT witness [0, 0, 0, 0, 0, 0, 0, 0]

  const ZERO_REGISTERS: Registers := [0, 0, 0, 0, 0, 0, 0, 0]

  datatype Instruction = Instruction(opcode: Opcode, regA: Reg, regB: Reg, mode: Mode, operand: Word)

  predicate TakesMemoryOperand(op: Opcode) {
    op == OP_LOAD || op == OP_STORE
  }

  predicate TakesTwoRegisters(op: Opcode) {
    OP_ADD <= op <= OP_CMP
  }

  predicate TakesJumpTarget(op: Opcode) {
    OP_JMP <= op <= OP_JNZ
  }

  /** The fields both decoders extract; opcode 15 is the one neither knows. */
  function Fields(w: Word): Instruction {
    var op := w / 0x1000;
    Instruction(
      op,
      w / 0x200 % 8,
      if TakesTwoRegisters(op) then w / 0x40 % 8 else 0,
      if TakesMemoryOperand(op) then w / 0x80 % 4 else 0,
      if TakesMemoryOperand(op) then w % 0x80 else if TakesJumpTarget(op) then w % 0x200 else 0)
  }

  predicate KnownOpcode(w: Word) {
    w / 0x1000 <= OP_SYS
  }

  /** Instructions with every unused field zero and every used one in range. */
  predicate Canonical(i: Instruction) {
    && (!TakesTwoRegisters(i.opcode) ==> i.regB == 0)
    && (!TakesMemoryOperand(i.opcode) ==> i.mode == 0)
    && i.operand < OperandLimit(i.opcode)
  }

  /** One more than the largest operand the format can hold for an opcode. */
  function OperandLimit(op: Opcode): int {
    if TakesMemoryOperand(op) then 0x80 else if TakesJumpTarget(op) then 0x200 else 1
  }

  /** The word layout of the instruction format: the independent inverse of `Fields`. */
  function Encode(i: Instruction): Word
    requires Canonical(i)
  {
    0x1000 * i.opcode + 0x200 * i.regA + Tail(i)
  }

  /** The low nine bits of an encoded instruction. */
  function Tail(i: Instruction): (t: int)
    requires Canonical(i)
    ensures 0 <= t < 0x200
  {
    0x40 * i.regB + 0x80 * i.mode + i.operand
  }

  lemma SplitWord(op: Opcode, reg: Reg, t: int)
    requires 0 <= t < 0x200
    ensures 0 <= 0x1000 * op + 0x200 * reg + t < 0x1_0000
    ensures (0x1000 * op + 0x200 * reg + t) / 0x1000 == op
    ensures (0x1000 * op + 0x200 * reg + t) / 0x200 % 8 == reg
    ensures (0x1000 * op + 0x200 * reg + t) % 0x200 == t
  {
    var w := 0x1000 * op + 0x200 * reg + t;
    assert w / 0x200 == 8 * op + reg;
  }

  lemma LowBits(w: Word)
    ensures w / 0x40 % 8 == w % 0x200 / 0x40
    ensures w / 0x80 % 4 == w % 0x200 / 0x80
    ensures w % 0x80 == w % 0x200 % 0x80
  {
    var q := w / 0x200;
    assert w == 0x200 * q + w % 0x200;
    assert w / 0x40 == 8 * q + w % 0x200 / 0x40;
    assert w / 0x80 == 4 * q + w % 0x200 / 0x80;
  }

  /** Decoding an encoded instruction gives the same instruction back. */
  lemma DecodeEncode(i: Instruction)
    requires Canonical(i)
    ensures Fields(Encode(i)) == i
  {
    SplitWord(i.opcode, i.regA, Tail(i));
    LowBits(Encode(i));
  }

  /** The record a decoder fills in, one field after another. */
  class InstructionRecord {
    var opcode: Opcode
    var regA: Reg
    var regB: Reg
    var mode: Mode
    var operand: Word

    ghost function Value(): Instruction
      reads this
    {
      Instruction(opcode, regA, regB, mode, operand)
    }

    constructor () {
      opcode, regA, regB, mode, operand := 0, 0, 0, 0, 0;
    }

    /**
      The Real Machine's decoder. Its later range checks on register, operand
      and mode cannot fail, because the fields are 3, 9 and 2 bits wide.
      */
    method DecodeReal(w: Word) returns (ok: bool)
      modifies this
      ensures ok == KnownOpcode(w) && (ok ==> Value() == Fields(w))
    {
      opcode := w / 0x1000;
      regA := w / 0x200 % 8;
      mode, operand, regB := 0, 0, 0;
      if opcode == OP_LOAD || opcode == OP_STORE {
        mode := w / 0x80 % 4;
        operand := w % 0x80;
      } else if OP_ADD <= opcode <= OP_CMP {
        regB := w / 0x40 % 8;
      } else if opcode == OP_JMP || opcode == OP_JZ || opcode == OP_JNZ {
        operand := w % 0x200;
      } else if opcode == OP_READ || opcode == OP_WRITE || opcode == OP_HALT || opcode == OP_NOP || opcode == OP_SYS {
      } else {
        return false;
      }
      return true;
    }

    /** The Virtual Machine's decoder, which rejects the unknown opcode before it reads any field. */
    method DecodeVirtual(w: Word) returns (status: int)
      modifies this
      ensures status == (if KnownOpcode(w) then 0 else 1) && (status == 0 ==> Value() == Fields(w))
    {
      opcode := w / 0x1000;
      if opcode > OP_SYS { return 1; }
      regA := w / 0x200 % 8;
      mode, regB, operand := 0, 0, 0;
      if opcode == OP_LOAD || opcode == OP_STORE {
        mode := w / 0x80 % 4;
        operand := w % 0x80;
      } else if OP_ADD <= opcode <= OP_CMP {
        regB := w / 0x40 % 8;
      } else if OP_JMP <= opcode <= OP_JNZ {
        operand := w % 0x200;
      }
      return 0;
    }
  }
}
