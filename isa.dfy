/** The LS-8 instruction set: fixed register roles, the two dispatch tables
    that turn an opcode byte into an ALU operation or an instruction handler,
    and the operand count of every instruction. */
module Isa {

  datatype Option<T> = None | Some(value: T)

  /** Sizes of the machine. */
  const RamSize: nat := 256
  const RegisterCount: nat := 8

  /** Registers with a reserved role: stack pointer, interrupt status, interrupt mask. */
  const SP: nat := 7
  const IS: nat := 6
  const IM: nat := 5

  /** The stack pointer's value after construction. */
  const InitialSP: int := 0xF4

  /** The three values CMP writes to FL: bit 0 Equal, bit 1 Greater, bit 2 Less. */
  const FlagEqual: int := 1
  const FlagGreater: int := 2
  const FlagLess: int := 4

  /** The operation names the ALU understands. */
  datatype AluOp = ADD | AND | SUB | INC | DEC | MUL | CMP

  /** The instruction handlers of the CPU. */
  datatype Handler = NOP | HALT | PUSH | POP | PRN | LDI | JMP | JEQ | JNE

  /** What an opcode byte denotes. */
  datatype Decoded = AluInstr(op: AluOp) | HandlerInstr(handler: Handler) | Unknown

  /** The ALU dispatch table: only MUL and CMP have an opcode. */
  function AluTable(opcode: int): Option<AluOp>
  {
    if opcode == 162 then Some(MUL)
    else if opcode == 167 then Some(CMP)
    else None
  }

  /** The instruction dispatch table. */
  function InstructionTable(opcode: int): Option<Handler>
  {
    if opcode == 0 then Some(NOP)
    else if opcode == 1 then Some(HALT)
    else if opcode == 69 then Some(PUSH)
    else if opcode == 70 then Some(POP)
    else if opcode == 71 then Some(PRN)
    else if opcode == 130 then Some(LDI)
    else if opcode == 84 then Some(JMP)
    else if opcode == 85 then Some(JEQ)
    else if opcode == 86 then Some(JNE)
    else None
  }

  /** The dispatcher consults the ALU table first, then the instruction table. */
  function Decode(opcode: int): Decoded
  {
    match AluTable(opcode)
    case Some(op) => AluInstr(op)
    case None =>
      match InstructionTable(opcode)
      case Some(h) => HandlerInstr(h)
      case None => Unknown
  }

  /** The opcode of each handler, read the other way round from the table. */
  function HandlerOpcode(h: Handler): int
  {
    match h
    case NOP => 0
    case HALT => 1
    case PUSH => 69
    case POP => 70
    case PRN => 71
    case LDI => 130
    case JMP => 84
    case JEQ => 85
    case JNE => 86
  }

  /** The opcode of each ALU operation, if it has one. */
  function AluOpcode(op: AluOp): Option<int>
  {
    match op
    case MUL => Some(162)
    case CMP => Some(167)
    case _ => None
  }

  /** Number of operand bytes that follow each handler's opcode. */
  function HandlerOperands(h: Handler): nat
  {
    match h
    case NOP => 0
    case HALT => 0
    case LDI => 2
    case _ => 1
  }

  /** Number of operands each ALU operation consumes (INC and DEC take one register). */
  function AluOperands(op: AluOp): nat
  {
    if op == INC || op == DEC then 1 else 2
  }

  predicate IsJump(h: Handler)
  {
    h == JMP || h == JEQ || h == JNE
  }

  /** Whether a jump handler branches, given the flags register. */
  predicate Taken(h: Handler, fl: int)
    requires IsJump(h)
  {
    match h
    case JMP => true
    case JEQ => fl == FlagEqual
    case JNE => fl != FlagEqual
  }

  /** Decoding a byte yields handler h exactly when the byte is h's opcode. */
  lemma DecodeHandler(opcode: int, h: Handler)
    ensures Decode(opcode) == HandlerInstr(h) <==> opcode == HandlerOpcode(h)
  {
  }

  /** Decoding a byte yields ALU operation op exactly when the byte is op's opcode. */
  lemma DecodeAlu(opcode: int, op: AluOp)
    ensures Decode(opcode) == AluInstr(op) <==> AluOpcode(op) == Some(opcode)
  {
  }

  /** ADD, AND, SUB, INC and DEC exist in the ALU but no opcode reaches them. */
  lemma OnlyMulAndCmpReachable(opcode: int)
    ensures Decode(opcode).AluInstr? ==> Decode(opcode).op == MUL || Decode(opcode).op == CMP
  {
  }

  /** No opcode is in both tables, so consulting the ALU table first changes no
      decoding. */
  lemma TablesDisjoint(opcode: int)
    ensures AluTable(opcode).Some? ==> InstructionTable(opcode).None?
    ensures InstructionTable(opcode).Some? ==> Decode(opcode) == HandlerInstr(InstructionTable(opcode).value)
  {
  }

  /** The opcodes neither table knows. */
  lemma UnknownOpcodes(opcode: int)
    ensures Decode(opcode) == Unknown <==>
      opcode !in {0, 1, 69, 70, 71, 84, 85, 86, 130, 162, 167}
  {
  }
}
