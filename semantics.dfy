/** The execution engine of the LS-8 CPU as a function on machine states:
    memory access, the ALU, every instruction handler, one fetch-decode-execute
    step and the run loop. The class in module Cpu is proved to compute
    exactly these functions. */
module Semantics {
  import opened Isa

  /** The whole machine. Registers and memory cells hold unbounded integers,
      as the source never masks to 8 bits. `output` is what PRN has printed. */
  datatype State = State(
    ram: seq<int>,
    register: seq<int>,
    pc: int,
    fl: int,
    on: bool,
    output: seq<int>)

  /** Why the machine stopped or whether it may go on:
      Running (the step finished normally, or the run ran out of fuel),
      Halted (HALT cleared the running flag),
      InvalidOpcode (no table knows the byte at `address`),
      OutOfRange (a memory address or register index outside the arrays). */
  datatype Status = Running | Halted | InvalidOpcode(opcode: int, address: int) | OutOfRange

  datatype Transition = Transition(state: State, status: Status)

  predicate WellFormed(s: State)
  {
    |s.ram| == RamSize && |s.register| == RegisterCount
  }

  predicate ValidAddress(address: int)
  {
    0 <= address < RamSize
  }

  predicate ValidRegister(index: int)
  {
    0 <= index < RegisterCount
  }

  /** The state after construction: zeroed memory and registers except SP. */
  function Initial(): (s: State)
    ensures WellFormed(s)
  {
    State(seq(RamSize, _ => 0),
          seq(RegisterCount, i => if i == SP then InitialSP else 0),
          0, 0, false, [])
  }

  // ---------------------------------------------------------------- memory

  function RamRead(s: State, address: int): int
    requires WellFormed(s) && ValidAddress(address)
  {
    s.ram[address]
  }

  function RamWrite(s: State, data: int, address: int): (r: State)
    requires WellFormed(s) && ValidAddress(address)
    ensures WellFormed(r)
  {
    s.(ram := s.ram[address := data])
  }

  /** The byte-copy loop of load: program[i] goes to address i. */
  function Load(s: State, program: seq<int>): (r: State)
    requires WellFormed(s) && |program| <= RamSize
    ensures WellFormed(r)
  {
    s.(ram := program + s.ram[|program|..])
  }

  // ---------------------------------------------------------------- ALU

  /** Python's `&` on integers of any sign (two's complement of unbounded width).
      Dafny's `/` and `%` by 2 round toward negative infinity here, as Python's do. */
  function BitAnd(x: int, y: int): int
    decreases (if x < 0 then -x else x) + (if y < 0 then -y else y)
  {
    if x == 0 || y == 0 then 0
    else if x == -1 then y
    else if y == -1 then x
    else 2 * BitAnd(x / 2, y / 2) + (if x % 2 == 1 && y % 2 == 1 then 1 else 0)
  }

  /** The register indices an ALU operation reads must exist; INC and DEC ignore reg_b. */
  predicate AluRegistersValid(op: AluOp, a: int, b: int)
  {
    ValidRegister(a) && (op == INC || op == DEC || ValidRegister(b))
  }

  function Alu(s: State, op: AluOp, a: int, b: int): (r: State)
    requires WellFormed(s) && AluRegistersValid(op, a, b)
    ensures WellFormed(r)
  {
    match op
    case ADD => s.(register := s.register[a := s.register[a] + s.register[b]], pc := s.pc + 3)
    case AND => s.(register := s.register[a := BitAnd(s.register[a], s.register[b])], pc := s.pc + 3)
    case SUB => s.(register := s.register[a := s.register[a] - s.register[b]], pc := s.pc + 3)
    case INC => s.(register := s.register[a := s.register[a] + 1], pc := s.pc + 2)
    case DEC => s.(register := s.register[a := s.register[a] - 1], pc := s.pc + 2)
    case MUL => s.(register := s.register[a := s.register[a] * s.register[b]], pc := s.pc + 3)
    case CMP =>
      var flags :=
        if s.register[a] < s.register[b] then FlagLess
        else if s.register[a] > s.register[b] then FlagGreater
        else FlagEqual;
      s.(fl := flags, pc := s.pc + 3)
  }

  // ---------------------------------------------------------------- handlers

  /** The byte at pc + k exists and names a register. */
  predicate OperandRegister(s: State, k: int)
    requires WellFormed(s)
  {
    ValidAddress(s.pc + k) && ValidRegister(s.ram[s.pc + k])
  }

  /** The register named by the operand byte after the opcode. */
  function Operand(s: State): int
    requires WellFormed(s) && OperandRegister(s, 1)
  {
    s.register[s.ram[s.pc + 1]]
  }

  function Halt(s: State): (r: State)
    ensures WellFormed(r) <==> WellFormed(s)
  {
    s.(on := false)
  }

  function Prn(s: State): (r: State)
    requires WellFormed(s) && OperandRegister(s, 1)
    ensures WellFormed(r)
  {
    s.(output := s.output + [Operand(s)], pc := s.pc + 2)
  }

  predicate PushPre(s: State)
    requires WellFormed(s)
  {
    OperandRegister(s, 1) && ValidAddress(s.register[SP] - 1)
  }

  /** SP is decremented first, so `PUSH 7` stores the decremented SP. */
  function Push(s: State): (r: State)
    requires WellFormed(s) && PushPre(s)
    ensures WellFormed(r)
  {
    var sp := s.register[SP] - 1;
    var regs := s.register[SP := sp];
    s.(register := regs, ram := s.ram[sp := regs[s.ram[s.pc + 1]]], pc := s.pc + 2)
  }

  predicate PopPre(s: State)
    requires WellFormed(s)
  {
    OperandRegister(s, 1) && ValidAddress(s.register[SP])
  }

  /** The popped value is stored before SP is incremented, so `POP 7` leaves SP at value + 1. */
  function Pop(s: State): (r: State)
    requires WellFormed(s) && PopPre(s)
    ensures WellFormed(r)
  {
    var regs := s.register[s.ram[s.pc + 1] := s.ram[s.register[SP]]];
    s.(register := regs[SP := regs[SP] + 1], pc := s.pc + 2)
  }

  predicate LdiPre(s: State)
    requires WellFormed(s)
  {
    OperandRegister(s, 1) && ValidAddress(s.pc + 2)
  }

  function Ldi(s: State): (r: State)
    requires WellFormed(s) && LdiPre(s)
    ensures WellFormed(r)
  {
    s.(register := s.register[s.ram[s.pc + 1] := s.ram[s.pc + 2]], pc := s.pc + 3)
  }

  function Nop(s: State): (r: State)
    ensures WellFormed(r) <==> WellFormed(s)
  {
    s.(pc := s.pc + 1)
  }

  function Jmp(s: State): (r: State)
    requires WellFormed(s) && OperandRegister(s, 1)
    ensures WellFormed(r)
  {
    s.(pc := Operand(s))
  }

  /** The operand byte is read only when the branch is taken. */
  function Jeq(s: State): (r: State)
    requires WellFormed(s) && (s.fl == FlagEqual ==> OperandRegister(s, 1))
    ensures WellFormed(r)
  {
    if s.fl == FlagEqual then s.(pc := Operand(s)) else s.(pc := s.pc + 2)
  }

  function Jne(s: State): (r: State)
    requires WellFormed(s) && (s.fl != FlagEqual ==> OperandRegister(s, 1))
    ensures WellFormed(r)
  {
    if s.fl != FlagEqual then s.(pc := Operand(s)) else s.(pc := s.pc + 2)
  }

  /** What each handler needs to find in range. */
  predicate HandlerPre(s: State, h: Handler)
    requires WellFormed(s)
  {
    match h
    case NOP => true
    case HALT => true
    case PUSH => PushPre(s)
    case POP => PopPre(s)
    case PRN => OperandRegister(s, 1)
    case LDI => LdiPre(s)
    case JMP => OperandRegister(s, 1)
    case JEQ => s.fl == FlagEqual ==> OperandRegister(s, 1)
    case JNE => s.fl != FlagEqual ==> OperandRegister(s, 1)
  }

  /** Runs the handler that the instruction table maps to. */
  function Execute(s: State, h: Handler): (r: State)
    requires WellFormed(s) && HandlerPre(s, h)
    ensures WellFormed(r)
  {
    match h
    case NOP => Nop(s)
    case HALT => Halt(s)
    case PUSH => Push(s)
    case POP => Pop(s)
    case PRN => Prn(s)
    case LDI => Ldi(s)
    case JMP => Jmp(s)
    case JEQ => Jeq(s)
    case JNE => Jne(s)
  }

  // ---------------------------------------------------------------- dispatch

  /** One iteration of the run loop: fetch the byte at pc, decode it, and
      either run the ALU on the next two bytes, run the handler, or stop.
      A failed step leaves the state as it was. */
  function Step(s: State): (t: Transition)
    requires WellFormed(s)
    ensures WellFormed(t.state)
    ensures t.status.InvalidOpcode? || t.status == OutOfRange ==> t.state == s
    ensures t.status == Halted ==> t.state == s.(on := false)
    ensures s.output <= t.state.output
  {
    if !ValidAddress(s.pc) then Transition(s, OutOfRange)
    else
      var instruction := s.ram[s.pc];
      match Decode(instruction)
      case AluInstr(op) =>
        if !ValidAddress(s.pc + 1) || !ValidAddress(s.pc + 2) then Transition(s, OutOfRange)
        else
          var a, b := s.ram[s.pc + 1], s.ram[s.pc + 2];
          if AluRegistersValid(op, a, b) then Transition(Alu(s, op, a, b), Running)
          else Transition(s, OutOfRange)
      case HandlerInstr(h) =>
        if !HandlerPre(s, h) then Transition(s, OutOfRange)
        else Transition(Execute(s, h), if h == HALT then Halted else Running)
      case Unknown => Transition(s, InvalidOpcode(instruction, s.pc))
  }

  /** The `while on` loop, allowed at most `fuel` further steps. The loop ends
      with Halted exactly when the running flag is clear, and output only grows. */
  function Loop(s: State, fuel: nat): (t: Transition)
    requires WellFormed(s)
    ensures WellFormed(t.state)
    ensures t.status == Halted <==> !t.state.on
    ensures s.output <= t.state.output
    decreases fuel
  {
    if !s.on then Transition(s, Halted)
    else if fuel == 0 then Transition(s, Running)
    else
      var t := Step(s);
      if t.status == Running || t.status == Halted then Loop(t.state, fuel - 1)
      else t
  }

  /** run: set the running flag, then loop. */
  function Run(s: State, fuel: nat): (t: Transition)
    requires WellFormed(s)
    ensures WellFormed(t.state)
  {
    Loop(s.(on := true), fuel)
  }
}
