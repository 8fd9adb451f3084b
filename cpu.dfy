/** The CPU object: memory and registers are arrays updated in place, pc, FL,
    the running flag and the printed output are fields. Every method is proved
    to move the object from state Snapshot() to exactly the state the matching
    function of module Semantics computes. */
module Cpu {
  import opened Isa
  import Semantics
  import Properties

  class CPU {
    var ram: array<int>
    var register: array<int>
    var pc: int
    var fl: int
    var on: bool
    var output: seq<int>

    ghost predicate Valid()
      reads this
    {
      ram.Length == RamSize && register.Length == RegisterCount
    }

    /** The machine state this object holds. */
    ghost function Snapshot(): (s: Semantics.State)
      reads this, ram, register
      ensures Valid() ==> Semantics.WellFormed(s)
    {
      Semantics.State(ram[..], register[..], pc, fl, on, output)
    }

    /** 256 zero cells, eight zero registers except SP = 0xF4, pc and FL zero. */
    constructor ()
      ensures Valid() && fresh(ram) && fresh(register)
      ensures Snapshot() == Semantics.Initial()
    {
      fl := 0;
      register := new int[RegisterCount](_ => 0);
      ram := new int[RamSize](_ => 0);
      pc := 0;
      on := false;
      output := [];
      new;
      register[SP] := InitialSP;
      assert register[..] == Semantics.Initial().register;
      assert ram[..] == Semantics.Initial().ram;
    }

    method RamRead(address: int) returns (data: int)
      requires Valid() && Semantics.ValidAddress(address)
      ensures data == Semantics.RamRead(Snapshot(), address)
    {
      data := ram[address];
    }

    method RamWrite(data: int, address: int)
      requires Valid() && Semantics.ValidAddress(address)
      modifies ram
      ensures Valid()
      ensures Snapshot() == Semantics.RamWrite(old(Snapshot()), data, address)
    {
      ram[address] := data;
    }

    /** The byte-copy loop of load. */
    method Load(program: seq<int>)
      requires Valid() && |program| <= RamSize
      modifies ram
      ensures Valid()
      ensures Snapshot() == Semantics.Load(old(Snapshot()), program)
    {
      var address := 0;
      while address < |program|
        invariant 0 <= address <= |program|
        invariant forall i :: 0 <= i < address ==> ram[i] == program[i]
        invariant forall i :: address <= i < RamSize ==> ram[i] == old(ram[i])
      {
        RamWrite(program[address], address);
        address := address + 1;
      }
      assert ram[..] == program + old(ram[..])[|program|..];
    }

    method Alu(op: AluOp, regA: int, regB: int)
      requires Valid() && Semantics.AluRegistersValid(op, regA, regB)
      modifies this`pc, this`fl, register
      ensures Valid()
      ensures Snapshot() == Semantics.Alu(old(Snapshot()), op, regA, regB)
    {
      match op
      case ADD =>
        register[regA] := register[regA] + register[regB];
        pc := pc + 3;
      case AND =>
        register[regA] := Semantics.BitAnd(register[regA], register[regB]);
        pc := pc + 3;
      case SUB =>
        register[regA] := register[regA] - register[regB];
        pc := pc + 3;
      case INC =>
        register[regA] := register[regA] + 1;
        pc := pc + 2;
      case DEC =>
        register[regA] := register[regA] - 1;
        pc := pc + 2;
      case MUL =>
        register[regA] := register[regA] * register[regB];
        pc := pc + 3;
      case CMP =>
        if register[regA] < register[regB] {
          fl := FlagLess;
        } else if register[regA] > register[regB] {
          fl := FlagGreater;
        } else {
          fl := FlagEqual;
        }
        pc := pc + 3;
    }

    method Halt()
      requires Valid()
      modifies this`on
      ensures Valid()
      ensures Snapshot() == Semantics.Halt(old(Snapshot()))
    {
      on := false;
    }

    method Prn()
      requires Valid() && Semantics.OperandRegister(Snapshot(), 1)
      modifies this`output, this`pc
      ensures Valid()
      ensures Snapshot() == Semantics.Prn(old(Snapshot()))
    {
      var regNum := RamRead(pc + 1);
      var data := register[regNum];
      output := output + [data];
      pc := pc + 2;
    }

    method Push()
      requires Valid() && Semantics.PushPre(Snapshot())
      modifies this`pc, ram, register
      ensures Valid()
      ensures Snapshot() == Semantics.Push(old(Snapshot()))
    {
      register[SP] := register[SP] - 1;
      var regNum := RamRead(pc + 1);
      var stackAddress := register[SP];
      RamWrite(register[regNum], stackAddress);
      pc := pc + 2;
    }

    method Pop()
      requires Valid() && Semantics.PopPre(Snapshot())
      modifies this`pc, register
      ensures Valid()
      ensures Snapshot() == Semantics.Pop(old(Snapshot()))
    {
      var regNum := RamRead(pc + 1);
      var stackAddress := register[SP];
      var data := RamRead(stackAddress);
      register[regNum] := data;
      register[SP] := register[SP] + 1;
      pc := pc + 2;
    }

    method Ldi()
      requires Valid() && Semantics.LdiPre(Snapshot())
      modifies this`pc, register
      ensures Valid()
      ensures Snapshot() == Semantics.Ldi(old(Snapshot()))
    {
      var literal := RamRead(pc + 2);
      var regNum := RamRead(pc + 1);
      register[regNum] := literal;
      pc := pc + 3;
    }

    method Nop()
      requires Valid()
      modifies this`pc
      ensures Valid()
      ensures Snapshot() == Semantics.Nop(old(Snapshot()))
    {
      pc := pc + 1;
    }

    method Jmp()
      requires Valid() && Semantics.OperandRegister(Snapshot(), 1)
      modifies this`pc
      ensures Valid()
      ensures Snapshot() == Semantics.Jmp(old(Snapshot()))
    {
      var regAddress := RamRead(pc + 1);
      pc := register[regAddress];
    }

    method Jeq()
      requires Valid() && (fl == FlagEqual ==> Semantics.OperandRegister(Snapshot(), 1))
      modifies this`pc
      ensures Valid()
      ensures Snapshot() == Semantics.Jeq(old(Snapshot()))
    {
      if fl == FlagEqual {
        var regAddress := RamRead(pc + 1);
        pc := register[regAddress];
      } else {
        pc := pc + 2;
      }
    }

    method Jne()
      requires Valid() && (fl != FlagEqual ==> Semantics.OperandRegister(Snapshot(), 1))
      modifies this`pc
      ensures Valid()
      ensures Snapshot() == Semantics.Jne(old(Snapshot()))
    {
      if fl != FlagEqual {
        var regAddress := RamRead(pc + 1);
        pc := register[regAddress];
      } else {
        pc := pc + 2;
      }
    }

    /** Whether every address and register index handler h will use is in range. */
    method HandlerReady(h: Handler) returns (ok: bool)
      requires Valid()
      ensures ok == Semantics.HandlerPre(Snapshot(), h)
    {
      var operandNamesRegister :=
        Semantics.ValidAddress(pc + 1) && Semantics.ValidRegister(ram[pc + 1]);
      match h
      case NOP => ok := true;
      case HALT => ok := true;
      case PUSH => ok := operandNamesRegister && Semantics.ValidAddress(register[SP] - 1);
      case POP => ok := operandNamesRegister && Semantics.ValidAddress(register[SP]);
      case PRN => ok := operandNamesRegister;
      case LDI => ok := operandNamesRegister && Semantics.ValidAddress(pc + 2);
      case JMP => ok := operandNamesRegister;
      case JEQ => ok := fl == FlagEqual ==> operandNamesRegister;
      case JNE => ok := fl != FlagEqual ==> operandNamesRegister;
    }

    /** Calls the handler the instruction table maps an opcode to. */
    method Dispatch(h: Handler)
      requires Valid() && Semantics.HandlerPre(Snapshot(), h)
      modifies this`pc, this`on, this`output, ram, register
      ensures Valid()
      ensures Snapshot() == Semantics.Execute(old(Snapshot()), h)
    {
      match h
      case NOP => Nop();
      case HALT => Halt();
      case PUSH => Push();
      case POP => Pop();
      case PRN => Prn();
      case LDI => Ldi();
      case JMP => Jmp();
      case JEQ => Jeq();
      case JNE => Jne();
    }

    /** One iteration of the run loop: fetch, decode, execute. */
    method Step() returns (status: Semantics.Status)
      requires Valid()
      modifies this`pc, this`fl, this`on, this`output, ram, register
      ensures Valid()
      ensures Semantics.Transition(Snapshot(), status) == Semantics.Step(old(Snapshot()))
    {
      if !Semantics.ValidAddress(pc) {
        return Semantics.OutOfRange;
      }
      var instruction := RamRead(pc);
      match Decode(instruction)
      case AluInstr(op) =>
        if !Semantics.ValidAddress(pc + 1) || !Semantics.ValidAddress(pc + 2) {
          return Semantics.OutOfRange;
        }
        var regA := RamRead(pc + 1);
        var regB := RamRead(pc + 2);
        if !Semantics.AluRegistersValid(op, regA, regB) {
          return Semantics.OutOfRange;
        }
        Alu(op, regA, regB);
        status := Semantics.Running;
      case HandlerInstr(h) =>
        var ready := HandlerReady(h);
        if !ready {
          return Semantics.OutOfRange;
        }
        Dispatch(h);
        status := if h == HALT then Semantics.Halted else Semantics.Running;
      case Unknown =>
        status := Semantics.InvalidOpcode(instruction, pc);
    }

    /** run: set the running flag and step while it stays set, for at most
        `fuel` steps; an invalid opcode or an out-of-range access ends the loop. */
    method Run(fuel: nat) returns (status: Semantics.Status)
      requires Valid()
      modifies this`pc, this`fl, this`on, this`output, ram, register
      ensures Valid()
      ensures Semantics.Transition(Snapshot(), status) == Semantics.Run(old(Snapshot()), fuel)
    {
      on := true;
      var remaining := fuel;
      while on
        invariant Valid()
        invariant Semantics.Loop(Snapshot(), remaining) == Semantics.Run(old(Snapshot()), fuel)
        decreases remaining
      {
        if remaining == 0 {
          return Semantics.Running;
        }
        ghost var before := Snapshot();
        Properties.LoopStep(before, remaining);
        var stepStatus := Step();
        if stepStatus.InvalidOpcode? || stepStatus == Semantics.OutOfRange {
          return stepStatus;
        }
        remaining := remaining - 1;
      }
      status := Semantics.Halted;
    }
  }
}
