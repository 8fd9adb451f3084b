/** What the execution engine promises: the effect of each instruction on
    pc, registers, memory and FL, the stack round trip, and how the run loop
    ends. */
module Properties {
  import opened Isa
  import opened Semantics

  // ---------------------------------------------------------------- state and memory

  /** After construction SP holds 0xF4, the other registers and all 256 cells are 0,
      pc and FL are 0 and nothing has been printed. */
  lemma InitialState()
    ensures |Initial().ram| == 256 && |Initial().register| == 8
    ensures Initial().register[SP] == 0xF4
    ensures forall i :: 0 <= i < SP ==> Initial().register[i] == 0
    ensures forall address :: 0 <= address < RamSize ==> Initial().ram[address] == 0
    ensures Initial().pc == 0 && Initial().fl == 0 && Initial().output == []
  {
  }

  /** Reading a cell after writing returns what was written there, every other
      cell keeps its value, and nothing but memory changes. */
  lemma ReadAfterWrite(s: State, data: int, address: int, other: int)
    requires WellFormed(s) && ValidAddress(address) && ValidAddress(other)
    ensures RamRead(RamWrite(s, data, address), other) ==
            if other == address then data else RamRead(s, other)
    ensures RamWrite(s, data, address).(ram := s.ram) == s
  {
  }

  /** Writing the value a cell already holds changes nothing. */
  lemma WriteBackUnchanged(s: State, address: int)
    requires WellFormed(s) && ValidAddress(address)
    ensures RamWrite(s, RamRead(s, address), address) == s
  {
  }

  /** Loading puts program[i] at address i and leaves the rest of memory and
      every other part of the state as it was. */
  lemma LoadPlaces(s: State, program: seq<int>, address: int)
    requires WellFormed(s) && |program| <= RamSize && ValidAddress(address)
    ensures RamRead(Load(s, program), address) ==
            if address < |program| then program[address] else RamRead(s, address)
    ensures Load(s, program).(ram := s.ram) == s
  {
  }

  // ---------------------------------------------------------------- ALU

  /** CMP sets FL to exactly one of Less, Greater and Equal, the one that
      matches the relation between the two registers; it changes no register
      or cell and advances pc by 3. */
  lemma CmpFlags(s: State, a: int, b: int)
    requires WellFormed(s) && AluRegistersValid(CMP, a, b)
    ensures var r := Alu(s, CMP, a, b);
      (r.fl == FlagLess <==> s.register[a] < s.register[b]) &&
      (r.fl == FlagGreater <==> s.register[a] > s.register[b]) &&
      (r.fl == FlagEqual <==> s.register[a] == s.register[b])
    ensures var r := Alu(s, CMP, a, b);
      r.fl == FlagLess || r.fl == FlagGreater || r.fl == FlagEqual
    ensures Alu(s, CMP, a, b) == s.(fl := Alu(s, CMP, a, b).fl, pc := s.pc + 3)
  {
  }

  /** MUL stores the unmasked product in reg_a, advances pc by 3 and
      touches no other register, FL or memory. */
  lemma MulEffect(s: State, a: int, b: int)
    requires WellFormed(s) && AluRegistersValid(MUL, a, b)
    ensures var r := Alu(s, MUL, a, b);
      r.register[a] == s.register[a] * s.register[b] &&
      (forall i :: 0 <= i < RegisterCount && i != a ==> r.register[i] == s.register[i])
    ensures Alu(s, MUL, a, b) == s.(register := Alu(s, MUL, a, b).register, pc := s.pc + 3)
  {
  }

  /** The arithmetic operations write reg_a only and leave FL and memory alone;
      every operation advances pc past its opcode and operands. */
  lemma AluFrame(s: State, op: AluOp, a: int, b: int, i: int)
    requires WellFormed(s) && AluRegistersValid(op, a, b)
    ensures Alu(s, op, a, b).pc == s.pc + 1 + AluOperands(op)
    ensures Alu(s, op, a, b).ram == s.ram && Alu(s, op, a, b).output == s.output
    ensures Alu(s, op, a, b).on == s.on
    ensures op != CMP ==> Alu(s, op, a, b).fl == s.fl
    ensures op != CMP && ValidRegister(i) && i != a ==> Alu(s, op, a, b).register[i] == s.register[i]
  {
  }

  /** `&` of two non-negative values is non-negative and at most either operand. */
  lemma {:induction false} BitAndBounds(x: int, y: int)
    requires 0 <= x && 0 <= y
    ensures 0 <= BitAnd(x, y) <= x && BitAnd(x, y) <= y
    decreases x + y
  {
    if x != 0 && y != 0 {
      BitAndBounds(x / 2, y / 2);
      assert x == 2 * (x / 2) + x % 2 && y == 2 * (y / 2) + y % 2;
    }
  }

  /** `&` is commutative, for operands of any sign. */
  lemma {:induction false} BitAndCommutes(x: int, y: int)
    ensures BitAnd(x, y) == BitAnd(y, x)
    decreases (if x < 0 then -x else x) + (if y < 0 then -y else y)
  {
    if x != 0 && y != 0 && x != -1 && y != -1 {
      BitAndCommutes(x / 2, y / 2);
    }
  }

  /** `x & x` is x, for operands of any sign. */
  lemma {:induction false} BitAndIdempotent(x: int)
    ensures BitAnd(x, x) == x
    decreases if x < 0 then -x else x
  {
    if x != 0 && x != -1 {
      BitAndIdempotent(x / 2);
    }
  }

  /** Python's `&` on a few operand pairs of either sign: a bitwise AND, not a minimum. */
  lemma BitAndExamples()
    ensures BitAnd(12, 10) == 8 && BitAnd(-6, 3) == 2 && BitAnd(-8, -3) == -8
  {
  }

  /** 2 to the power k. */
  function Pow2(k: nat): (p: nat)
    ensures p >= 1
  {
    if k == 0 then 1 else 2 * Pow2(k - 1)
  }

  /** A multiple of d other than 0 is at least d away from 0. */
  lemma {:induction false} MultipleBound(d: int, t: int)
    requires d >= 1 && t != 0
    ensures if t > 0 then d * t >= d else d * t <= -d
    decreases if t < 0 then -t else t
  {
    if t > 1 {
      MultipleBound(d, t - 1);
      assert d * t == d * (t - 1) + d;
    } else if t < -1 {
      MultipleBound(d, t + 1);
      assert d * t == d * (t + 1) - d;
    }
  }

  /** The remainder is the unique b with x == d * a + b and 0 <= b < d. */
  lemma RemainderUnique(x: int, d: int, a: int, b: int)
    requires d >= 1 && x == d * a + b && 0 <= b < d
    ensures x % d == b
  {
    var q := x / d;
    assert d * (a - q) == x % d - b;
    if a != q {
      MultipleBound(d, a - q);
    }
  }

  /** The remainder on division by 2d, from the halves of x. */
  lemma HalvingRemainder(x: int, d: int)
    requires d >= 1
    ensures x % (2 * d) == 2 * ((x / 2) % d) + x % 2
  {
    var q, r := x / 2, x % 2;
    var a, b := q / d, q % d;
    assert x == (2 * d) * a + (2 * b + r);
    RemainderUnique(x, 2 * d, a, 2 * b + r);
  }

  /** -1 is all ones: its remainder on division by d is d - 1. */
  lemma MinusOneRemainder(d: int)
    requires d >= 1
    ensures -1 % d == d - 1
  {
    assert -1 == d * -1 + (d - 1);
  }

  /** One unfolding of `x & (2m - 1)`: the low bit of x, and the rest of x
      ANDed with m - 1. */
  lemma BitAndOddMask(x: int, m: int)
    requires m >= 1 && x != 0 && x != -1
    ensures BitAnd(x, 2 * m - 1) == 2 * BitAnd(x / 2, m - 1) + x % 2
  {
    var y := 2 * m - 1;
    assert y / 2 == m - 1 && y % 2 == 1;
  }

  /** AND with 2^k - 1 keeps the low k bits: for any sign, `x & (2^k - 1)` is
      `x mod 2^k`, so `x & 0xFF` is the 8-bit value of x. */
  lemma {:induction false} BitAndLowBits(x: int, k: nat)
    ensures BitAnd(x, Pow2(k) - 1) == x % Pow2(k)
    decreases k
  {
    if k == 0 {
      assert BitAnd(x, 0) == 0;
    } else if x == -1 {
      MinusOneRemainder(Pow2(k));
    } else if x != 0 {
      var m := Pow2(k - 1);
      BitAndOddMask(x, m);
      BitAndLowBits(x / 2, k - 1);
      HalvingRemainder(x, m);
    }
  }

  // ---------------------------------------------------------------- handlers

  /** LDI loads the literal after the register byte and advances pc by 3. */
  lemma LdiEffect(s: State)
    requires WellFormed(s) && LdiPre(s)
    ensures Ldi(s).register[s.ram[s.pc + 1]] == s.ram[s.pc + 2]
    ensures forall i :: 0 <= i < RegisterCount && i != s.ram[s.pc + 1] ==>
      Ldi(s).register[i] == s.register[i]
    ensures Ldi(s) == s.(register := Ldi(s).register, pc := s.pc + 3)
  {
  }

  /** PUSH lowers SP by 1 and stores the named register at the new SP; for
      `PUSH 7` that is the lowered SP itself. pc advances by 2. */
  lemma PushEffect(s: State)
    requires WellFormed(s) && PushPre(s)
    ensures var sp, r := s.register[SP] - 1, s.ram[s.pc + 1];
      Push(s) == s.(register := s.register[SP := sp],
                    ram := s.ram[sp := if r == SP then sp else s.register[r]],
                    pc := s.pc + 2)
  {
  }

  /** POP loads the cell at SP into the named register and then raises SP by 1;
      for `POP 7` SP ends at the popped value + 1. pc advances by 2. */
  lemma PopEffect(s: State)
    requires WellFormed(s) && PopPre(s)
    ensures var r, v := s.ram[s.pc + 1], s.ram[s.register[SP]];
      Pop(s) == s.(register := if r == SP then s.register[SP := v + 1]
                               else s.register[r := v][SP := s.register[SP] + 1],
                   pc := s.pc + 2)
  {
  }

  /** PRN appends the value of its register to the output and advances pc by 2. */
  lemma PrnEffect(s: State)
    requires WellFormed(s) && OperandRegister(s, 1)
    ensures Prn(s).output == s.output + [s.register[s.ram[s.pc + 1]]]
    ensures Prn(s) == s.(output := Prn(s).output, pc := s.pc + 2)
  {
  }

  /** Where pc goes: HALT leaves it, a taken jump loads the register named by
      the operand byte, and every other instruction steps over its operands. */
  lemma PcAdvance(s: State, h: Handler)
    requires WellFormed(s) && HandlerPre(s, h)
    ensures Execute(s, h).pc ==
      if h == HALT then s.pc
      else if IsJump(h) && Taken(h, s.fl) then s.register[s.ram[s.pc + 1]]
      else s.pc + 1 + HandlerOperands(h)
  {
  }

  /** What each handler leaves alone: no handler writes FL; only PUSH writes
      memory, only PUSH, POP and LDI write registers, only PRN prints and only
      HALT clears the running flag. */
  lemma HandlerFrame(s: State, h: Handler)
    requires WellFormed(s) && HandlerPre(s, h)
    ensures Execute(s, h).fl == s.fl
    ensures h != PUSH ==> Execute(s, h).ram == s.ram
    ensures h != PUSH && h != POP && h != LDI ==> Execute(s, h).register == s.register
    ensures h != PRN ==> Execute(s, h).output == s.output
    ensures Execute(s, h).on == (s.on && h != HALT)
  {
  }

  /** JMP always, JEQ exactly when FL is Equal, JNE exactly when it is not:
      pc becomes the register value; otherwise pc advances by 2. Nothing else changes. */
  lemma JumpEffect(s: State, h: Handler)
    requires WellFormed(s) && IsJump(h) && HandlerPre(s, h)
    ensures Taken(h, s.fl) ==> Execute(s, h) == s.(pc := s.register[s.ram[s.pc + 1]])
    ensures !Taken(h, s.fl) ==> Execute(s, h) == s.(pc := s.pc + 2)
    ensures h == JEQ ==> (Taken(h, s.fl) <==> s.fl == FlagEqual)
    ensures h == JNE ==> (Taken(h, s.fl) <==> s.fl != FlagEqual)
  {
  }

  /** Before any CMP, FL is 0, so JNE branches and JEQ does not. */
  lemma BranchesBeforeAnyCmp()
    ensures Taken(JNE, Initial().fl) && !Taken(JEQ, Initial().fl)
  {
  }

  /** PUSH r1 then POP r2 (neither the stack pointer) copies the old r1 into r2,
      returns SP to its prior value, leaves the pushed value in the stack cell
      and advances pc by 4; FL, the output and the running flag are unchanged.
      POP's operand byte is read from memory after the push, which may have
      overwritten it. */
  lemma PushPopRoundTrip(s: State, r2: int)
    requires WellFormed(s) && PushPre(s) && s.ram[s.pc + 1] != SP
    requires PopPre(Push(s)) && Push(s).ram[s.pc + 3] == r2 && r2 != SP
    ensures var t := Pop(Push(s));
      t.register[r2] == s.register[s.ram[s.pc + 1]] &&
      t.register[SP] == s.register[SP] &&
      t.pc == s.pc + 4
    ensures var t := Pop(Push(s));
      forall i :: 0 <= i < RegisterCount && i != r2 ==> t.register[i] == s.register[i]
    ensures Pop(Push(s)).ram == s.ram[s.register[SP] - 1 := s.register[s.ram[s.pc + 1]]]
    ensures Pop(Push(s)).fl == s.fl && Pop(Push(s)).output == s.output
    ensures Pop(Push(s)) == s.(
      register := s.register[r2 := s.register[s.ram[s.pc + 1]]],
      ram := s.ram[s.register[SP] - 1 := s.register[s.ram[s.pc + 1]]],
      pc := s.pc + 4)
  {
  }

  /** NOP only advances pc by 1. */
  lemma NopEffect(s: State)
    ensures Nop(s) == s.(pc := s.pc + 1)
  {
  }

  // ---------------------------------------------------------------- dispatch and the run loop

  /** A fetched handler opcode whose operands are in range runs exactly that
      handler; the step reports Halted for HALT and Running otherwise. */
  lemma StepRunsHandler(s: State, h: Handler)
    requires WellFormed(s) && ValidAddress(s.pc) && s.ram[s.pc] == HandlerOpcode(h)
    requires HandlerPre(s, h)
    ensures Step(s) == Transition(Execute(s, h), if h == HALT then Halted else Running)
  {
    DecodeHandler(s.ram[s.pc], h);
  }

  /** A fetched ALU opcode runs the ALU on the register indices in the two
      bytes after it. */
  lemma StepRunsAlu(s: State, op: AluOp)
    requires WellFormed(s) && ValidAddress(s.pc) && AluOpcode(op) == Some(s.ram[s.pc])
    requires ValidAddress(s.pc + 1) && ValidAddress(s.pc + 2)
    requires AluRegistersValid(op, s.ram[s.pc + 1], s.ram[s.pc + 2])
    ensures Step(s) == Transition(Alu(s, op, s.ram[s.pc + 1], s.ram[s.pc + 2]), Running)
  {
    DecodeAlu(s.ram[s.pc], op);
  }

  /** A fetched ALU or handler opcode whose operands are not all in range stops
      the machine with no state change. */
  lemma StepOutOfRange(s: State)
    requires WellFormed(s) && ValidAddress(s.pc)
    requires match Decode(s.ram[s.pc])
      case AluInstr(op) =>
        !(ValidAddress(s.pc + 1) && ValidAddress(s.pc + 2) &&
          AluRegistersValid(op, s.ram[s.pc + 1], s.ram[s.pc + 2]))
      case HandlerInstr(h) => !HandlerPre(s, h)
      case Unknown => false
    ensures Step(s) == Transition(s, OutOfRange)
  {
  }

  /** HALT clears the running flag and leaves pc unchanged, so the loop stops right after it. */
  lemma HaltStopsLoop(s: State, fuel: nat)
    requires WellFormed(s) && s.on && ValidAddress(s.pc)
    requires s.ram[s.pc] == HandlerOpcode(HALT) && fuel >= 1
    ensures Loop(s, fuel) == Transition(s.(on := false), Halted)
  {
    DecodeHandler(s.ram[s.pc], HALT);
  }

  /** An opcode in neither table stops the loop at once, with no state change. */
  lemma InvalidOpcodeStopsLoop(s: State, fuel: nat)
    requires WellFormed(s) && s.on && ValidAddress(s.pc)
    requires Decode(s.ram[s.pc]) == Unknown && fuel >= 1
    ensures Loop(s, fuel) == Transition(s, InvalidOpcode(s.ram[s.pc], s.pc))
  {
  }

  /** One step of the loop when the step keeps the machine running. */
  lemma LoopUnfold(s: State, fuel: nat)
    requires WellFormed(s) && s.on && Step(s).status == Running
    ensures Loop(s, fuel + 1) == Loop(Step(s).state, fuel)
  {
  }

  /** Giving a finished run more fuel changes nothing: the outcome of a run that
      halted or failed does not depend on the bound. */
  lemma {:induction false} LoopFuelMonotone(s: State, fuel: nat, more: nat)
    requires WellFormed(s) && fuel <= more && Loop(s, fuel).status != Running
    ensures Loop(s, more) == Loop(s, fuel)
    decreases fuel
  {
    if s.on && fuel > 0 {
      var t := Step(s);
      LoopStep(s, fuel);
      LoopStep(s, more);
      if t.status == Running || t.status == Halted {
        LoopFuelMonotone(t.state, fuel - 1, more - 1);
      }
    }
  }

  /** One turn of the loop with fuel left and the running flag set: the step
      either keeps the loop going from its new state or ends it. */
  lemma LoopStep(s: State, fuel: nat)
    requires WellFormed(s) && s.on && fuel > 0
    ensures Loop(s, fuel) ==
      if Step(s).status == Running || Step(s).status == Halted
      then Loop(Step(s).state, fuel - 1)
      else Step(s)
  {
  }

  /** Running n steps and then m more is running n + m steps. */
  lemma {:induction false} LoopCompose(s: State, n: nat, m: nat)
    requires WellFormed(s)
    ensures Loop(s, n + m) ==
      if Loop(s, n).status == Running then Loop(Loop(s, n).state, m) else Loop(s, n)
    decreases n, 1
  {
    if !s.on {
      assert Loop(s, n + m) == Transition(s, Halted) == Loop(s, n);
    } else if n == 0 {
      assert Loop(s, 0) == Transition(s, Running);
    } else {
      LoopComposeStep(s, n, m);
    }
  }

  /** The case of LoopCompose where the first of the n steps is taken. */
  lemma {:induction false} LoopComposeStep(s: State, n: nat, m: nat)
    requires WellFormed(s) && s.on && n > 0
    ensures Loop(s, n + m) ==
      if Loop(s, n).status == Running then Loop(Loop(s, n).state, m) else Loop(s, n)
    decreases n, 0
  {
    var t := Step(s);
    LoopStep(s, n + m);
    LoopStep(s, n);
    if t.status == Running || t.status == Halted {
      LoopCompose(t.state, n - 1, m);
      assert Loop(s, n + m) == Loop(t.state, (n - 1) + m);
    }
  }
}
