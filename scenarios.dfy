/** Whole programs run on a freshly constructed and loaded machine. */
module Scenarios {
  import opened Isa
  import opened Semantics
  import opened Properties

  /** The machine as `run` enters its loop after `program` was loaded. */
  function Booted(program: seq<int>): (s: State)
    requires |program| <= RamSize
    ensures WellFormed(s) && s.on && s.pc == 0
  {
    Load(Initial(), program).(on := true)
  }

  /** LDI r0,5; LDI r1,10; MUL r0,r1; PRN r0; HALT */
  const MultiplyProgram: seq<int> := [130, 0, 5, 130, 1, 10, 162, 0, 1, 71, 0, 1]

  /** LDI r0,3; PUSH r0; LDI r0,0; POP r1; PRN r1; HALT */
  const StackProgram: seq<int> := [130, 0, 3, 69, 0, 130, 0, 0, 70, 1, 71, 1, 1]

  /** LDI r0,20; LDI r1,20; MUL r0,r1; PRN r0; HALT */
  const WideProductProgram: seq<int> := [130, 0, 20, 130, 1, 20, 162, 0, 1, 71, 0, 1]

  /** LDI r0,6; JNE r0; HALT; PRN r0; HALT -- no CMP has run before the JNE. */
  const BranchProgram: seq<int> := [130, 0, 6, 86, 0, 1, 71, 0, 1]

  /** LDI r0,0; JMP r0 -- jumps back to address 0 for ever. */
  const SpinProgram: seq<int> := [130, 0, 0, 84, 0]

  /** A byte that no table knows. */
  const InvalidProgram: seq<int> := [255]

  /** 5 * 10 is printed as 50, after which the machine halts. */
  lemma MultiplyPrintsFifty(fuel: nat)
    requires fuel >= 5
    ensures Run(Load(Initial(), MultiplyProgram), fuel).status == Halted
    ensures Run(Load(Initial(), MultiplyProgram), fuel).state.output == [50]
  {
    var s0 := Booted(MultiplyProgram);
    StepRunsHandler(s0, LDI);
    var s1 := Ldi(s0);
    StepRunsHandler(s1, LDI);
    var s2 := Ldi(s1);
    StepRunsAlu(s2, MUL);
    var s3 := Alu(s2, MUL, 0, 1);
    assert s3.register[0] == 50;
    StepRunsHandler(s3, PRN);
    var s4 := Prn(s3);
    assert s4.output == [50];
    LoopUnfold(s0, fuel - 1);
    LoopUnfold(s1, fuel - 2);
    LoopUnfold(s2, fuel - 3);
    LoopUnfold(s3, fuel - 4);
    HaltStopsLoop(s4, fuel - 4);
  }

  /** StackProgram's machine after LDI r0,3; PUSH r0. */
  function StackPushed(): (s: State)
    ensures WellFormed(s) && s.on
  {
    var s0 := Booted(StackProgram);
    s0.(register := s0.register[0 := 3][SP := 0xF3], ram := s0.ram[0xF3 := 3], pc := 5)
  }

  /** The first two instructions of StackProgram store 3 at 0xF3 and lower SP to 0xF3. */
  lemma StackPushes(fuel: nat)
    requires fuel >= 2
    ensures Loop(Booted(StackProgram), fuel) == Loop(StackPushed(), fuel - 2)
  {
    var s0 := Booted(StackProgram);
    StepRunsHandler(s0, LDI);
    var s1 := Ldi(s0);
    StepRunsHandler(s1, PUSH);
    assert Push(s1) == StackPushed();
    LoopUnfold(s0, fuel - 1);
    LoopUnfold(s1, fuel - 2);
  }

  /** The rest of StackProgram pops the 3 into r1 and prints it. */
  lemma StackPopsAndPrints(fuel: nat)
    requires fuel >= 4
    ensures Loop(StackPushed(), fuel).status == Halted
    ensures Loop(StackPushed(), fuel).state.output == [3]
  {
    var s2 := StackPushed();
    StepRunsHandler(s2, LDI);
    var s3 := Ldi(s2);
    StepRunsHandler(s3, POP);
    var s4 := Pop(s3);
    assert s4.register[1] == 3;
    StepRunsHandler(s4, PRN);
    var s5 := Prn(s4);
    assert s5.output == [3];
    LoopUnfold(s2, fuel - 1);
    LoopUnfold(s3, fuel - 2);
    LoopUnfold(s4, fuel - 3);
    HaltStopsLoop(s5, fuel - 3);
  }

  /** A value pushed from r0 is popped into r1 and printed as 3. */
  lemma StackPrintsThree(fuel: nat)
    requires fuel >= 6
    ensures Run(Load(Initial(), StackProgram), fuel).status == Halted
    ensures Run(Load(Initial(), StackProgram), fuel).state.output == [3]
  {
    StackPushes(fuel);
    StackPopsAndPrints(fuel - 2);
  }

  /** Registers are not masked to 8 bits: 20 * 20 is printed as 400. */
  lemma ProductIsNotMasked(fuel: nat)
    requires fuel >= 5
    ensures Run(Load(Initial(), WideProductProgram), fuel).status == Halted
    ensures Run(Load(Initial(), WideProductProgram), fuel).state.output == [400]
  {
    var s0 := Booted(WideProductProgram);
    StepRunsHandler(s0, LDI);
    var s1 := Ldi(s0);
    StepRunsHandler(s1, LDI);
    var s2 := Ldi(s1);
    StepRunsAlu(s2, MUL);
    var s3 := Alu(s2, MUL, 0, 1);
    assert s3.register[0] == 400;
    StepRunsHandler(s3, PRN);
    var s4 := Prn(s3);
    LoopUnfold(s0, fuel - 1);
    LoopUnfold(s1, fuel - 2);
    LoopUnfold(s2, fuel - 3);
    LoopUnfold(s3, fuel - 4);
    HaltStopsLoop(s4, fuel - 4);
  }

  /** FL is 0 before any CMP, so JNE branches over the first HALT to the PRN. */
  lemma JneBranchesBeforeCmp(fuel: nat)
    requires fuel >= 4
    ensures Run(Load(Initial(), BranchProgram), fuel).status == Halted
    ensures Run(Load(Initial(), BranchProgram), fuel).state.output == [6]
  {
    var s0 := Booted(BranchProgram);
    StepRunsHandler(s0, LDI);
    var s1 := Ldi(s0);
    StepRunsHandler(s1, JNE);
    var s2 := Jne(s1);
    assert s2.pc == 6;
    StepRunsHandler(s2, PRN);
    var s3 := Prn(s2);
    LoopUnfold(s0, fuel - 1);
    LoopUnfold(s1, fuel - 2);
    LoopUnfold(s2, fuel - 3);
    HaltStopsLoop(s3, fuel - 3);
  }

  /** A byte in neither table stops the run at its address with nothing changed. */
  lemma InvalidOpcodeIsReported(fuel: nat)
    requires fuel >= 1
    ensures Run(Load(Initial(), InvalidProgram), fuel) ==
      Transition(Booted(InvalidProgram), InvalidOpcode(255, 0))
  {
    InvalidOpcodeStopsLoop(Booted(InvalidProgram), fuel);
  }

  /** Two steps of the spinning program bring the machine back to where it started. */
  lemma SpinCycle()
    ensures Step(Booted(SpinProgram)).status == Running
    ensures Step(Step(Booted(SpinProgram)).state) == Transition(Booted(SpinProgram), Running)
  {
    var s0 := Booted(SpinProgram);
    StepRunsHandler(s0, LDI);
    var s1 := Ldi(s0);
    assert s1.register == s0.register;
    StepRunsHandler(s1, JMP);
    assert Jmp(s1) == s0;
  }

  /** A program may loop for ever: the spinning program is still running
      however much fuel it is given. */
  lemma {:induction false} SpinNeverStops(fuel: nat)
    ensures Run(Load(Initial(), SpinProgram), fuel).status == Running
    decreases fuel
  {
    var s0 := Booted(SpinProgram);
    if fuel >= 2 {
      SpinCycle();
      var s1 := Step(s0).state;
      LoopUnfold(s0, fuel - 1);
      LoopUnfold(s1, fuel - 2);
      SpinNeverStops(fuel - 2);
    } else if fuel == 1 {
      SpinCycle();
      LoopUnfold(s0, 0);
    }
  }
}
