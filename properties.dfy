/**
 * What each handler and the run loop promise, stated over the value model:
 * the exact effect of each instruction with everything else unchanged, the
 * engine's PC advance, and what a run looks like when it halts.
 */
module Properties {
  import opened Wrappers
  import opened Isa
  import opened Semantics

  /** The three bytes the run loop reads eagerly (`ram[pc]`, `ram[pc+1]`, `ram[pc+2]`) exist. */
  predicate FetchOk(m: Machine)
  {
    InBounds(m.pc, |m.ram|) && InBounds(m.pc + 1, |m.ram|) && InBounds(m.pc + 2, |m.ram|)
  }

  /** The byte `k` places after PC. */
  function Arg(m: Machine, k: int): int
    requires InBounds(m.pc + k, |m.ram|)
  {
    m.ram[Slot(m.pc + k, |m.ram|)]
  }

  /** Register `r`, indexed as Python would. */
  function Reg(m: Machine, r: int): int
    requires InBounds(r, |m.reg|)
  {
    m.reg[Slot(r, |m.reg|)]
  }

  /** Everything but the registers is equal. */
  predicate SameButRegs(m: Machine, m': Machine)
  {
    m'.ram == m.ram && m'.pc == m.pc && m'.E == m.E && m'.L == m.L && m'.G == m.G
    && m'.running == m.running && m'.out == m.out
  }

  /** Register `k` alone may differ. */
  predicate OtherRegsKept(m: Machine, m': Machine, k: nat)
  {
    |m'.reg| == |m.reg| && forall j :: 0 <= j < |m.reg| && j != k ==> m'.reg[j] == m.reg[j]
  }

  // ----- one iteration of the run loop -----

  /**
   * A step faults unless PC and the two bytes after it are valid indexes and
   * the opcode is in the dispatch table; an unknown opcode is reported as such.
   */
  lemma StepFetch(m: Machine)
    ensures Next(m).Ok? ==> FetchOk(m) && Dispatch(Arg(m, 0)).Some?
    ensures m.pc + 2 >= |m.ram| ==> Next(m).Err?
    ensures FetchOk(m) && Dispatch(Arg(m, 0)).None? ==> Next(m) == Err(UnknownOpcode(Arg(m, 0)))
  {
  }

  /** Handlers of instructions that do not set PC leave PC where it was. */
  lemma HandlerKeepsPc(i: Instr, m: Machine)
    requires !IsJump(i) && Execute(i, m).Ok?
    ensures Execute(i, m).value.pc == m.pc
  {
  }

  /**
   * After the handler, the engine adds the instruction's size (operand count
   * plus one) to PC exactly when the instruction does not set PC itself; for
   * CALL, RET, JMP, JEQ and JNE it leaves PC where the handler put it.
   */
  lemma StepAdvance(m: Machine, i: Instr)
    requires FetchOk(m) && Dispatch(Arg(m, 0)) == Some(i)
    ensures Next(m).Ok? <==> Execute(i, m).Ok?
    ensures Next(m).Ok? && IsJump(i) ==> Next(m).value == Execute(i, m).value
    ensures Next(m).Ok? && !IsJump(i) ==>
      Next(m).value == Execute(i, m).value.(pc := m.pc + OperandCount(i) + 1)
  {
    OpcodeLayout(i);
    if Execute(i, m).Ok? && !IsJump(i) {
      HandlerKeepsPc(i, m);
    }
  }

  /** HLT only clears `running`; the engine then moves PC one past the HLT byte. */
  lemma HaltStep(m: Machine)
    requires FetchOk(m) && Arg(m, 0) == HLT
    ensures Next(m) == Ok(m.(running := false, pc := m.pc + 1))
  {
    StepAdvance(m, Hlt);
  }

  /** Handlers other than HLT leave `running` alone. */
  lemma HandlerKeepsRunning(i: Instr, m: Machine)
    requires i != Hlt && Execute(i, m).Ok?
    ensures Execute(i, m).value.running == m.running
  {
  }

  /** No instruction but HLT changes `running`. */
  lemma OnlyHaltStops(m: Machine)
    requires Next(m).Ok?
    ensures InBounds(m.pc, |m.ram|)
    ensures Arg(m, 0) == HLT ==> Next(m).value == m.(running := false, pc := m.pc + 1)
    ensures Arg(m, 0) != HLT ==> Next(m).value.running == m.running
  {
    StepFetch(m);
    var i := Dispatch(Arg(m, 0)).value;
    StepAdvance(m, i);
    if i == Hlt {
      HaltStep(m);
    } else {
      HandlerKeepsRunning(i, m);
    }
  }

  /** The machine a halted run ends in: stopped, one byte past a HLT. */
  predicate StoppedAfterHlt(s: Machine)
  {
    !s.running && InBounds(s.pc - 1, |s.ram|) && s.ram[Slot(s.pc - 1, |s.ram|)] == HLT
  }

  /** A step that stops the machine leaves it one byte past the HLT it executed. */
  lemma StopStep(m: Machine)
    requires m.running && Next(m).Ok? && !Next(m).value.running
    ensures StoppedAfterHlt(Next(m).value)
  {
    OnlyHaltStops(m);
  }

  // ----- the loop -----

  /** A loop that halts or faults ends the same way with any larger fuel. */
  lemma {:induction false} LoopFuelMonotone(body: Machine -> Result<Machine, Fault>, m: Machine, fuel: nat, more: nat)
    requires fuel <= more && !Loop(body, m, fuel).OutOfFuel?
    ensures Loop(body, m, more) == Loop(body, m, fuel)
    decreases fuel
  {
    if m.running {
      match body(m)
      case Err(_) =>
      case Ok(m') => LoopFuelMonotone(body, m', fuel - 1, more - 1);
    }
  }

  /** A loop that halts was stopped by its last turn, taken from a running machine. */
  lemma {:induction false} HaltingTurn(body: Machine -> Result<Machine, Fault>, m: Machine, fuel: nat)
    returns (last: Machine)
    requires m.running && Loop(body, m, fuel).Halted?
    ensures last.running && body(last) == Ok(Loop(body, m, fuel).state)
    ensures !Loop(body, m, fuel).state.running
    decreases fuel
  {
    var m' := body(m).value;
    if m'.running {
      last := HaltingTurn(body, m', fuel - 1);
    } else {
      last := m;
    }
  }

  /** A run that halts stops one byte past a HLT instruction. */
  lemma RunHaltsAfterHlt(m: Machine, fuel: nat)
    requires WellFormed(m) && Run(m, fuel).Halted?
    ensures StoppedAfterHlt(Run(m, fuel).state)
  {
    var last := HaltingTurn(Next, Boot(m), fuel);
    StopStep(last);
  }

  /** Giving a run that halts or faults more fuel does not change how it ends. */
  lemma RunFuelMonotone(m: Machine, fuel: nat, more: nat)
    requires WellFormed(m) && fuel <= more && !Run(m, fuel).OutOfFuel?
    ensures Run(m, more) == Run(m, fuel)
  {
    LoopFuelMonotone(Next, Boot(m), fuel, more);
  }

  // ----- the handlers -----

  /** PRN appends `reg[ram[pc+1]]` to the output and changes nothing else. */
  lemma PrnEffect(m: Machine)
    requires WellFormed(m) && InBounds(m.pc + 1, RAM_SIZE)
    ensures ExecPrn(m).Ok? <==> InBounds(Arg(m, 1), REG_COUNT)
    ensures ExecPrn(m).Ok? ==>
      var r := ExecPrn(m).value;
      r.out == m.out + [Reg(m, Arg(m, 1))] && r == m.(out := r.out)
  {
  }

  /** LDI sets `reg[ram[pc+1]]` to the literal `ram[pc+2]`; no other register, cell or flag changes. */
  lemma LdiEffect(m: Machine)
    requires WellFormed(m) && InBounds(m.pc + 1, RAM_SIZE) && InBounds(m.pc + 2, RAM_SIZE)
    ensures ExecLdi(m).Ok? <==> InBounds(Arg(m, 1), REG_COUNT)
    ensures ExecLdi(m).Ok? ==>
      var r := ExecLdi(m).value;
      WellFormed(r) && Reg(r, Arg(m, 1)) == Arg(m, 2)
      && OtherRegsKept(m, r, Slot(Arg(m, 1), REG_COUNT)) && SameButRegs(m, r)
  {
  }

  /** MUL sets `reg[a]` to the unmasked product `reg[a] * reg[b]`; nothing else changes. */
  lemma MulEffect(m: Machine)
    requires WellFormed(m) && InBounds(m.pc + 1, RAM_SIZE) && InBounds(m.pc + 2, RAM_SIZE)
    ensures ExecMul(m).Ok? <==> InBounds(Arg(m, 1), REG_COUNT) && InBounds(Arg(m, 2), REG_COUNT)
    ensures ExecMul(m).Ok? ==>
      var r := ExecMul(m).value;
      WellFormed(r) && Reg(r, Arg(m, 1)) == Reg(m, Arg(m, 1)) * Reg(m, Arg(m, 2))
      && OtherRegsKept(m, r, Slot(Arg(m, 1), REG_COUNT)) && SameButRegs(m, r)
  {
  }

  /** The ALU knows ADD and MUL and rejects every other operation name without changing anything. */
  lemma AluOps(m: Machine, op: string, a: int, b: int)
    requires WellFormed(m)
    ensures op != "ADD" && op != "MUL" ==> Alu(m, op, a, b) == Err(UnsupportedAluOp(op))
    ensures (op == "ADD" || op == "MUL") ==>
      (Alu(m, op, a, b).Ok? <==> InBounds(a, REG_COUNT) && InBounds(b, REG_COUNT))
    ensures Alu(m, op, a, b).Ok? ==>
      var r := Alu(m, op, a, b).value;
      WellFormed(r) && OtherRegsKept(m, r, Slot(a, REG_COUNT)) && SameButRegs(m, r)
      && Reg(r, a) == (if op == "ADD" then Reg(m, a) + Reg(m, b) else Reg(m, a) * Reg(m, b))
  {
  }

  /** PUSH decrements SP and then stores the register at the new top of the stack. */
  lemma PushEffect(m: Machine)
    requires WellFormed(m) && InBounds(m.pc + 1, RAM_SIZE)
    ensures var sp := m.reg[SP] - 1;
      ExecPush(m).Ok? <==> InBounds(Arg(m, 1), REG_COUNT) && InBounds(sp, RAM_SIZE)
    ensures ExecPush(m).Ok? ==>
      var sp := m.reg[SP] - 1;
      var r := ExecPush(m).value;
      r.reg == m.reg[SP := sp]
      && r.ram == m.ram[Slot(sp, RAM_SIZE) := r.reg[Slot(Arg(m, 1), REG_COUNT)]]
      && r == m.(reg := r.reg, ram := r.ram)
  {
  }

  /** POP loads the top of the stack into the register and then increments SP. */
  lemma PopEffect(m: Machine)
    requires WellFormed(m) && InBounds(m.pc + 1, RAM_SIZE)
    ensures ExecPop(m).Ok? <==> InBounds(m.reg[SP], RAM_SIZE) && InBounds(Arg(m, 1), REG_COUNT)
    ensures ExecPop(m).Ok? ==>
      var loaded := m.reg[Slot(Arg(m, 1), REG_COUNT) := m.ram[Slot(m.reg[SP], RAM_SIZE)]];
      ExecPop(m).value == m.(reg := loaded[SP := loaded[SP] + 1])
  {
  }

  /** PUSH as the engine runs it: the handler's effect, then PC two bytes on. */
  lemma PushStep(m: Machine)
    requires FetchOk(m) && Arg(m, 0) == PUSH
    ensures Next(m).Ok? <==> ExecPush(m).Ok?
    ensures Next(m).Ok? ==> Next(m).value == ExecPush(m).value.(pc := m.pc + 2)
  {
    StepAdvance(m, Push);
  }

  /** POP as the engine runs it: the handler's effect, then PC two bytes on. */
  lemma PopStep(m: Machine)
    requires FetchOk(m) && Arg(m, 0) == POP
    ensures Next(m).Ok? <==> ExecPop(m).Ok?
    ensures Next(m).Ok? ==> Next(m).value == ExecPop(m).value.(pc := m.pc + 2)
  {
    StepAdvance(m, Pop);
  }

  /**
   * A PUSH of register a followed by a POP into register b (neither of them
   * SP, and the pushed cell not overwriting the POP instruction) leaves in
   * register b the old value of register a, SP as it was, and PC four bytes on.
   */
  lemma PushPopRoundTrip(m: Machine, a: int, b: int)
    requires WellFormed(m) && 0 <= m.pc && m.pc + 4 < RAM_SIZE
    requires m.ram[m.pc] == PUSH && m.ram[m.pc + 1] == a
    requires m.ram[m.pc + 2] == POP && m.ram[m.pc + 3] == b
    requires InBounds(a, REG_COUNT) && Slot(a, REG_COUNT) != SP
    requires InBounds(b, REG_COUNT) && Slot(b, REG_COUNT) != SP
    requires InBounds(m.reg[SP] - 1, RAM_SIZE)
    requires Slot(m.reg[SP] - 1, RAM_SIZE) != m.pc + 2 && Slot(m.reg[SP] - 1, RAM_SIZE) != m.pc + 3
    ensures Next(m).Ok? && Next(Next(m).value).Ok?
    ensures var r := Next(Next(m).value).value;
      WellFormed(r) && r.reg[Slot(b, REG_COUNT)] == m.reg[Slot(a, REG_COUNT)]
      && r.reg[SP] == m.reg[SP] && r.pc == m.pc + 4
      && OtherRegsKept(m, r, Slot(b, REG_COUNT))
  {
    var sp := m.reg[SP] - 1;
    PushEffect(m);
    PushStep(m);
    var m1 := Next(m).value;
    assert m1.reg == m.reg[SP := sp];
    assert m1.ram == m.ram[Slot(sp, RAM_SIZE) := m.reg[Slot(a, REG_COUNT)]];
    assert m1.pc == m.pc + 2 && Arg(m1, 0) == POP && Arg(m1, 1) == b;
    PopEffect(m1);
    PopStep(m1);
  }

  /**
   * CALL decrements SP, stores PC+2 at the new top of the stack, then reads
   * its operand byte (from memory as just updated) and jumps to that register.
   */
  lemma CallEffect(m: Machine)
    requires WellFormed(m) && InBounds(m.pc + 1, RAM_SIZE)
    ensures var sp := m.reg[SP] - 1;
      ExecCall(m).Ok? <==> (InBounds(sp, RAM_SIZE)
        && InBounds(m.ram[Slot(sp, RAM_SIZE) := m.pc + 2][Slot(m.pc + 1, RAM_SIZE)], REG_COUNT))
    ensures ExecCall(m).Ok? ==>
      var sp := m.reg[SP] - 1;
      var ram := m.ram[Slot(sp, RAM_SIZE) := m.pc + 2];
      var regs := m.reg[SP := sp];
      ExecCall(m).value == m.(ram := ram, reg := regs, pc := regs[Slot(ram[Slot(m.pc + 1, RAM_SIZE)], REG_COUNT)])
  {
  }

  /** RET pops the return address into PC and increments SP; nothing else changes. */
  lemma RetEffect(m: Machine)
    requires WellFormed(m)
    ensures ExecRet(m).Ok? <==> InBounds(m.reg[SP], RAM_SIZE)
    ensures ExecRet(m).Ok? ==>
      ExecRet(m).value == m.(reg := m.reg[SP := m.reg[SP] + 1], pc := m.ram[Slot(m.reg[SP], RAM_SIZE)])
  {
  }

  /**
   * RET as the engine runs it: the written handler, with PC left where it put
   * it, which is address 17, the RET opcode's own value.
   */
  lemma RetStep(m: Machine)
    requires FetchOk(m) && Arg(m, 0) == RET
    ensures Next(m) == ExecRetAsWritten(m)
    ensures Next(m).Ok? ==> Next(m).value.pc == RET
  {
    StepAdvance(m, Ret);
  }

  /** CALL as the engine runs it: PC is left where the handler put it. */
  lemma CallStep(m: Machine)
    requires FetchOk(m) && Arg(m, 0) == CALL
    ensures Next(m) == ExecCall(m)
  {
    StepAdvance(m, Call);
  }

  /**
   * With the intended RET, CALL followed by RET comes back to the byte after
   * the CALL instruction, with SP and every register as before the CALL;
   * memory keeps the return address below the top of the stack.
   */
  lemma CallRetRoundTrip(m: Machine)
    requires WellFormed(m) && ExecCall(m).Ok?
    ensures ExecRet(ExecCall(m).value) == Ok(m.(ram := ExecCall(m).value.ram, pc := m.pc + 2))
  {
    assert InBounds(m.pc + 1, RAM_SIZE);
    CallEffect(m);
    var m1 := ExecCall(m).value;
    var sp := m.reg[SP] - 1;
    assert m1.reg == m.reg[SP := sp] && m1.ram[Slot(sp, RAM_SIZE)] == m.pc + 2;
    RetEffect(m1);
    assert m1.reg[SP := sp + 1] == m.reg;
  }

  /**
   * RET as written lands on address 17, the value of its own opcode, instead
   * of reading the return address.
   */
  lemma RetAsWrittenLandsOnOpcode(m: Machine)
    requires WellFormed(m) && InBounds(m.pc, RAM_SIZE) && Arg(m, 0) == RET
    ensures ExecRetAsWritten(m) == Ok(m.(reg := m.reg[SP := m.reg[SP] + 1], pc := 17))
  {
  }

  /** The program of the RET defect: CALL at address 0 through register 1 (= 10) into a lone RET at 10. */
  function CallIntoRet(): (m: Machine)
    ensures WellFormed(m)
  {
    Boot(Fresh().(ram := Fresh().ram[0 := CALL][1 := 1][10 := RET], reg := Fresh().reg[1 := 10]))
  }

  /**
   * The defect on that program, as the run loop executes it: CALL goes to 10,
   * and the RET there goes to 17, while the intended RET comes back to 2.
   */
  lemma CallRetAsWrittenMissesReturn()
    ensures var m := CallIntoRet();
      Next(m).Ok? && Next(m).value.pc == 10
      && Next(Next(m).value).Ok? && Next(Next(m).value).value.pc == 17
      && ExecRet(Next(m).value).Ok? && ExecRet(Next(m).value).value.pc == 2
  {
    var m := CallIntoRet();
    CallStep(m);
    var m1 := Next(m).value;
    assert m1.pc == 10 && m1.ram[10] == RET;
    RetStep(m1);
  }

  /**
   * CMP leaves exactly one of E, L, G at 1 and the others at 0: E iff the
   * registers are equal, L iff the first is smaller, G iff it is larger.
   */
  lemma CmpEffect(m: Machine)
    requires WellFormed(m) && InBounds(m.pc + 1, RAM_SIZE) && InBounds(m.pc + 2, RAM_SIZE)
    ensures ExecCmp(m).Ok? <==> InBounds(Arg(m, 1), REG_COUNT) && InBounds(Arg(m, 2), REG_COUNT)
    ensures ExecCmp(m).Ok? ==>
      var r := ExecCmp(m).value;
      var x, y := Reg(m, Arg(m, 1)), Reg(m, Arg(m, 2));
      r.E in {0, 1} && r.L in {0, 1} && r.G in {0, 1} && r.E + r.L + r.G == 1
      && (r.E == 1 <==> x == y) && (r.L == 1 <==> x < y) && (r.G == 1 <==> x > y)
      && r == m.(E := r.E, L := r.L, G := r.G)
  {
  }

  /** JMP sets PC to `reg[ram[pc+1]]`; nothing else changes. */
  lemma JmpEffect(m: Machine)
    requires WellFormed(m) && InBounds(m.pc + 1, RAM_SIZE)
    ensures ExecJmp(m).Ok? <==> InBounds(Arg(m, 1), REG_COUNT)
    ensures ExecJmp(m).Ok? ==> ExecJmp(m).value == m.(pc := Reg(m, Arg(m, 1)))
  {
  }

  /**
   * JEQ jumps exactly when E is 1 and JNE exactly when E is 0, landing on the
   * register's value; otherwise PC moves two bytes on.  Only PC changes.
   */
  lemma ConditionalJumpEffect(m: Machine)
    requires WellFormed(m) && InBounds(m.pc + 1, RAM_SIZE)
    ensures ExecJeq(m) == (if m.E == 1 then ExecJmp(m) else Ok(m.(pc := m.pc + 2)))
    ensures ExecJne(m) == (if m.E == 0 then ExecJmp(m) else Ok(m.(pc := m.pc + 2)))
    ensures ExecJeq(m).Ok? ==> ExecJeq(m).value == m.(pc := ExecJeq(m).value.pc)
    ensures ExecJne(m).Ok? ==> ExecJne(m).value == m.(pc := ExecJne(m).value.pc)
    ensures m.E == 1 && ExecJeq(m).Ok? ==> ExecJeq(m).value.pc == Reg(m, Arg(m, 1))
    ensures m.E == 0 && ExecJne(m).Ok? ==> ExecJne(m).value.pc == Reg(m, Arg(m, 1))
  {
  }
}
