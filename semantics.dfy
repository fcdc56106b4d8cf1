/**
 * The LS-8 machine as values: the state the CPU class keeps, the effect of
 * each of the twelve handlers, one iteration of the run loop, and the loop
 * itself bounded by fuel.  Every handler reads exactly the list cells the
 * Python code reads, in the same order, so a fault is reported where the
 * Python code would raise.
 */
module Semantics {
  import opened Wrappers
  import opened Isa

  const RAM_SIZE: nat := 256
  const REG_COUNT: nat := 8
  /** Register 7 is the stack pointer. */
  const SP: nat := 7
  /** The stack pointer `run` starts from. */
  const SP_START: int := 244

  /** Python list indexing: `i` is a valid index of a list of length `n` when `-n <= i < n`. */
  predicate InBounds(i: int, n: nat)
  {
    -(n as int) <= i < n
  }

  /** The cell a valid Python index designates; a negative index counts from the end. */
  function Slot(i: int, n: nat): (k: nat)
    requires InBounds(i, n)
    ensures k < n
  {
    if i < 0 then i + n else i
  }

  /** Why a step cannot complete (the Python code raises at that point). */
  datatype Fault =
    | BadAddress(address: int)       // `ram[address]` raises IndexError
    | BadRegister(index: int)        // `reg[index]` raises IndexError
    | UnknownOpcode(op: int)         // `branchtable[op]` raises KeyError
    | UnsupportedAluOp(name: string) // `alu` raises "Unsupported ALU operation"
    | BadLiteral(text: string)       // `int(text, 2)` raises ValueError

  /**
   * The fields of a CPU object.  `out` collects, in order, the values that
   * PRN prints.
   */
  datatype Machine = Machine(
    ram: seq<int>, reg: seq<int>, pc: int,
    E: int, L: int, G: int,
    running: bool, out: seq<int>)

  predicate WellFormed(m: Machine)
  {
    |m.ram| == RAM_SIZE && |m.reg| == REG_COUNT
  }

  /** A freshly constructed CPU: zeroed memory and registers, PC and flags 0. */
  function Fresh(): (m: Machine)
    ensures WellFormed(m)
  {
    Machine(seq(RAM_SIZE, _ => 0), seq(REG_COUNT, _ => 0), 0, 0, 0, 0, false, [])
  }

  // ----- list access with Python's bounds -----

  function ReadRam(m: Machine, address: int): (r: Result<int, Fault>)
    ensures r.Ok? <==> InBounds(address, |m.ram|)
  {
    if InBounds(address, |m.ram|) then Ok(m.ram[Slot(address, |m.ram|)])
    else Err(BadAddress(address))
  }

  function ReadReg(m: Machine, index: int): (r: Result<int, Fault>)
    ensures r.Ok? <==> InBounds(index, |m.reg|)
  {
    if InBounds(index, |m.reg|) then Ok(m.reg[Slot(index, |m.reg|)])
    else Err(BadRegister(index))
  }

  function WriteRam(m: Machine, address: int, value: int): (r: Result<Machine, Fault>)
    ensures r.Ok? <==> InBounds(address, |m.ram|)
    ensures r.Ok? ==> |r.value.ram| == |m.ram| && r.value.reg == m.reg
  {
    if InBounds(address, |m.ram|) then Ok(m.(ram := m.ram[Slot(address, |m.ram|) := value]))
    else Err(BadAddress(address))
  }

  function WriteReg(m: Machine, index: int, value: int): (r: Result<Machine, Fault>)
    ensures r.Ok? <==> InBounds(index, |m.reg|)
    ensures r.Ok? ==> r.value.ram == m.ram && |r.value.reg| == |m.reg|
  {
    if InBounds(index, |m.reg|) then Ok(m.(reg := m.reg[Slot(index, |m.reg|) := value]))
    else Err(BadRegister(index))
  }

  /** `reg[SP] += delta`. */
  function MoveSp(m: Machine, delta: int): (r: Result<Machine, Fault>)
  {
    var sp :- ReadReg(m, SP);
    WriteReg(m, SP, sp + delta)
  }

  // ----- the ALU and the twelve handlers -----

  /** `alu(op, a, b)`: ADD and MUL update register a in place; any other name raises. */
  function Alu(m: Machine, op: string, a: int, b: int): (r: Result<Machine, Fault>)
  {
    if op == "ADD" then
      var x :- ReadReg(m, a);
      var y :- ReadReg(m, b);
      WriteReg(m, a, x + y)
    else if op == "MUL" then
      var x :- ReadReg(m, a);
      var y :- ReadReg(m, b);
      WriteReg(m, a, x * y)
    else
      Err(UnsupportedAluOp(op))
  }

  function ExecPrn(m: Machine): Result<Machine, Fault>
  {
    var a :- ReadRam(m, m.pc + 1);
    var v :- ReadReg(m, a);
    Ok(m.(out := m.out + [v]))
  }

  function ExecLdi(m: Machine): Result<Machine, Fault>
  {
    var a :- ReadRam(m, m.pc + 1);
    var b :- ReadRam(m, m.pc + 2);
    WriteReg(m, a, b)
  }

  function ExecHlt(m: Machine): Machine
  {
    m.(running := false)
  }

  function ExecMul(m: Machine): Result<Machine, Fault>
  {
    var a :- ReadRam(m, m.pc + 1);
    var b :- ReadRam(m, m.pc + 2);
    Alu(m, "MUL", a, b)
  }

  /** SP is decremented first, then the register is read (so PUSH of register 7 pushes the new SP). */
  function ExecPush(m: Machine): Result<Machine, Fault>
  {
    var a :- ReadRam(m, m.pc + 1);
    var m1 :- MoveSp(m, -1);
    var v :- ReadReg(m1, a);
    var sp :- ReadReg(m1, SP);
    WriteRam(m1, sp, v)
  }

  /** The register is written first, then SP is incremented (so POP into register 7 adds one to the popped value). */
  function ExecPop(m: Machine): Result<Machine, Fault>
  {
    var a :- ReadRam(m, m.pc + 1);
    var sp :- ReadReg(m, SP);
    var v :- ReadRam(m, sp);
    var m1 :- WriteReg(m, a, v);
    MoveSp(m1, 1)
  }

  /** The return address is stored before the operand byte is read. */
  function ExecCall(m: Machine): Result<Machine, Fault>
  {
    var m1 :- MoveSp(m, -1);
    var sp :- ReadReg(m1, SP);
    var m2 :- WriteRam(m1, sp, m.pc + 2);
    var a :- ReadRam(m2, m2.pc + 1);
    var target :- ReadReg(m2, a);
    Ok(m2.(pc := target))
  }

  /**
   * RET as written, and as the dispatch table registers it: PC becomes the
   * byte at PC, which is the RET opcode itself, and the stack is not read;
   * SP is still incremented.
   */
  function ExecRetAsWritten(m: Machine): Result<Machine, Fault>
  {
    var next :- ReadRam(m, m.pc);
    var m1 :- MoveSp(m, 1);
    Ok(m1.(pc := next))
  }

  /**
   * RET as intended: PC becomes the return address on top of the stack,
   * which is then popped.  Not in the dispatch table; it states what the
   * written RET should have done.
   */
  function ExecRet(m: Machine): Result<Machine, Fault>
  {
    var sp :- ReadReg(m, SP);
    var next :- ReadRam(m, sp);
    var m1 :- MoveSp(m, 1);
    Ok(m1.(pc := next))
  }

  /** The flags are cleared before the operands are read. */
  function ExecCmp(m: Machine): Result<Machine, Fault>
  {
    var m0 := m.(E := 0, L := 0, G := 0);
    var a :- ReadRam(m0, m0.pc + 1);
    var x :- ReadReg(m0, a);
    var b :- ReadRam(m0, m0.pc + 2);
    var y :- ReadReg(m0, b);
    if x == y then Ok(m0.(E := 1))
    else if x < y then Ok(m0.(L := 1))
    else Ok(m0.(G := 1))  // the source's third test, x > y, always holds here
  }

  function ExecJmp(m: Machine): Result<Machine, Fault>
  {
    var a :- ReadRam(m, m.pc + 1);
    var target :- ReadReg(m, a);
    Ok(m.(pc := target))
  }

  function ExecJeq(m: Machine): Result<Machine, Fault>
  {
    if m.E == 1 then ExecJmp(m) else Ok(m.(pc := m.pc + 2))
  }

  function ExecJne(m: Machine): Result<Machine, Fault>
  {
    if m.E == 0 then ExecJmp(m) else Ok(m.(pc := m.pc + 2))
  }

  /** Two machines whose memory and register file have the same lengths. */
  predicate SameShape(m: Machine, m': Machine)
  {
    |m'.ram| == |m.ram| && |m'.reg| == |m.reg|
  }

  /** The dispatch table: the handler registered for each instruction. */
  function Execute(i: Instr, m: Machine): (r: Result<Machine, Fault>)
    ensures r.Ok? ==> SameShape(m, r.value)
  {
    match i
    case Prn => ExecPrn(m)
    case Ldi => ExecLdi(m)
    case Hlt => Ok(ExecHlt(m))
    case Mul => ExecMul(m)
    case Push => ExecPush(m)
    case Pop => ExecPop(m)
    case Call => ExecCall(m)
    case Ret => ExecRetAsWritten(m)
    case Cmp => ExecCmp(m)
    case Jmp => ExecJmp(m)
    case Jeq => ExecJeq(m)
    case Jne => ExecJne(m)
  }

  // ----- the run loop -----

  /**
   * One iteration of the run loop: fetch the opcode and, eagerly, the two
   * bytes after it; look the opcode up; run its handler; then advance PC by
   * the decoded size unless the opcode's "sets PC" bit is set.  The source
   * decodes before it dispatches; a decode cannot raise, and it is only used
   * once dispatch has succeeded, when `op` is a listed opcode.
   */
  function Next(m: Machine): (r: Result<Machine, Fault>)
    ensures r.Ok? ==> SameShape(m, r.value)
  {
    var op :- ReadRam(m, m.pc);
    var operandA :- ReadRam(m, m.pc + 1);
    var operandB :- ReadRam(m, m.pc + 2);
    match Dispatch(op)
    case None => Err(UnknownOpcode(op))
    case Some(i) =>
      var after :- Execute(i, m);
      var code := Opcode(i);
      if SetsPc(code) then Ok(after) else Ok(after.(pc := after.pc + SizeOf(code)))
  }

  /** What `run` does before its loop: SP := 244 and running := True (PC and flags are kept). */
  function Boot(m: Machine): (m': Machine)
    requires WellFormed(m)
    ensures WellFormed(m')
  {
    m.(reg := m.reg[SP := SP_START], running := true)
  }

  /** How a bounded run ends; each carries the machine at that point (for a fault, before the faulting step). */
  datatype Outcome =
    | Halted(state: Machine)
    | Faulted(fault: Fault, state: Machine)
    | OutOfFuel(state: Machine)

  /** `while self.running: body`, for at most `fuel` iterations. */
  function Loop(body: Machine -> Result<Machine, Fault>, m: Machine, fuel: nat): Outcome
    decreases fuel
  {
    if !m.running then Halted(m)
    else if fuel == 0 then OutOfFuel(m)
    else match body(m)
      case Err(f) => Faulted(f, m)
      case Ok(m') => Loop(body, m', fuel - 1)
  }

  /** `run()`, with at most `fuel` iterations of its loop. */
  function Run(m: Machine, fuel: nat): Outcome
    requires WellFormed(m)
  {
    Loop(Next, Boot(m), fuel)
  }
}
