/**
 * The CPU object itself: memory and registers are lists the handlers update
 * in place, the other fields are reassigned.  Every method is proved to do
 * what the value-level definition in `Semantics` (or `Loader`) says: on
 * success the new state is the one that definition computes.  On a fault
 * the list-access and handler methods (and `Step`) report the same fault
 * and change nothing; `Run` keeps what the iterations before the faulting
 * one did, and `Load` keeps the cells stored before the faulting line.
 */
module Ls8 {
  import opened Wrappers
  import opened Isa
  import opened Semantics
  import opened Loader

  /**
   * `r` and the state `after` are what the value-level step `spec` prescribes
   * for the state `before`.
   */
  predicate Agrees(r: Result<(), Fault>, spec: Result<Machine, Fault>, before: Machine, after: Machine)
  {
    match spec
    case Ok(m) => r == Ok(()) && after == m
    case Err(f) => r == Err(f) && after == before
  }

  /** After one turn of `Loop` whose body succeeds, the rest of the loop ends as the whole would. */
  lemma LoopAdvances(body: Machine -> Result<Machine, Fault>, m: Machine, m': Machine, rest: nat, goal: Outcome)
    requires m.running && body(m) == Ok(m')
    requires Loop(body, m, rest + 1) == goal
    ensures Loop(body, m', rest) == goal
  {
  }

  /** One turn of `Loop` whose body faults. */
  lemma LoopFaults(body: Machine -> Result<Machine, Fault>, m: Machine, f: Fault, fuel: nat)
    requires m.running && fuel > 0 && body(m) == Err(f)
    ensures Loop(body, m, fuel) == Faulted(f, m)
  {
  }

  class Cpu {
    const ram: array<int>
    const reg: array<int>
    var pc: int
    var E: int
    var L: int
    var G: int
    var running: bool
    /** What PRN has printed, one value per call. */
    var out: seq<int>

    predicate Valid()
      reads this
    {
      ram.Length == RAM_SIZE && reg.Length == REG_COUNT && ram != reg
    }

    /** The fields as a value. */
    function Snapshot(): Machine
      reads this, ram, reg
    {
      Machine(ram[..], reg[..], pc, E, L, G, running, out)
    }

    /** `__init__`: 256 zeroed cells, 8 zeroed registers, PC and flags 0. */
    constructor ()
      ensures Valid() && Snapshot() == Fresh()
      ensures fresh(ram) && fresh(reg)
    {
      ram := new int[RAM_SIZE](_ => 0);
      reg := new int[REG_COUNT](_ => 0);
      pc := 0;
      E, L, G := 0, 0, 0;
      running := false;
      out := [];
    }

    // ----- list access -----

    /** `ram_read(address)`. */
    method RamRead(address: int) returns (r: Result<int, Fault>)
      requires Valid()
      ensures r == ReadRam(Snapshot(), address)
    {
      if InBounds(address, ram.Length) {
        r := Ok(ram[Slot(address, ram.Length)]);
      } else {
        r := Err(BadAddress(address));
      }
    }

    /** `ram_write(value, address)`. */
    method RamWrite(value: int, address: int) returns (r: Result<(), Fault>)
      requires Valid()
      modifies ram
      ensures Valid()
      ensures Agrees(r, WriteRam(old(Snapshot()), address, value), old(Snapshot()), Snapshot())
    {
      if InBounds(address, ram.Length) {
        ram[Slot(address, ram.Length)] := value;
        r := Ok(());
      } else {
        r := Err(BadAddress(address));
      }
    }

    /** `self.reg[index]`. */
    method RegRead(index: int) returns (r: Result<int, Fault>)
      requires Valid()
      ensures r == ReadReg(Snapshot(), index)
    {
      if InBounds(index, reg.Length) {
        r := Ok(reg[Slot(index, reg.Length)]);
      } else {
        r := Err(BadRegister(index));
      }
    }

    /** `self.reg[index] = value`. */
    method RegWrite(index: int, value: int) returns (r: Result<(), Fault>)
      requires Valid()
      modifies reg
      ensures Valid()
      ensures Agrees(r, WriteReg(old(Snapshot()), index, value), old(Snapshot()), Snapshot())
    {
      if InBounds(index, reg.Length) {
        reg[Slot(index, reg.Length)] := value;
        r := Ok(());
      } else {
        r := Err(BadRegister(index));
      }
    }

    /** `alu(op, reg_a, reg_b)`. */
    method Alu(op: string, a: int, b: int) returns (r: Result<(), Fault>)
      requires Valid()
      modifies reg
      ensures Valid()
      ensures Agrees(r, Semantics.Alu(old(Snapshot()), op, a, b), old(Snapshot()), Snapshot())
    {
      if op == "ADD" {
        var x :- RegRead(a);
        var y :- RegRead(b);
        r := RegWrite(a, x + y);
      } else if op == "MUL" {
        var x :- RegRead(a);
        var y :- RegRead(b);
        r := RegWrite(a, x * y);
      } else {
        r := Err(UnsupportedAluOp(op));
      }
    }

    // ----- the handlers -----

    method Prn() returns (r: Result<(), Fault>)
      requires Valid()
      modifies this`out
      ensures Valid()
      ensures Agrees(r, ExecPrn(old(Snapshot())), old(Snapshot()), Snapshot())
    {
      var a :- RamRead(pc + 1);
      var v :- RegRead(a);
      out := out + [v];
      r := Ok(());
    }

    method Ldi() returns (r: Result<(), Fault>)
      requires Valid()
      modifies reg
      ensures Valid()
      ensures Agrees(r, ExecLdi(old(Snapshot())), old(Snapshot()), Snapshot())
    {
      var a :- RamRead(pc + 1);
      var b :- RamRead(pc + 2);
      r := RegWrite(a, b);
    }

    method Hlt()
      requires Valid()
      modifies this`running
      ensures Valid()
      ensures Snapshot() == ExecHlt(old(Snapshot()))
    {
      running := false;
    }

    method Mul() returns (r: Result<(), Fault>)
      requires Valid()
      modifies reg
      ensures Valid()
      ensures Agrees(r, ExecMul(old(Snapshot())), old(Snapshot()), Snapshot())
    {
      var a :- RamRead(pc + 1);
      var b :- RamRead(pc + 2);
      r := Alu("MUL", a, b);
    }

    /** Both indexes are checked before SP moves; the register is read after it moves. */
    method Push() returns (r: Result<(), Fault>)
      requires Valid()
      modifies ram, reg
      ensures Valid()
      ensures Agrees(r, ExecPush(old(Snapshot())), old(Snapshot()), Snapshot())
    {
      var a :- RamRead(pc + 1);
      var sp := reg[SP] - 1;
      if !InBounds(a, reg.Length) {
        return Err(BadRegister(a));
      }
      if !InBounds(sp, ram.Length) {
        return Err(BadAddress(sp));
      }
      reg[SP] := sp;
      ram[Slot(sp, ram.Length)] := reg[Slot(a, reg.Length)];
      r := Ok(());
    }

    method Pop() returns (r: Result<(), Fault>)
      requires Valid()
      modifies reg
      ensures Valid()
      ensures Agrees(r, ExecPop(old(Snapshot())), old(Snapshot()), Snapshot())
    {
      var a :- RamRead(pc + 1);
      var v :- RamRead(reg[SP]);
      if !InBounds(a, reg.Length) {
        return Err(BadRegister(a));
      }
      reg[Slot(a, reg.Length)] := v;
      reg[SP] := reg[SP] + 1;
      r := Ok(());
    }

    /**
     * The operand byte is the one in memory after the return address is
     * stored, so it is worked out before anything is written.
     */
    method Call() returns (r: Result<(), Fault>)
      requires Valid()
      modifies this`pc, ram, reg
      ensures Valid()
      ensures Agrees(r, ExecCall(old(Snapshot())), old(Snapshot()), Snapshot())
    {
      var sp := reg[SP] - 1;
      if !InBounds(sp, ram.Length) {
        return Err(BadAddress(sp));
      }
      if !InBounds(pc + 1, ram.Length) {
        return Err(BadAddress(pc + 1));
      }
      var top, operand := Slot(sp, ram.Length), Slot(pc + 1, ram.Length);
      var a := if operand == top then pc + 2 else ram[operand];
      if !InBounds(a, reg.Length) {
        return Err(BadRegister(a));
      }
      reg[SP] := sp;
      ram[top] := pc + 2;
      pc := reg[Slot(a, reg.Length)];
      r := Ok(());
    }

    /** RET as written: PC becomes the byte at PC (the RET opcode itself) and SP is incremented; the stack is not read. */
    method Ret() returns (r: Result<(), Fault>)
      requires Valid()
      modifies this`pc, reg
      ensures Valid()
      ensures Agrees(r, ExecRetAsWritten(old(Snapshot())), old(Snapshot()), Snapshot())
    {
      var next :- RamRead(pc);
      reg[SP] := reg[SP] + 1;
      pc := next;
      r := Ok(());
    }

    /** Both registers are read before the flags are cleared and one of them is set. */
    method Cmp() returns (r: Result<(), Fault>)
      requires Valid()
      modifies this`E, this`L, this`G
      ensures Valid()
      ensures Agrees(r, ExecCmp(old(Snapshot())), old(Snapshot()), Snapshot())
    {
      var a :- RamRead(pc + 1);
      var x :- RegRead(a);
      var b :- RamRead(pc + 2);
      var y :- RegRead(b);
      E, L, G := 0, 0, 0;
      if x == y {
        E := 1;
      } else if x < y {
        L := 1;
      } else if x > y {
        G := 1;
      }
      r := Ok(());
    }

    method Jmp() returns (r: Result<(), Fault>)
      requires Valid()
      modifies this`pc
      ensures Valid()
      ensures Agrees(r, ExecJmp(old(Snapshot())), old(Snapshot()), Snapshot())
    {
      var a :- RamRead(pc + 1);
      var target :- RegRead(a);
      pc := target;
      r := Ok(());
    }

    method Jeq() returns (r: Result<(), Fault>)
      requires Valid()
      modifies this`pc
      ensures Valid()
      ensures Agrees(r, ExecJeq(old(Snapshot())), old(Snapshot()), Snapshot())
    {
      if E == 1 {
        r := Jmp();
      } else {
        pc := pc + 2;
        r := Ok(());
      }
    }

    method Jne() returns (r: Result<(), Fault>)
      requires Valid()
      modifies this`pc
      ensures Valid()
      ensures Agrees(r, ExecJne(old(Snapshot())), old(Snapshot()), Snapshot())
    {
      if E == 0 {
        r := Jmp();
      } else {
        pc := pc + 2;
        r := Ok(());
      }
    }

    // ----- the run loop -----

    /** `self.branchtable[op]()`: the handler registered for the instruction. */
    method Invoke(i: Instr) returns (r: Result<(), Fault>)
      requires Valid()
      modifies this, ram, reg
      ensures Valid()
      ensures Agrees(r, Execute(i, old(Snapshot())), old(Snapshot()), Snapshot())
    {
      match i
      case Prn => r := Prn();
      case Ldi => r := Ldi();
      case Hlt => Hlt(); r := Ok(());
      case Mul => r := Mul();
      case Push => r := Push();
      case Pop => r := Pop();
      case Call => r := Call();
      case Ret => r := Ret();
      case Cmp => r := Cmp();
      case Jmp => r := Jmp();
      case Jeq => r := Jeq();
      case Jne => r := Jne();
    }

    /** One iteration of the loop in `run`. */
    method Step() returns (r: Result<(), Fault>)
      requires Valid()
      modifies this, ram, reg
      ensures Valid()
      ensures Agrees(r, Next(old(Snapshot())), old(Snapshot()), Snapshot())
    {
      var op :- RamRead(pc);
      var operandA :- RamRead(pc + 1);
      var operandB :- RamRead(pc + 2);
      match Dispatch(op)
      case None =>
        r := Err(UnknownOpcode(op));
      case Some(i) =>
        var size := SizeOf(Opcode(i));
        var setsPc := SetsPc(Opcode(i));
        r := Invoke(i);
        if r.Ok? && !setsPc {
          pc := pc + size;
        }
    }

    /** `run()`, stopped after `fuel` iterations if HLT has not stopped it before. */
    method Run(fuel: nat) returns (outcome: Outcome)
      requires Valid()
      modifies this, ram, reg
      ensures Valid()
      ensures outcome == Semantics.Run(old(Snapshot()), fuel)
      ensures Snapshot() == outcome.state
    {
      reg[SP] := SP_START;
      running := true;
      ghost var goal := Semantics.Run(old(Snapshot()), fuel);
      var n := fuel;
      while running && n > 0
        invariant Valid()
        invariant Loop(Next, Snapshot(), n) == goal
        decreases n
      {
        ghost var before := Snapshot();
        var r := Step();
        if r.Err? {
          LoopFaults(Next, before, r.error, n);
          return Faulted(r.error, Snapshot());
        }
        n := n - 1;
        LoopAdvances(Next, before, Snapshot(), n, goal);
      }
      outcome := if running then OutOfFuel(Snapshot()) else Halted(Snapshot());
    }

    // ----- loading a program -----

    /** The loop of `load`, over the lines of the program file. */
    method Load(text: seq<string>) returns (r: Result<(), Fault>)
      requires Valid()
      modifies ram
      ensures Valid()
      ensures var l := LoadFrom(old(ram[..]), ReadLines(text), 0);
        ram[..] == l.ram && (if l.fault.None? then r == Ok(()) else r == Err(l.fault.value))
    {
      var address := 0;
      for i := 0 to |text|
        invariant LoadFrom(old(ram[..]), ReadLines(text), 0) == LoadFrom(ram[..], ReadLines(text)[i..], address)
      {
        ghost var lines := ReadLines(text)[i..];
        assert lines[0] == ReadLine(text[i]) && lines[1..] == ReadLines(text)[i + 1..];
        var num := CodePart(text[i]);
        if Strip(num) == [] {
          assert lines[0] == Blank;
          continue;
        }
        var v := ParseBase2(num);
        assert lines[0] == Literal(num, v);
        if v.None? {
          return Err(BadLiteral(num));
        }
        if address >= ram.Length {
          return Err(BadAddress(address));
        }
        ram[address] := v.value;
        address := address + 1;
      }
      r := Ok(());
    }
  }
}
