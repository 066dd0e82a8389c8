/** Value semantics of the LS-8 emulator in cpu.py.
    Every handler is a function from the machine state before the instruction to
    the state after it, or to the exception it raises together with the state the
    machine was in at that moment (a handler may have changed a field before the
    exception is raised, exactly as the Python code does). */
module Machine {

  const RegCount := 8
  const RamSize := 256
  /** Register 7 is the stack pointer. */
  const SP := 7

  datatype Option<T> = None | Some(value: T)

  /** The exceptions the Python code can raise while loading or running a program. */
  datatype Fault =
    | RamIndexError(index: int)             // IndexError on self.ram[...]
    | RegIndexError(index: int)             // IndexError on self.reg[...]
    | UnknownOpcode(opcode: int)            // KeyError on self.branchtable[IR]
    | UnsupportedAluOperation(op: string)   // Exception("Unsupported ALU operation")
    | InvalidLiteral(text: string)          // ValueError from int(num, 2)

  /** The fields of a CPU object; `halted` stands for the sys.exit(0) of HLT and
      `out` for the lines PRN prints. Values are unbounded, like Python ints. */
  datatype State = State(reg: seq<int>, ram: seq<int>, pc: int, fl: bool, halted: bool, out: seq<int>)

  predicate Wf(s: State) {
    |s.reg| == RegCount && |s.ram| == RamSize
  }

  /** A handler's result: the new state, or the exception raised and the state at that point. */
  datatype Result<T> = Ok(value: T) | Err(at: State, error: Fault) {
    predicate IsFailure() { Err? }
    function PropagateFailure<U>(): Result<U> requires Err? { Err(at, error) }
    function Extract(): T requires Ok? { value }
  }

  /** The state a handler leaves behind, whether it returned or raised. */
  function After(r: Result<State>): State {
    if r.Ok? then r.value else r.at
  }

  /** The state of a freshly constructed CPU: all registers (SP included) and
      all memory cells 0, pc 0, flag clear. */
  function Init(): (s: State)
    ensures Wf(s) && s.pc == 0 && !s.fl && !s.halted && s.out == []
    ensures forall i :: 0 <= i < RegCount ==> s.reg[i] == 0
    ensures forall i :: 0 <= i < RamSize ==> s.ram[i] == 0
  {
    State(seq(RegCount, _ => 0), seq(RamSize, _ => 0), 0, false, false, [])
  }

  // ---------------------------------------------------------------------------
  // Python list indexing

  /** The cell that Python's `xs[i]` denotes in a list of length n: indices in
      [-n, n) are valid and negative ones count from the end; any other index
      raises IndexError, here None. */
  function Slot(i: int, n: nat): (k: Option<nat>)
    ensures k.Some? <==> 0 <= i + n && i < n
    ensures k.Some? ==> k.value < n && k.value == (i + n) % n
  {
    if 0 <= i < n then
      assert (i + n) % n == i by { ModShift(i, n); }
      Some(i)
    else if 0 <= i + n && i < 0 then
      assert (i + n) % n == i + n;
      Some(i + n)
    else None
  }

  lemma ModShift(i: int, n: nat)
    requires 0 <= i < n
    ensures (i + n) % n == i
  {
  }

  /** Python's `xs[i]`. */
  function Index(xs: seq<int>, i: int): (r: Option<int>)
    ensures r.Some? <==> 0 <= i + |xs| && i < |xs|
    ensures r.Some? ==> r.value == xs[(i + |xs|) % |xs|]
  {
    match Slot(i, |xs|)
    case Some(k) => Some(xs[k])
    case None => None
  }

  /** ram[mar]: the cell Python's negative indexing selects, or IndexError. */
  function RamRead(s: State, address: int): (r: Result<int>)
    ensures r.Ok? <==> -|s.ram| <= address < |s.ram|
    ensures r.Ok? ==> r.value == s.ram[(address + |s.ram|) % |s.ram|]
    ensures r.Err? ==> r.at == s && r.error == RamIndexError(address)
  {
    match Index(s.ram, address)
    case Some(v) => Ok(v)
    case None => Err(s, RamIndexError(address))
  }

  function RegRead(s: State, r: int): (v: Result<int>)
    ensures v.Ok? <==> -|s.reg| <= r < |s.reg|
    ensures v.Ok? ==> v.value == s.reg[(r + |s.reg|) % |s.reg|]
    ensures v.Err? ==> v.at == s && v.error == RegIndexError(r)
  {
    match Index(s.reg, r)
    case Some(x) => Ok(x)
    case None => Err(s, RegIndexError(r))
  }

  /** ram[mar] = value: exactly one cell changes, or IndexError and nothing does. */
  function RamWrite(s: State, address: int, v: int): (r: Result<State>)
    ensures r.Ok? <==> -|s.ram| <= address < |s.ram|
    ensures r.Ok? ==> r.value == s.(ram := s.ram[(address + |s.ram|) % |s.ram| := v])
    ensures r.Err? ==> r.at == s && r.error == RamIndexError(address)
  {
    match Slot(address, |s.ram|)
    case Some(k) => Ok(s.(ram := s.ram[k := v]))
    case None => Err(s, RamIndexError(address))
  }

  function RegWrite(s: State, r: int, v: int): (t: Result<State>)
    ensures t.Ok? <==> -|s.reg| <= r < |s.reg|
    ensures t.Ok? ==> t.value == s.(reg := s.reg[(r + |s.reg|) % |s.reg| := v])
    ensures t.Err? ==> t.at == s && t.error == RegIndexError(r)
  {
    match Slot(r, |s.reg|)
    case Some(k) => Ok(s.(reg := s.reg[k := v]))
    case None => Err(s, RegIndexError(r))
  }

  /** What every handler except HLT guarantees, whether it returns or raises:
      the register file and memory keep their sizes, the equal flag is never
      cleared, output is only appended to, the machine does not halt, and the
      exception raised is never the dispatcher's KeyError. */
  predicate Keeps(s: State, r: Result<State>) {
    && Wf(After(r)) && (s.fl ==> After(r).fl) && s.out <= After(r).out && After(r).halted == s.halted
    && (r.Err? ==> !r.error.UnknownOpcode?)
  }

  // ---------------------------------------------------------------------------
  // The ALU

  /** alu(op, reg_a, reg_b): the six operation names it knows; any other name raises. */
  predicate IsAluOperation(op: string) {
    op == "ADD" || op == "MUL" || op == "CMP" || op == "JMP" || op == "JEQ" || op == "JNE"
  }

  function Alu(s: State, op: string, regA: int, regB: int): (r: Result<State>)
    requires Wf(s)
    ensures Keeps(s, r)
    ensures r.Err? && r.error.UnsupportedAluOperation? <==> !IsAluOperation(op)
  {
    if op == "ADD" then
      var x :- RegRead(s, regA);
      var y :- RegRead(s, regB);
      RegWrite(s, regA, x + y)
    else if op == "MUL" then
      var x :- RegRead(s, regA);
      var y :- RegRead(s, regB);
      RegWrite(s, regA, x * y)
    else if op == "CMP" then
      var x :- RegRead(s, regA);
      var y :- RegRead(s, regB);
      Ok(if x == y then s.(fl := true) else s)
    else if op == "JMP" then
      var target :- RegRead(s, regA);
      Ok(s.(pc := target))
    else if op == "JEQ" then
      if s.fl then
        var target :- RegRead(s, regA);
        Ok(s.(pc := target))
      else Ok(s.(pc := s.pc + 2))
    else if op == "JNE" then
      if !s.fl then
        var target :- RegRead(s, regA);
        Ok(s.(pc := target))
      else Ok(s.(pc := s.pc + 2))
    else
      Err(s, UnsupportedAluOperation(op))
  }

  // ---------------------------------------------------------------------------
  // The thirteen handlers. Operands are read from ram[pc+1] and ram[pc+2].

  function Ldi(s: State): (r: Result<State>)
    requires Wf(s)
    ensures Keeps(s, r)
  {
    var a :- RamRead(s, s.pc + 1);
    var b :- RamRead(s, s.pc + 2);
    var t :- RegWrite(s, a, b);
    Ok(t.(pc := s.pc + 3))
  }

  function Prn(s: State): (r: Result<State>)
    requires Wf(s)
    ensures Keeps(s, r)
  {
    var a :- RamRead(s, s.pc + 1);
    var v :- RegRead(s, a);
    Ok(s.(out := s.out + [v], pc := s.pc + 2))
  }

  function Mul(s: State): (r: Result<State>)
    requires Wf(s)
    ensures Keeps(s, r)
  {
    var a :- RamRead(s, s.pc + 1);
    var b :- RamRead(s, s.pc + 2);
    var t :- Alu(s, "MUL", a, b);
    Ok(t.(pc := t.pc + 3))
  }

  function Add(s: State): (r: Result<State>)
    requires Wf(s)
    ensures Keeps(s, r)
  {
    var a :- RamRead(s, s.pc + 1);
    var b :- RamRead(s, s.pc + 2);
    var t :- Alu(s, "ADD", a, b);
    Ok(t.(pc := t.pc + 3))
  }

  function Cmp(s: State): (r: Result<State>)
    requires Wf(s)
    ensures Keeps(s, r)
  {
    var a :- RamRead(s, s.pc + 1);
    var b :- RamRead(s, s.pc + 2);
    var t :- Alu(s, "CMP", a, b);
    Ok(t.(pc := t.pc + 3))
  }

  /** sys.exit(0): the machine stops for good. */
  function Hlt(s: State): (r: Result<State>)
    requires Wf(s)
    ensures r.Ok? && r.value.halted && r.value.(halted := s.halted) == s
  {
    Ok(s.(halted := true))
  }

  function Pop(s: State): (r: Result<State>)
    requires Wf(s)
    ensures Keeps(s, r)
  {
    var r :- RamRead(s, s.pc + 1);
    var v :- RamRead(s, s.reg[SP]);
    var t :- RegWrite(s, r, v);
    Ok(t.(reg := t.reg[SP := t.reg[SP] + 1], pc := t.pc + 2))
  }

  /** SP is decremented before the write, so a failing write leaves it decremented. */
  function Push(s: State): (r: Result<State>)
    requires Wf(s)
    ensures Keeps(s, r)
  {
    var r :- RamRead(s, s.pc + 1);
    var v :- RegRead(s, r);
    var u := s.(reg := s.reg[SP := s.reg[SP] - 1]);
    var t :- RamWrite(u, u.reg[SP], v);
    Ok(t.(pc := t.pc + 2))
  }

  /** The return address is pushed before the operand is read, and the target
      register is read after SP has moved. */
  function Call(s: State): (r: Result<State>)
    requires Wf(s)
    ensures Keeps(s, r)
  {
    var u := s.(reg := s.reg[SP := s.reg[SP] - 1]);
    var t :- RamWrite(u, u.reg[SP], s.pc + 2);
    var r :- RamRead(t, t.pc + 1);
    var target :- RegRead(t, r);
    Ok(t.(pc := target))
  }

  function Ret(s: State): (r: Result<State>)
    requires Wf(s)
    ensures Keeps(s, r)
  {
    var p :- RamRead(s, s.reg[SP]);
    Ok(s.(pc := p, reg := s.reg[SP := s.reg[SP] + 1]))
  }

  function Jmp(s: State): (r: Result<State>)
    requires Wf(s)
    ensures Keeps(s, r)
  {
    var a :- RamRead(s, s.pc + 1);
    Alu(s, "JMP", a, 0)
  }

  function Jeq(s: State): (r: Result<State>)
    requires Wf(s)
    ensures Keeps(s, r)
  {
    var a :- RamRead(s, s.pc + 1);
    Alu(s, "JEQ", a, 0)
  }

  function Jne(s: State): (r: Result<State>)
    requires Wf(s)
    ensures Keeps(s, r)
  {
    var a :- RamRead(s, s.pc + 1);
    Alu(s, "JNE", a, 0)
  }

  // ---------------------------------------------------------------------------
  // The dispatch table

  datatype Op = LDI | PRN | HLT | MUL | POP | PUSH | CALL | RET | ADD | CMP | JMP | JEQ | JNE

  /** The opcode byte of each instruction (the constants at the top of cpu.py). */
  function Opcode(op: Op): (b: int)
    ensures 0 <= b < 256
  {
    match op
    case LDI => 0x82   // 0b10000010
    case PRN => 0x47   // 0b01000111
    case HLT => 0x01   // 0b00000001
    case MUL => 0xA2   // 0b10100010
    case POP => 0x46   // 0b01000110
    case PUSH => 0x45  // 0b01000101
    case CALL => 0x50  // 0b01010000
    case RET => 0x11   // 0b00010001
    case ADD => 0xA0   // 0b10100000
    case CMP => 0xA7   // 0b10100111
    case JMP => 0x54   // 0b01010100
    case JEQ => 0x55   // 0b01010101
    case JNE => 0x56   // 0b01010110
  }

  /** branchtable as built by __init__. */
  const BranchTable: map<int, Op> :=
    map[Opcode(LDI) := LDI, Opcode(PRN) := PRN, Opcode(HLT) := HLT, Opcode(MUL) := MUL,
        Opcode(POP) := POP, Opcode(PUSH) := PUSH, Opcode(CALL) := CALL, Opcode(RET) := RET,
        Opcode(ADD) := ADD, Opcode(CMP) := CMP, Opcode(JMP) := JMP, Opcode(JEQ) := JEQ,
        Opcode(JNE) := JNE]

  /** The thirteen opcode constants are distinct, so no handler shadows another
      in branchtable. */
  lemma OpcodesDistinct(p: Op, q: Op)
    ensures Opcode(p) == Opcode(q) <==> p == q
  {
  }

  /** branchtable maps each of the thirteen opcodes to its own handler and nothing else. */
  lemma BranchTableInverse(ir: int)
    ensures ir in BranchTable <==> exists op :: Opcode(op) == ir
    ensures ir in BranchTable ==> Opcode(BranchTable[ir]) == ir
  {
    if ir in BranchTable {
      assert Opcode(BranchTable[ir]) == ir;
    } else {
      forall op ensures Opcode(op) != ir {
        assert Opcode(op) in BranchTable;
      }
    }
  }

  function Execute(op: Op, s: State): (r: Result<State>)
    requires Wf(s)
    ensures op == HLT ==> r == Ok(s.(halted := true))
    ensures op != HLT ==> Keeps(s, r)
  {
    match op
    case LDI => Ldi(s)
    case PRN => Prn(s)
    case HLT => Hlt(s)
    case MUL => Mul(s)
    case POP => Pop(s)
    case PUSH => Push(s)
    case CALL => Call(s)
    case RET => Ret(s)
    case ADD => Add(s)
    case CMP => Cmp(s)
    case JMP => Jmp(s)
    case JEQ => Jeq(s)
    case JNE => Jne(s)
  }

  /** One iteration of run(): fetch IR = ram[pc] and call branchtable[IR].
      A halted machine does not move any more. */
  function Step(s: State): (r: Result<State>)
    requires Wf(s)
    ensures Wf(After(r))
    ensures s.fl ==> After(r).fl
    ensures s.out <= After(r).out
    ensures After(r).halted <==> s.halted || (r.Ok? && Index(s.ram, s.pc) == Some(Opcode(HLT)))
  {
    if s.halted then Ok(s)
    else
      var ir :- RamRead(s, s.pc);
      assert ir in BranchTable ==> (BranchTable[ir] == HLT <==> ir == Opcode(HLT)) by {
        BranchTableInverse(ir);
      }
      if ir in BranchTable then Execute(BranchTable[ir], s)
      else Err(s, UnknownOpcode(ir))
  }

  /** What happened after a bounded number of iterations of run(). */
  datatype Outcome = Outcome(state: State, fault: Option<Fault>)

  /** At most `fuel` iterations of run(), which stops early on HLT or on an exception. */
  function Run(s: State, fuel: nat): (o: Outcome)
    requires Wf(s)
    ensures Wf(o.state)
    ensures s.fl ==> o.state.fl
    ensures s.out <= o.state.out
    ensures s.halted ==> o == Outcome(s, None)
    ensures o.state.halted ==> o.fault == None
    decreases fuel, 1
  {
    if fuel == 0 || s.halted then Outcome(s, None)
    else Resume(Step(s), fuel - 1)
  }

  /** What run() does with the result of one iteration: carry on for at most
      `fuel` more iterations, or stop with the exception. */
  function Resume(r: Result<State>, fuel: nat): (o: Outcome)
    requires Wf(After(r))
    ensures Wf(o.state)
    ensures After(r).fl ==> o.state.fl
    ensures After(r).out <= o.state.out
    ensures r.Err? ==> o == Outcome(r.at, Some(r.error))
    ensures o.state.halted && o.fault.Some? ==> r.Err? && r.at.halted
    decreases fuel, 2
  {
    match r
    case Ok(t) => Run(t, fuel)
    case Err(t, e) => Outcome(t, Some(e))
  }
}
