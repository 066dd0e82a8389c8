/** What the handlers of cpu.py do, stated about the Machine functions, and how
    the fetch-and-dispatch loop composes them. Operands, registers and stack
    cells are located through Slot, so every index Python accepts is covered,
    the negative ones included. */
module Properties {
  import opened Machine

  // ---------------------------------------------------------------------------
  // One handler at a time

  /** LDI stores its second operand in the register its first operand names,
      changes nothing else and moves pc past its two operands. */
  lemma LdiEffect(s: State, i: nat, j: nat, a: nat)
    requires Wf(s) && Slot(s.pc + 1, RamSize) == Some(i) && Slot(s.pc + 2, RamSize) == Some(j)
    requires Slot(s.ram[i], RegCount) == Some(a)
    ensures Ldi(s) == Ok(s.(reg := s.reg[a := s.ram[j]], pc := s.pc + 3))
  {
  }

  /** LDI raises exactly when an operand or the named register is out of range,
      and then it has changed nothing. */
  lemma LdiFault(s: State)
    requires Wf(s)
    ensures Ldi(s).Err? <==>
      Index(s.ram, s.pc + 1) == None || Index(s.ram, s.pc + 2) == None ||
      Index(s.reg, Index(s.ram, s.pc + 1).value) == None
    ensures Ldi(s).Err? ==> Ldi(s).at == s
  {
  }

  /** PRN appends the register its operand names to the output. */
  lemma PrnEffect(s: State, i: nat, a: nat)
    requires Wf(s) && Slot(s.pc + 1, RamSize) == Some(i) && Slot(s.ram[i], RegCount) == Some(a)
    ensures Prn(s) == Ok(s.(out := s.out + [s.reg[a]], pc := s.pc + 2))
  {
  }

  /** ADD and MUL put the sum or product in the first register, with no wrap-around. */
  lemma ArithmeticEffect(s: State, i: nat, j: nat, a: nat, b: nat)
    requires Wf(s) && Slot(s.pc + 1, RamSize) == Some(i) && Slot(s.pc + 2, RamSize) == Some(j)
    requires Slot(s.ram[i], RegCount) == Some(a) && Slot(s.ram[j], RegCount) == Some(b)
    ensures Add(s) == Ok(s.(reg := s.reg[a := s.reg[a] + s.reg[b]], pc := s.pc + 3))
    ensures Mul(s) == Ok(s.(reg := s.reg[a := s.reg[a] * s.reg[b]], pc := s.pc + 3))
  {
  }

  /** CMP can only set the equal flag: it becomes true when the two registers
      are equal and otherwise keeps its previous value. */
  lemma CmpEffect(s: State, i: nat, j: nat, a: nat, b: nat)
    requires Wf(s) && Slot(s.pc + 1, RamSize) == Some(i) && Slot(s.pc + 2, RamSize) == Some(j)
    requires Slot(s.ram[i], RegCount) == Some(a) && Slot(s.ram[j], RegCount) == Some(b)
    ensures Cmp(s) == Ok(s.(fl := s.fl || s.reg[a] == s.reg[b], pc := s.pc + 3))
  {
  }

  /** JMP always jumps to the register's value; JEQ jumps when the flag is set,
      and JNE when it is clear; the one that does not jump skips its operand. */
  lemma JumpEffect(s: State, i: nat, a: nat)
    requires Wf(s) && Slot(s.pc + 1, RamSize) == Some(i) && Slot(s.ram[i], RegCount) == Some(a)
    ensures Jmp(s) == Ok(s.(pc := s.reg[a]))
    ensures Jeq(s) == Ok(s.(pc := if s.fl then s.reg[a] else s.pc + 2))
    ensures Jne(s) == Ok(s.(pc := if s.fl then s.pc + 2 else s.reg[a]))
  {
  }

  /** A conditional jump not taken never reads the register, so it cannot
      raise even when the operand names no register. */
  lemma UntakenJumpReadsNoRegister(s: State)
    requires Wf(s) && Slot(s.pc + 1, RamSize).Some?
    ensures !s.fl ==> Jeq(s) == Ok(s.(pc := s.pc + 2))
    ensures s.fl ==> Jne(s) == Ok(s.(pc := s.pc + 2))
  {
  }

  /** The n-th operand ram[pc + n], or None when pc + n selects no cell. */
  function Operand(s: State, n: nat): Option<int> {
    Index(s.ram, s.pc + n)
  }

  /** The n-th operand can be read and is a register number Python accepts. */
  predicate Names(s: State, n: nat) {
    Operand(s, n).Some? && Index(s.reg, Operand(s, n).value).Some?
  }

  /** PRN and the arithmetic and compare handlers raise exactly when an operand
      cell or a register they read is out of range, and then before they have
      changed anything. */
  lemma OperandFaults(s: State)
    requires Wf(s)
    ensures Prn(s).Err? <==> !Names(s, 1)
    ensures Add(s).Err? <==> !(Names(s, 1) && Names(s, 2))
    ensures Mul(s).Err? <==> !(Names(s, 1) && Names(s, 2))
    ensures Cmp(s).Err? <==> !(Names(s, 1) && Names(s, 2))
    ensures Prn(s).Err? ==> Prn(s).at == s
    ensures Add(s).Err? ==> Add(s).at == s
    ensures Mul(s).Err? ==> Mul(s).at == s
    ensures Cmp(s).Err? ==> Cmp(s).at == s
  {
  }

  /** JMP raises exactly when its operand names no register; JEQ and JNE read
      the register only when they jump. None has changed anything when it raises. */
  lemma JumpFaults(s: State)
    requires Wf(s)
    ensures Jmp(s).Err? <==> !Names(s, 1)
    ensures Jeq(s).Err? <==> Operand(s, 1) == None || (s.fl && !Names(s, 1))
    ensures Jne(s).Err? <==> Operand(s, 1) == None || (!s.fl && !Names(s, 1))
    ensures Jmp(s).Err? ==> Jmp(s).at == s
    ensures Jeq(s).Err? ==> Jeq(s).at == s
    ensures Jne(s).Err? ==> Jne(s).at == s
  {
  }

  /** POP raises exactly when its operand names no register or SP selects no
      cell, RET exactly when SP selects no cell, and both before any change.
      PUSH raises exactly when its operand names no register, with nothing
      changed, or when SP - 1 selects no cell, and then the failing store
      leaves SP decremented and nothing else changed. */
  lemma StackFaults(s: State)
    requires Wf(s)
    ensures Pop(s).Err? <==> !Names(s, 1) || Index(s.ram, s.reg[SP]) == None
    ensures Ret(s).Err? <==> Index(s.ram, s.reg[SP]) == None
    ensures Push(s).Err? <==> !Names(s, 1) || Index(s.ram, s.reg[SP] - 1) == None
    ensures Pop(s).Err? ==> Pop(s).at == s
    ensures Ret(s).Err? ==> Ret(s).at == s
    ensures !Names(s, 1) ==> Push(s).at == s
    ensures Names(s, 1) && Index(s.ram, s.reg[SP] - 1) == None ==>
      Push(s) == Err(s.(reg := s.reg[SP := s.reg[SP] - 1]), RamIndexError(s.reg[SP] - 1))
  {
  }

  /** CALL always decrements SP first. When SP - 1 selects no cell, the store
      of the return address raises with only SP changed. Otherwise CALL raises
      exactly when, after the store, its operand names no register, and then it
      has stored the return address in that cell and changed nothing else. */
  lemma CallFaults(s: State)
    requires Wf(s)
    ensures var u := s.(reg := s.reg[SP := s.reg[SP] - 1]);
      match Slot(s.reg[SP] - 1, RamSize)
      case None => Call(s) == Err(u, RamIndexError(s.reg[SP] - 1))
      case Some(k) =>
        && (Call(s).Err? <==> !Names(u.(ram := s.ram[k := s.pc + 2]), 1))
        && (Call(s).Err? ==> Call(s).at == u.(ram := s.ram[k := s.pc + 2]))
  {
    var u := s.(reg := s.reg[SP := s.reg[SP] - 1]);
    match Slot(s.reg[SP] - 1, RamSize)
    case None =>
    case Some(k) =>
      assert RamWrite(u, u.reg[SP], s.pc + 2) == Ok(u.(ram := s.ram[k := s.pc + 2]));
  }

  // ---------------------------------------------------------------------------
  // The stack

  /** PUSH moves SP down by one and stores the register in the cell SP then
      selects; with SP in the range Python accepts, it always succeeds. */
  lemma PushEffect(s: State, i: nat, a: nat, k: nat)
    requires Wf(s) && Slot(s.pc + 1, RamSize) == Some(i) && Slot(s.ram[i], RegCount) == Some(a)
    requires Slot(s.reg[SP] - 1, RamSize) == Some(k)
    ensures Push(s) == Ok(s.(reg := s.reg[SP := s.reg[SP] - 1], ram := s.ram[k := s.reg[a]], pc := s.pc + 2))
  {
  }

  /** POP copies the top of the stack into the register, then moves SP up by one. */
  lemma PopEffect(s: State, i: nat, b: nat, k: nat)
    requires Wf(s) && Slot(s.pc + 1, RamSize) == Some(i) && Slot(s.ram[i], RegCount) == Some(b)
    requires Slot(s.reg[SP], RamSize) == Some(k)
    ensures var r := s.reg[b := s.ram[k]];
      Pop(s) == Ok(s.(reg := r[SP := r[SP] + 1], pc := s.pc + 2))
  {
  }

  /** CALL pushes the address after its operand and jumps to the register's
      value. The operand is read after the store, so when the return address
      lands on the operand cell it is that address that names the register. */
  lemma CallEffect(s: State, k: nat, i: nat, a: nat)
    requires Wf(s) && Slot(s.reg[SP] - 1, RamSize) == Some(k) && Slot(s.pc + 1, RamSize) == Some(i)
    requires Slot(s.ram[k := s.pc + 2][i], RegCount) == Some(a)
    ensures var r := s.reg[SP := s.reg[SP] - 1];
      Call(s) == Ok(s.(reg := r, ram := s.ram[k := s.pc + 2], pc := r[a]))
  {
  }

  /** RET pops the return address into pc. */
  lemma RetEffect(s: State, k: nat)
    requires Wf(s) && Slot(s.reg[SP], RamSize) == Some(k)
    ensures Ret(s) == Ok(s.(pc := s.ram[k], reg := s.reg[SP := s.reg[SP] + 1]))
  {
  }

  /** A value pushed is the value popped: from any later state whose SP and top
      of stack are the ones PUSH left, POP into another register b delivers the
      pushed value and restores SP. */
  lemma PushThenPop(s: State, a: int, v: int, u: State, i: nat, b: nat)
    requires Wf(s) && Push(s).Ok?
    requires Index(s.ram, s.pc + 1) == Some(a) && Index(s.reg, a) == Some(v)
    requires Wf(u) && u.reg[SP] == Push(s).value.reg[SP]
    requires Index(u.ram, u.reg[SP]) == Index(Push(s).value.ram, u.reg[SP])
    requires Slot(u.pc + 1, RamSize) == Some(i) && Slot(u.ram[i], RegCount) == Some(b) && b != SP
    ensures Pop(u) == Ok(u.(reg := u.reg[b := v][SP := s.reg[SP]], pc := u.pc + 2))
  {
    var t := Push(s).value;
    var k := Slot(s.reg[SP] - 1, RamSize).value;
    assert t.ram == s.ram[k := v];
    assert Index(t.ram, t.reg[SP]) == Some(v);
  }

  /** CALL pushes the address of the next instruction and RET pops it: from any
      later state with the same SP and the same top of stack, RET returns to
      pc + 2 and restores SP. */
  lemma CallThenRet(s: State, u: State)
    requires Wf(s) && Call(s).Ok?
    requires Wf(u) && u.reg[SP] == Call(s).value.reg[SP]
    requires Index(u.ram, u.reg[SP]) == Index(Call(s).value.ram, u.reg[SP])
    ensures Ret(u) == Ok(u.(pc := s.pc + 2, reg := u.reg[SP := s.reg[SP]]))
  {
    var t := Call(s).value;
    var k := Slot(s.reg[SP] - 1, RamSize).value;
    assert t.ram == s.ram[k := s.pc + 2];
    assert Index(t.ram, t.reg[SP]) == Some(s.pc + 2);
  }

  /** SP starts at 0, so the first PUSH of a fresh CPU moves SP to -1 and, by
      Python's negative indexing, writes the last memory cell. */
  lemma FirstPushWritesLastCell(s: State)
    requires s == Init().(ram := Init().ram[0 := Opcode(PUSH)][1 := 3], reg := Init().reg[3 := 42])
    ensures Push(s).Ok? && Push(s).value.reg[SP] == -1 && Push(s).value.ram[RamSize - 1] == 42
  {
    assert Index(s.ram, 1) == Some(3);
    assert Slot(-1, RamSize) == Some(255);
  }

  // ---------------------------------------------------------------------------
  // The fetch and dispatch loop

  /** IR = ram[pc], under Python indexing, selects the handler whose opcode it is. */
  lemma StepDispatch(s: State, op: Op, k: nat)
    requires Wf(s) && !s.halted && Slot(s.pc, RamSize) == Some(k) && s.ram[k] == Opcode(op)
    ensures Step(s) == Execute(op, s)
  {
    BranchTableInverse(Opcode(op));
  }

  /** A byte that is none of the thirteen opcodes raises KeyError before anything changes. */
  lemma UnknownOpcodeFaults(s: State, k: nat)
    requires Wf(s) && !s.halted && Slot(s.pc, RamSize) == Some(k)
    ensures Step(s) == Err(s, UnknownOpcode(s.ram[k])) <==> forall op :: Opcode(op) != s.ram[k]
  {
    BranchTableInverse(s.ram[k]);
    if ir: int :| ir == s.ram[k] && ir in BranchTable {
      var op := BranchTable[ir];
      StepDispatch(s, op, k);
      assert Opcode(op) == ir;
    }
  }

  /** A pc outside [-256, 256) raises IndexError on the fetch. */
  lemma FetchOutsideMemory(s: State)
    requires Wf(s) && !s.halted && Slot(s.pc, RamSize) == None
    ensures Step(s) == Err(s, RamIndexError(s.pc))
  {
  }

  /** HLT halts, and the machine then stays where it is however long it runs. */
  lemma HaltIsTerminal(s: State, n: nat, k: nat)
    requires Wf(s) && !s.halted && Slot(s.pc, RamSize) == Some(k) && s.ram[k] == Opcode(HLT)
    ensures Step(s) == Ok(s.(halted := true))
    ensures n >= 1 ==> Run(s, n) == Outcome(s.(halted := true), None)
  {
    StepDispatch(s, HLT, k);
  }

  /** SP starts at 0 and a PUSH moves it to -1, so JMP through SP lands on
      pc -1, and the next fetch reads the last memory cell. */
  lemma JumpThroughSp(s: State, i: nat, op: Op)
    requires Wf(s) && !s.halted && s.reg[SP] == -1
    requires Slot(s.pc + 1, RamSize) == Some(i) && s.ram[i] == SP
    requires s.ram[RamSize - 1] == Opcode(op)
    ensures Jmp(s) == Ok(s.(pc := -1))
    ensures Step(Jmp(s).value) == Execute(op, s.(pc := -1))
  {
    JumpEffect(s, i, SP);
    StepDispatch(s.(pc := -1), op, RamSize - 1);
  }

  /** Running m + n iterations is running m, then n more from where that stopped,
      unless the first m ended in an exception. */
  lemma {:induction false} RunSplit(s: State, m: nat, n: nat)
    requires Wf(s)
    ensures Run(s, m + n) == (var o := Run(s, m); if o.fault.Some? then o else Run(o.state, n))
    decreases m, 1
  {
    if m == 0 {
      assert Run(s, m) == Outcome(s, None);
    } else if !s.halted {
      var r := Step(s);
      assert Run(s, m + n) == Resume(r, (m - 1) + n);
      assert Run(s, m) == Resume(r, m - 1);
      ResumeSplit(r, m - 1, n);
    } else {
      assert Run(s, m + n) == Outcome(s, None);
      assert Run(s, m) == Outcome(s, None);
    }
  }

  lemma {:induction false} ResumeSplit(r: Result<State>, m: nat, n: nat)
    requires Wf(After(r))
    ensures Resume(r, m + n) == (var o := Resume(r, m); if o.fault.Some? then o else Run(o.state, n))
    decreases m, 2
  {
    if r.Ok? {
      RunSplit(r.value, m, n);
    }
  }
}
