/** Whole programs, from the text load() reads to the values PRN prints. */
module Programs {
  import opened Machine
  import opened Loader
  import opened Properties

  /** The operand cells ram[pc+1] .. ram[pc+n] are in memory. */
  predicate Operands(s: State, n: nat) {
    0 <= s.pc && s.pc + n < RamSize
  }

  /** An instruction at pc whose operand cells are all in memory. */
  predicate At(s: State, op: Op, n: nat) {
    Wf(s) && !s.halted && Operands(s, n) && s.ram[s.pc] == Opcode(op)
  }

  lemma LdiRuns(s: State, fuel: nat)
    requires At(s, LDI, 2) && 0 <= s.ram[s.pc + 1] < RegCount
    ensures Run(s, fuel + 1) == Run(s.(reg := s.reg[s.ram[s.pc + 1] := s.ram[s.pc + 2]], pc := s.pc + 3), fuel)
  {
    StepDispatch(s, LDI, s.pc);
    LdiEffect(s, s.pc + 1, s.pc + 2, s.ram[s.pc + 1]);
  }

  lemma MulRuns(s: State, fuel: nat)
    requires At(s, MUL, 2) && 0 <= s.ram[s.pc + 1] < RegCount && 0 <= s.ram[s.pc + 2] < RegCount
    ensures var a, b := s.ram[s.pc + 1], s.ram[s.pc + 2];
      Run(s, fuel + 1) == Run(s.(reg := s.reg[a := s.reg[a] * s.reg[b]], pc := s.pc + 3), fuel)
  {
    StepDispatch(s, MUL, s.pc);
    ArithmeticEffect(s, s.pc + 1, s.pc + 2, s.ram[s.pc + 1], s.ram[s.pc + 2]);
  }

  lemma PrnRuns(s: State, fuel: nat)
    requires At(s, PRN, 1) && 0 <= s.ram[s.pc + 1] < RegCount
    ensures Run(s, fuel + 1) == Run(s.(out := s.out + [s.reg[s.ram[s.pc + 1]]], pc := s.pc + 2), fuel)
  {
    StepDispatch(s, PRN, s.pc);
    PrnEffect(s, s.pc + 1, s.ram[s.pc + 1]);
  }

  /** CALL reads its operand after storing the return address, so the register
      it jumps through is named by the operand cell as it is after the store. */
  lemma CallRuns(s: State, k: nat, fuel: nat)
    requires At(s, CALL, 1) && Slot(s.reg[SP] - 1, RamSize) == Some(k)
    requires 0 <= s.ram[k := s.pc + 2][s.pc + 1] < RegCount
    ensures var r, m := s.reg[SP := s.reg[SP] - 1], s.ram[k := s.pc + 2];
      Run(s, fuel + 1) == Run(s.(reg := r, ram := m, pc := r[m[s.pc + 1]]), fuel)
  {
    StepDispatch(s, CALL, s.pc);
    CallEffect(s, k, s.pc + 1, s.ram[k := s.pc + 2][s.pc + 1]);
  }

  lemma RetRuns(s: State, k: nat, fuel: nat)
    requires At(s, RET, 0) && Slot(s.reg[SP], RamSize) == Some(k)
    ensures Run(s, fuel + 1) == Run(s.(pc := s.ram[k], reg := s.reg[SP := s.reg[SP] + 1]), fuel)
  {
    StepDispatch(s, RET, s.pc);
    RetEffect(s, k);
  }

  /** LDI R0,8; LDI R1,9; MUL R0,R1; PRN R0; HLT */
  const Multiply: seq<int> := [0x82, 0, 8, 0x82, 1, 9, 0xA2, 0, 1, 0x47, 0, 0x01]

  /** `prog` sits at the start of memory of a machine that has not halted. */
  predicate Holds(s: State, prog: seq<int>) {
    Wf(s) && !s.halted && |prog| <= RamSize && s.ram[..|prog|] == prog
  }

  /** From a pc of 0 with the multiplication program in memory, at least five
      iterations print 72 and halt, whatever the registers held. */
  lemma MultiplyRuns(s: State, n: nat)
    requires Holds(s, Multiply) && s.pc == 0
    ensures var o := Run(s, n + 5);
      o.fault == None && o.state.halted && o.state.out == s.out + [72]
  {
    assert s.ram[0] == 0x82 && s.ram[1] == 0 && s.ram[2] == 8 by { assert s.ram[..|Multiply|][0] == 0x82; }
    var t := s.(reg := s.reg[0 := 8], pc := 3);
    assert Run(s, n + 5) == Run(t, n + 4) by {
      assert t == s.(reg := s.reg[s.ram[s.pc + 1] := s.ram[s.pc + 2]], pc := s.pc + 3);
      LdiRuns(s, n + 4);
    }
    MultiplyAt3(t, n);
  }

  lemma MultiplyAt3(s: State, n: nat)
    requires Holds(s, Multiply) && s.pc == 3 && s.reg[0] == 8
    ensures var o := Run(s, n + 4);
      o.fault == None && o.state.halted && o.state.out == s.out + [72]
  {
    assert s.ram[3] == 0x82 && s.ram[4] == 1 && s.ram[5] == 9 by { assert s.ram[..|Multiply|][3] == 0x82; }
    var t := s.(reg := s.reg[1 := 9], pc := 6);
    assert Run(s, n + 4) == Run(t, n + 3) by {
      assert t == s.(reg := s.reg[s.ram[s.pc + 1] := s.ram[s.pc + 2]], pc := s.pc + 3);
      LdiRuns(s, n + 3);
    }
    MultiplyAt6(t, n);
  }

  lemma MultiplyAt6(s: State, n: nat)
    requires Holds(s, Multiply) && s.pc == 6 && s.reg[0] == 8 && s.reg[1] == 9
    ensures var o := Run(s, n + 3);
      o.fault == None && o.state.halted && o.state.out == s.out + [72]
  {
    assert s.ram[6] == 0xA2 && s.ram[7] == 0 && s.ram[8] == 1 by { assert s.ram[..|Multiply|][6] == 0xA2; }
    var t := s.(reg := s.reg[0 := 72], pc := 9);
    assert Run(s, n + 3) == Run(t, n + 2) by {
      assert t == s.(reg := s.reg[0 := s.reg[0] * s.reg[1]], pc := s.pc + 3);
      MulRuns(s, n + 2);
    }
    MultiplyAt9(t, n);
  }

  lemma MultiplyAt9(s: State, n: nat)
    requires Holds(s, Multiply) && s.pc == 9 && s.reg[0] == 72
    ensures var o := Run(s, n + 2);
      o.fault == None && o.state.halted && o.state.out == s.out + [72]
  {
    assert s.ram[9] == 0x47 && s.ram[10] == 0 by { assert s.ram[..|Multiply|][9] == 0x47; }
    var t := s.(out := s.out + [72], pc := 11);
    assert Run(s, n + 2) == Run(t, n + 1) by {
      assert t == s.(out := s.out + [s.reg[s.ram[s.pc + 1]]], pc := s.pc + 2);
      PrnRuns(s, n + 1);
    }
    MultiplyAt11(t, n);
  }

  lemma MultiplyAt11(s: State, n: nat)
    requires Holds(s, Multiply) && s.pc == 11
    ensures Run(s, n + 1) == Outcome(s.(halted := true), None)
  {
    assert s.ram[11] == 0x01 by { assert s.ram[..|Multiply|][11] == 0x01; }
    HaltIsTerminal(s, n + 1, s.pc);
  }

  /** A program text that loads without error boots with the decoded bytes in
      memory, pc 0, no output, and every register 0. */
  lemma BootHolds(lines: seq<string>, prog: seq<int>)
    requires Decode(lines) == Loaded(prog, None)
    ensures Boot(lines).Ok?
    ensures var s := Boot(lines).value;
      Holds(s, prog) && s.pc == 0 && s.out == [] && s.reg == Init().reg
  {
  }

  lemma MultiplyText()
    ensures Decode(Encode(Multiply)) == Loaded(Multiply, None)
  {
    DecodeEncode(Multiply);
  }

  /** Any program text that loads as the multiplication program prints 72 and
      halts, given at least five iterations. */
  lemma MultiplyPrints72(lines: seq<string>, n: nat)
    requires Decode(lines) == Loaded(Multiply, None)
    ensures Boot(lines).Ok?
    ensures var o := Run(Boot(lines).value, n + 5);
      o.fault == None && o.state.halted && o.state.out == [72]
  {
    BootHolds(lines, Multiply);
    MultiplyRuns(Boot(lines).value, n);
  }

  /** LDI R1,8; CALL R1; PRN R0; HLT; then at address 8 the subroutine LDI R0,42; RET */
  const Subroutine: seq<int> := [0x82, 1, 8, 0x50, 1, 0x47, 0, 0x01, 0x82, 0, 42, 0x11]

  /** With SP starting at 0, CALL stores the return address 5 in the last memory
      cell, the subroutine runs, RET comes back to address 5, and the program
      prints 42 and halts with SP back at 0. */
  lemma SubroutinePrints42(lines: seq<string>, n: nat)
    requires Decode(lines) == Loaded(Subroutine, None)
    ensures Boot(lines).Ok?
    ensures var o := Run(Boot(lines).value, n + 6);
      o.fault == None && o.state.halted && o.state.out == [42] && o.state.reg[SP] == 0
  {
    BootHolds(lines, Subroutine);
    SubroutineRuns(Boot(lines).value, n);
  }

  lemma SubroutineRuns(s: State, n: nat)
    requires Holds(s, Subroutine) && s.pc == 0 && s.reg[SP] == 0
    ensures var o := Run(s, n + 6);
      o.fault == None && o.state.halted && o.state.out == s.out + [42] && o.state.reg[SP] == 0
  {
    assert s.ram[0] == 0x82 && s.ram[1] == 1 && s.ram[2] == 8 by { assert s.ram[..|Subroutine|][0] == 0x82; }
    var t := s.(reg := s.reg[1 := 8], pc := 3);
    assert Run(s, n + 6) == Run(t, n + 5) by {
      assert t == s.(reg := s.reg[s.ram[s.pc + 1] := s.ram[s.pc + 2]], pc := s.pc + 3);
      LdiRuns(s, n + 5);
    }
    SubroutineAt3(t, n);
  }

  lemma SubroutineAt3(s: State, n: nat)
    requires Holds(s, Subroutine) && s.pc == 3 && s.reg[1] == 8 && s.reg[SP] == 0
    ensures var o := Run(s, n + 5);
      o.fault == None && o.state.halted && o.state.out == s.out + [42] && o.state.reg[SP] == 0
  {
    assert s.ram[3] == 0x50 && s.ram[4] == 1 by { assert s.ram[..|Subroutine|][3] == 0x50; }
    assert Slot(-1, RamSize) == Some(255);
    var t := s.(reg := s.reg[SP := -1], ram := s.ram[255 := 5], pc := 8);
    assert Run(s, n + 5) == Run(t, n + 4) by {
      var r, m := s.reg[SP := s.reg[SP] - 1], s.ram[255 := s.pc + 2];
      assert m[s.pc + 1] == 1;
      assert t == s.(reg := r, ram := m, pc := r[m[s.pc + 1]]);
      CallRuns(s, 255, n + 4);
    }
    assert t.ram[..|Subroutine|] == s.ram[..|Subroutine|];
    SubroutineAt8(t, n);
  }

  lemma SubroutineAt8(s: State, n: nat)
    requires Holds(s, Subroutine) && s.pc == 8 && s.reg[SP] == -1 && s.ram[255] == 5
    ensures var o := Run(s, n + 4);
      o.fault == None && o.state.halted && o.state.out == s.out + [42] && o.state.reg[SP] == 0
  {
    assert s.ram[8] == 0x82 && s.ram[9] == 0 && s.ram[10] == 42 by { assert s.ram[..|Subroutine|][8] == 0x82; }
    var t := s.(reg := s.reg[0 := 42], pc := 11);
    assert Run(s, n + 4) == Run(t, n + 3) by {
      assert t == s.(reg := s.reg[s.ram[s.pc + 1] := s.ram[s.pc + 2]], pc := s.pc + 3);
      LdiRuns(s, n + 3);
    }
    SubroutineAt11(t, n);
  }

  lemma SubroutineAt11(s: State, n: nat)
    requires Holds(s, Subroutine) && s.pc == 11 && s.reg[SP] == -1 && s.ram[255] == 5 && s.reg[0] == 42
    ensures var o := Run(s, n + 3);
      o.fault == None && o.state.halted && o.state.out == s.out + [42] && o.state.reg[SP] == 0
  {
    assert s.ram[11] == 0x11 by { assert s.ram[..|Subroutine|][11] == 0x11; }
    assert Slot(-1, RamSize) == Some(255);
    var t := s.(pc := 5, reg := s.reg[SP := 0]);
    assert Run(s, n + 3) == Run(t, n + 2) by {
      assert t == s.(pc := s.ram[255], reg := s.reg[SP := s.reg[SP] + 1]);
      RetRuns(s, 255, n + 2);
    }
    SubroutineAt5(t, n);
  }

  lemma SubroutineAt5(s: State, n: nat)
    requires Holds(s, Subroutine) && s.pc == 5 && s.reg[0] == 42 && s.reg[SP] == 0
    ensures var o := Run(s, n + 2);
      o.fault == None && o.state.halted && o.state.out == s.out + [42] && o.state.reg[SP] == 0
  {
    assert s.ram[5] == 0x47 && s.ram[6] == 0 && s.ram[7] == 0x01 by { assert s.ram[..|Subroutine|][5] == 0x47; }
    var t := s.(out := s.out + [42], pc := 7);
    assert Run(s, n + 2) == Run(t, n + 1) by {
      assert t == s.(out := s.out + [s.reg[s.ram[s.pc + 1]]], pc := s.pc + 2);
      PrnRuns(s, n + 1);
    }
    SubroutineAt7(t, n);
  }

  lemma SubroutineAt7(s: State, n: nat)
    requires Holds(s, Subroutine) && s.pc == 7
    ensures Run(s, n + 1) == Outcome(s.(halted := true), None)
  {
    assert s.ram[7] == 0x01 by { assert s.ram[..|Subroutine|][7] == 0x01; }
    HaltIsTerminal(s, n + 1, s.pc);
  }

  lemma SubroutineText()
    ensures Decode(Encode(Subroutine)) == Loaded(Subroutine, None)
  {
    DecodeEncode(Subroutine);
  }
}
