/** The CPU class of cpu.py: the registers and memory are arrays updated in
    place, and every handler is a method whose effect is the corresponding
    function of the Machine module applied to the state before the call. */
module Cpu {
  import opened Machine
  import opened Loader

  /** A method's report and the state it leaves are what the handler's function
      gives: the new state when it returns, the raised exception and the state at
      that point when it raises. */
  ghost predicate Agrees(now: State, err: Option<Fault>, r: Result<State>) {
    match r
    case Ok(t) => err == None && now == t
    case Err(t, e) => err == Some(e) && now == t
  }

  class CPU {
    const reg: array<int>
    const ram: array<int>
    var pc: int
    /** The equal flag. */
    var fl: bool
    /** Set by HLT in place of sys.exit(0). */
    var halted: bool
    /** The values PRN has printed, in order. */
    var out: seq<int>
    const branchtable: map<int, Op>

    ghost predicate Valid()
      reads this
    {
      reg.Length == RegCount && ram.Length == RamSize && reg != ram && branchtable == BranchTable
    }

    ghost function Snapshot(): (s: State)
      reads this, reg, ram
      ensures Valid() ==> Wf(s)
    {
      State(reg[..], ram[..], pc, fl, halted, out)
    }

    constructor ()
      ensures Valid() && fresh(reg) && fresh(ram)
      ensures Snapshot() == Init()
    {
      reg := new int[RegCount](_ => 0);
      ram := new int[RamSize](_ => 0);
      pc, fl, halted, out := 0, false, false, [];
      branchtable := BranchTable;
    }

    function RamRead(mar: int): (v: Option<int>)
      reads this, ram
      ensures v == Index(ram[..], mar)
    {
      match Slot(mar, ram.Length)
      case Some(k) => Some(ram[k])
      case None => None
    }

    method RamWrite(mar: int, value: int) returns (err: Option<Fault>)
      requires Valid()
      modifies ram
      ensures Agrees(Snapshot(), err, Machine.RamWrite(old(Snapshot()), mar, value))
    {
      var k := Slot(mar, ram.Length);
      if k.None? { return Some(RamIndexError(mar)); }
      ram[k.value] := value;
      return None;
    }

    /** load(): the for loop over the lines of the program text. */
    method Load(lines: seq<string>) returns (err: Option<Fault>)
      requires Valid()
      modifies ram
      ensures err == Decode(lines).error
      ensures ram[..] == Decode(lines).bytes + old(ram[..])[|Decode(lines).bytes|..]
    {
      var address := 0;
      var i := 0;
      while i < |lines|
        invariant 0 <= i <= |lines|
        invariant address <= ram.Length
        invariant Decode(lines[..i]) == Loaded(ram[..address], None)
        invariant ram[address..] == old(ram[..])[address..]
      {
        var num := LiteralOf(lines[i]);
        if num == "" {
          LoadBlank(lines, i, ram[..address]);
          i := i + 1;
          continue;
        }
        if !IsBinary(num) {
          LoadInvalid(lines, i, ram[..address]);
          return Some(InvalidLiteral(num));
        }
        var instruction := BinaryValue(num);
        if address >= ram.Length {
          LoadFull(lines, i, ram[..address]);
          return Some(RamIndexError(address));
        }
        LoadValue(lines, i, ram[..address]);
        ghost var before := ram[..];
        ram[address] := instruction;
        assert ram[..address + 1] == before[..address] + [instruction];
        address := address + 1;
        i := i + 1;
      }
      assert lines[..i] == lines;
      return None;
    }

    method Alu(op: string, regA: int, regB: int) returns (err: Option<Fault>)
      requires Valid()
      modifies this, reg
      ensures Valid()
      ensures Agrees(Snapshot(), err, Machine.Alu(old(Snapshot()), op, regA, regB))
    {
      if op == "ADD" {
        var a := Slot(regA, reg.Length);
        if a.None? { return Some(RegIndexError(regA)); }
        var b := Slot(regB, reg.Length);
        if b.None? { return Some(RegIndexError(regB)); }
        reg[a.value] := reg[a.value] + reg[b.value];
      } else if op == "MUL" {
        var a := Slot(regA, reg.Length);
        if a.None? { return Some(RegIndexError(regA)); }
        var b := Slot(regB, reg.Length);
        if b.None? { return Some(RegIndexError(regB)); }
        reg[a.value] := reg[a.value] * reg[b.value];
      } else if op == "CMP" {
        var a := Slot(regA, reg.Length);
        if a.None? { return Some(RegIndexError(regA)); }
        var b := Slot(regB, reg.Length);
        if b.None? { return Some(RegIndexError(regB)); }
        if reg[a.value] == reg[b.value] {
          fl := true;
        }
      } else if op == "JMP" {
        var a := Slot(regA, reg.Length);
        if a.None? { return Some(RegIndexError(regA)); }
        pc := reg[a.value];
      } else if op == "JEQ" {
        if fl {
          var a := Slot(regA, reg.Length);
          if a.None? { return Some(RegIndexError(regA)); }
          pc := reg[a.value];
        } else {
          pc := pc + 2;
        }
      } else if op == "JNE" {
        if !fl {
          var a := Slot(regA, reg.Length);
          if a.None? { return Some(RegIndexError(regA)); }
          pc := reg[a.value];
        } else {
          pc := pc + 2;
        }
      } else {
        return Some(UnsupportedAluOperation(op));
      }
      return None;
    }

    method HandleLdi() returns (err: Option<Fault>)
      requires Valid()
      modifies this, reg
      ensures Valid()
      ensures Agrees(Snapshot(), err, Ldi(old(Snapshot())))
    {
      var a := RamRead(pc + 1);
      if a.None? { return Some(RamIndexError(pc + 1)); }
      var b := RamRead(pc + 2);
      if b.None? { return Some(RamIndexError(pc + 2)); }
      var k := Slot(a.value, reg.Length);
      if k.None? { return Some(RegIndexError(a.value)); }
      reg[k.value] := b.value;
      pc := pc + 3;
      return None;
    }

    method HandlePrn() returns (err: Option<Fault>)
      requires Valid()
      modifies this
      ensures Valid()
      ensures Agrees(Snapshot(), err, Prn(old(Snapshot())))
    {
      var a := RamRead(pc + 1);
      if a.None? { return Some(RamIndexError(pc + 1)); }
      var k := Slot(a.value, reg.Length);
      if k.None? { return Some(RegIndexError(a.value)); }
      out := out + [reg[k.value]];
      pc := pc + 2;
      return None;
    }

    method HandleMul() returns (err: Option<Fault>)
      requires Valid()
      modifies this, reg
      ensures Valid()
      ensures Agrees(Snapshot(), err, Mul(old(Snapshot())))
    {
      var a := RamRead(pc + 1);
      if a.None? { return Some(RamIndexError(pc + 1)); }
      var b := RamRead(pc + 2);
      if b.None? { return Some(RamIndexError(pc + 2)); }
      err := Alu("MUL", a.value, b.value);
      if err.Some? { return; }
      pc := pc + 3;
    }

    method HandleAdd() returns (err: Option<Fault>)
      requires Valid()
      modifies this, reg
      ensures Valid()
      ensures Agrees(Snapshot(), err, Add(old(Snapshot())))
    {
      var a := RamRead(pc + 1);
      if a.None? { return Some(RamIndexError(pc + 1)); }
      var b := RamRead(pc + 2);
      if b.None? { return Some(RamIndexError(pc + 2)); }
      err := Alu("ADD", a.value, b.value);
      if err.Some? { return; }
      pc := pc + 3;
    }

    method HandleCmp() returns (err: Option<Fault>)
      requires Valid()
      modifies this, reg
      ensures Valid()
      ensures Agrees(Snapshot(), err, Cmp(old(Snapshot())))
    {
      var a := RamRead(pc + 1);
      if a.None? { return Some(RamIndexError(pc + 1)); }
      var b := RamRead(pc + 2);
      if b.None? { return Some(RamIndexError(pc + 2)); }
      err := Alu("CMP", a.value, b.value);
      if err.Some? { return; }
      pc := pc + 3;
    }

    method HandleHlt()
      requires Valid()
      modifies this
      ensures Valid()
      ensures Snapshot() == Hlt(old(Snapshot())).value
    {
      halted := true;
    }

    method HandlePop() returns (err: Option<Fault>)
      requires Valid()
      modifies this, reg
      ensures Valid()
      ensures Agrees(Snapshot(), err, Pop(old(Snapshot())))
    {
      var r := RamRead(pc + 1);
      if r.None? { return Some(RamIndexError(pc + 1)); }
      var value := RamRead(reg[SP]);
      if value.None? { return Some(RamIndexError(reg[SP])); }
      var k := Slot(r.value, reg.Length);
      if k.None? { return Some(RegIndexError(r.value)); }
      reg[k.value] := value.value;
      reg[SP] := reg[SP] + 1;
      pc := pc + 2;
      return None;
    }

    method HandlePush() returns (err: Option<Fault>)
      requires Valid()
      modifies this, reg, ram
      ensures Valid()
      ensures Agrees(Snapshot(), err, Push(old(Snapshot())))
    {
      var r := RamRead(pc + 1);
      if r.None? { return Some(RamIndexError(pc + 1)); }
      var k := Slot(r.value, reg.Length);
      if k.None? { return Some(RegIndexError(r.value)); }
      var value := reg[k.value];
      ghost var s := Snapshot();
      reg[SP] := reg[SP] - 1;
      assert Snapshot() == s.(reg := s.reg[SP := s.reg[SP] - 1]);
      err := RamWrite(reg[SP], value);
      if err.Some? { return; }
      pc := pc + 2;
    }

    method HandleCall() returns (err: Option<Fault>)
      requires Valid()
      modifies this, reg, ram
      ensures Valid()
      ensures Agrees(Snapshot(), err, Call(old(Snapshot())))
    {
      ghost var s := Snapshot();
      reg[SP] := reg[SP] - 1;
      ghost var u := Snapshot();
      assert u == s.(reg := s.reg[SP := s.reg[SP] - 1]);
      var address := pc + 2;
      var k := Slot(reg[SP], ram.Length);
      if k.None? { return Some(RamIndexError(reg[SP])); }
      ram[k.value] := address;
      assert Snapshot() == Machine.RamWrite(u, u.reg[SP], s.pc + 2).value;
      var r := RamRead(pc + 1);
      if r.None? { return Some(RamIndexError(pc + 1)); }
      var j := Slot(r.value, reg.Length);
      if j.None? { return Some(RegIndexError(r.value)); }
      pc := reg[j.value];
      return None;
    }

    method HandleRet() returns (err: Option<Fault>)
      requires Valid()
      modifies this, reg
      ensures Valid()
      ensures Agrees(Snapshot(), err, Ret(old(Snapshot())))
    {
      var k := Slot(reg[SP], ram.Length);
      if k.None? { return Some(RamIndexError(reg[SP])); }
      pc := ram[k.value];
      reg[SP] := reg[SP] + 1;
      return None;
    }

    method HandleJmp() returns (err: Option<Fault>)
      requires Valid()
      modifies this, reg
      ensures Valid()
      ensures Agrees(Snapshot(), err, Jmp(old(Snapshot())))
    {
      var a := RamRead(pc + 1);
      if a.None? { return Some(RamIndexError(pc + 1)); }
      err := Alu("JMP", a.value, 0);
    }

    method HandleJeq() returns (err: Option<Fault>)
      requires Valid()
      modifies this, reg
      ensures Valid()
      ensures Agrees(Snapshot(), err, Jeq(old(Snapshot())))
    {
      var a := RamRead(pc + 1);
      if a.None? { return Some(RamIndexError(pc + 1)); }
      err := Alu("JEQ", a.value, 0);
    }

    method HandleJne() returns (err: Option<Fault>)
      requires Valid()
      modifies this, reg
      ensures Valid()
      ensures Agrees(Snapshot(), err, Jne(old(Snapshot())))
    {
      var a := RamRead(pc + 1);
      if a.None? { return Some(RamIndexError(pc + 1)); }
      err := Alu("JNE", a.value, 0);
    }

    /** One iteration of run(): IR = ram[pc], then branchtable[IR](). */
    method Step() returns (err: Option<Fault>)
      requires Valid()
      modifies this, reg, ram
      ensures Valid()
      ensures Agrees(Snapshot(), err, Machine.Step(old(Snapshot())))
    {
      if halted { return None; }
      var k := Slot(pc, ram.Length);
      if k.None? { return Some(RamIndexError(pc)); }
      var ir := ram[k.value];
      if ir !in branchtable { return Some(UnknownOpcode(ir)); }
      match branchtable[ir]
      case LDI => err := HandleLdi();
      case PRN => err := HandlePrn();
      case HLT => HandleHlt(); err := None;
      case MUL => err := HandleMul();
      case POP => err := HandlePop();
      case PUSH => err := HandlePush();
      case CALL => err := HandleCall();
      case RET => err := HandleRet();
      case ADD => err := HandleAdd();
      case CMP => err := HandleCmp();
      case JMP => err := HandleJmp();
      case JEQ => err := HandleJeq();
      case JNE => err := HandleJne();
    }

    /** run(), bounded to `fuel` iterations: stops early on HLT or on an exception. */
    method Run(fuel: nat) returns (err: Option<Fault>)
      requires Valid()
      modifies this, reg, ram
      ensures Valid()
      ensures Machine.Run(old(Snapshot()), fuel) == Outcome(Snapshot(), err)
    {
      var n := 0;
      err := None;
      while n < fuel && !halted
        invariant Valid() && 0 <= n <= fuel && err == None
        invariant Machine.Run(old(Snapshot()), fuel) == Machine.Run(Snapshot(), fuel - n)
        decreases fuel - n
      {
        err := Step();
        if err.Some? { return; }
        n := n + 1;
      }
    }
  }
}
