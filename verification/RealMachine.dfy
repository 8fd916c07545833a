/**
  The Real Machine: mode-checked memory, fetch, decode, execute, interrupt
  handling and the execution loop. The functions give the meaning of each C
  function on the whole machine state; the class `Machine` runs the same
  algorithms in place and is proved against them.
  */
module RealMachine {
  import opened Words
  import opened Isa

  type Cells = s: seq<Word> | |s| == MEMORY_SIZE witness seq(MEMORY_SIZE, i => 0)

  datatype Cpu = Cpu(ic: Word, r: Registers, sf: Word, mode: Word, pi: Word, si: Word, ti: Word, ptr: Word)

  datatype Rm = Rm(cpu: Cpu, cells: Cells)

  predicate Interrupted(c: Cpu) {
    c.pi != PI_NONE || c.si != SI_NONE || c.ti != TI_NONE
  }

  function SetPi(s: Rm, code: Word): Rm {
    s.(cpu := s.cpu.(pi := code))
  }

  function SetSi(s: Rm, code: Word): Rm {
    s.(cpu := s.cpu.(si := code))
  }

  function SetIc(s: Rm, ic: Word): Rm {
    s.(cpu := s.cpu.(ic := ic))
  }

  function SetReg(s: Rm, a: Reg, v: Word): Rm {
    s.(cpu := s.cpu.(r := s.cpu.r[a := v]))
  }

  /** The timer latch accepts only the two codes it knows. */
  function RaiseTimer(s: Rm, code: Word): Rm {
    if code <= TI_EXPIRED then s.(cpu := s.cpu.(ti := code)) else s
  }

  // Mode-checked memory

  predicate Accessible(mode: Word, a: Word) {
    a <= USER_MEMORY_END || (a <= SUPERVISOR_MEMORY_END && mode == MODE_SUPERVISOR)
  }

  /** The value a read returns; a faulting read returns 0. */
  function ReadValue(s: Rm, a: Word): Word {
    if Accessible(s.cpu.mode, a) then s.cells[a] else 0
  }

  /** The state after a read: even a read latches the address fault. */
  function AfterRead(s: Rm, a: Word): Rm {
    if Accessible(s.cpu.mode, a) then s else SetPi(s, PI_INVALID_ADDRESS)
  }

  function Write(s: Rm, a: Word, v: Word): Rm {
    if Accessible(s.cpu.mode, a) then s.(cells := s.cells[a := v]) else SetPi(s, PI_INVALID_ADDRESS)
  }

  // Arithmetic: the tests are the ones the C code performs before it wraps

  function ResultFlags(v: Word): Word {
    (if v == 0 then FLAG_ZERO else 0) + (if v >= 0x8000 then FLAG_NEGATIVE else 0)
  }

  /** Stores a wrapped result, its flags, and the overflow interrupt when `over` holds. */
  function SetResult(s: Rm, a: Reg, v: Word, over: bool): Rm {
    var s1 := if over then SetPi(s, PI_OVERFLOW) else s;
    var sf := (if over then FLAG_OVERFLOW + FLAG_CARRY else 0) + ResultFlags(v);
    s1.(cpu := s1.cpu.(r := s1.cpu.r[a := v], sf := sf))
  }

  predicate AddOverflows(x: Word, y: Word) {
    x > WORD_MAX - y
  }

  predicate SubOverflows(x: Word, y: Word) {
    x < y
  }

  predicate MulOverflows(x: Word, y: Word) {
    y != 0 && x > WORD_MAX / y
  }

  function Arithmetic(s: Rm, op: Opcode, a: Reg, b: Reg): Rm
    requires TakesTwoRegisters(op)
  {
    var x, y := s.cpu.r[a] as int, s.cpu.r[b] as int;
    if op == OP_ADD then SetResult(s, a, Wrap16(x + y), AddOverflows(x, y))
    else if op == OP_SUB then SetResult(s, a, Wrap16(x - y), SubOverflows(x, y))
    else if op == OP_MUL then SetResult(s, a, Wrap16(x * y), MulOverflows(x, y))
    else if op == OP_DIV then
      if y == 0 then SetPi(s.(cpu := s.cpu.(sf := 0)), PI_DIVZERO)
      else SetResult(s, a, Wrap16(x / y), false)
    else
      s.(cpu := s.cpu.(sf := if x == y then FLAG_ZERO else if x < y then FLAG_NEGATIVE else 0))
  }

  // Fetch, decode, execute

  function Load(s: Rm, i: Instruction): Rm {
    if i.mode == 0 then SetReg(s, i.regA, i.operand)
    else if i.mode == 1 then SetReg(AfterRead(s, i.operand), i.regA, ReadValue(s, i.operand))
    else if i.mode == 2 then
      var p := ReadValue(s, i.operand);
      SetReg(AfterRead(AfterRead(s, i.operand), p), i.regA, ReadValue(s, p))
    else SetPi(s, PI_INVALID_OPCODE)
  }

  function Store(s: Rm, i: Instruction): Rm {
    if i.mode == 1 then Write(s, i.operand, s.cpu.r[i.regA])
    else if i.mode == 2 then Write(AfterRead(s, i.operand), ReadValue(s, i.operand), s.cpu.r[i.regA])
    else SetPi(s, PI_INVALID_OPCODE)
  }

  function Jump(s: Rm, i: Instruction): Rm {
    if i.mode == 0 then SetIc(s, i.operand)
    else if i.mode == 1 then SetIc(AfterRead(s, i.operand), ReadValue(s, i.operand))
    else if i.mode == 2 then
      var p := ReadValue(s, i.operand);
      SetIc(AfterRead(AfterRead(s, i.operand), p), ReadValue(s, p))
    else SetPi(s, PI_INVALID_OPCODE)
  }

  predicate ZeroFlag(sf: Word) {
    sf % 2 == 1
  }

  /** READ, WRITE and HALT raise their interrupt in supervisor mode only. */
  function Privileged(s: Rm, code: Word): Rm {
    if s.cpu.mode != MODE_SUPERVISOR then SetPi(s, PI_INVALID_OPCODE) else SetSi(s, code)
  }

  function Execute(s: Rm, i: Instruction): Rm {
    if i.opcode == OP_LOAD then Load(s, i)
    else if i.opcode == OP_STORE then Store(s, i)
    else if TakesTwoRegisters(i.opcode) then Arithmetic(s, i.opcode, i.regA, i.regB)
    else if i.opcode == OP_JMP then Jump(s, i)
    else if i.opcode == OP_JZ then if ZeroFlag(s.cpu.sf) then SetIc(s, i.operand) else s
    else if i.opcode == OP_JNZ then if !ZeroFlag(s.cpu.sf) then SetIc(s, i.operand) else s
    else if i.opcode == OP_READ then Privileged(s, SI_READ)
    else if i.opcode == OP_WRITE then Privileged(s, SI_WRITE)
    else if i.opcode == OP_HALT then Privileged(s, SI_HALT)
    else if i.opcode == OP_NOP then s
    else if i.opcode == OP_SYS then SetSi(s, SI_SYS)
    else SetPi(s, PI_INVALID_OPCODE)
  }

  /** What one pass of the inner loop did: whether an instruction was executed, and the new state. */
  datatype Cycle = Cycle(rm: Rm, executed: bool)

  function OneCycle(s: Rm): Cycle {
    AfterFetch(AfterRead(s, s.cpu.ic), ReadValue(s, s.cpu.ic))
  }

  /** A faulting fetch ends the pass; otherwise the counter moves on and the word is executed. */
  function AfterFetch(s: Rm, w: Word): Cycle {
    if s.cpu.pi != PI_NONE then Cycle(s, false) else ExecuteWord(SetIc(s, Wrap16(s.cpu.ic + 1)), w)
  }

  /** Decodes and executes a fetched word; the unknown opcode is a program interrupt. */
  function ExecuteWord(s: Rm, w: Word): Cycle {
    if !KnownOpcode(w) then Cycle(SetPi(s, PI_INVALID_OPCODE), false) else Cycle(Execute(s, Fields(w)), true)
  }

  /** Clears what was raised; a HALT stops the machine and clears nothing. */
  function HandleInterrupts(s: Rm): Rm {
    if s.cpu.si == SI_HALT then s
    else
      var si := if s.cpu.si == SI_READ || s.cpu.si == SI_WRITE then SI_NONE else s.cpu.si;
      s.(cpu := s.cpu.(si := si, pi := PI_NONE, ti := TI_NONE))
  }

  // The execution loop, one pass at a time. It need not end: a jump can loop,
  // and SYS leaves an interrupt nobody clears.

  datatype Exec = Exec(rm: Rm, ticks: nat, running: bool)

  function Tick(s: Rm, ticks: nat): Exec {
    if ticks + 1 >= TICK_LIMIT then Exec(RaiseTimer(s, TI_EXPIRED), 0, true) else Exec(s, ticks + 1, true)
  }

  function Step(e: Exec): Exec {
    if !e.running then e
    else if Interrupted(e.rm.cpu) then e.(rm := HandleInterrupts(e.rm), running := e.rm.cpu.si != SI_HALT)
    else
      var c := OneCycle(e.rm);
      if c.executed then Tick(c.rm, e.ticks) else Exec(c.rm, e.ticks, true)
  }

  function Steps(e: Exec, n: nat): Exec {
    if n == 0 then e else Step(Steps(e, n - 1))
  }

  class Machine {
    var IC: Word
    const R: array<Word>
    var SF: Word
    var MODE: Word
    var PI: Word
    var SI: Word
    var TI: Word
    var PTR: Word
    const cells: array<Word>

    ghost predicate Valid()
      reads this
    {
      R.Length == REG_COUNT && cells.Length == MEMORY_SIZE && R != cells
    }

    ghost function State(): Rm
      reads this, R, cells
      requires Valid()
    {
      Rm(Cpu(IC, R[..], SF, MODE, PI, SI, TI, PTR), cells[..])
    }

    constructor ()
      ensures Valid() && fresh(R) && fresh(cells)
      ensures State().cpu == Cpu(0, ZERO_REGISTERS, 0, MODE_SUPERVISOR, PI_NONE, SI_NONE, TI_NONE, 240)
      ensures forall k :: 0 <= k < MEMORY_SIZE ==> cells[k] == 0
    {
      IC, SF, MODE, PI, SI, TI, PTR := 0, 0, MODE_SUPERVISOR, PI_NONE, SI_NONE, TI_NONE, 240;
      R := new Word[REG_COUNT](i => 0);
      cells := new Word[MEMORY_SIZE](i => 0);
    }

    method Read(a: Word) returns (v: Word)
      requires Valid()
      modifies this`PI
      ensures v == old(ReadValue(State(), a)) && State() == old(AfterRead(State(), a))
    {
      if a <= USER_MEMORY_END {
        v := cells[a];
      } else if SUPERVISOR_MEMORY_START <= a <= SUPERVISOR_MEMORY_END {
        if MODE == MODE_SUPERVISOR {
          v := cells[a];
        } else {
          PI := PI_INVALID_ADDRESS;
          v := 0;
        }
      } else {
        PI := PI_INVALID_ADDRESS;
        v := 0;
      }
    }

    method WriteCell(a: Word, v: Word)
      requires Valid()
      modifies this`PI, cells
      ensures State() == old(Write(State(), a, v))
    {
      if a <= USER_MEMORY_END {
        cells[a] := v;
      } else if SUPERVISOR_MEMORY_START <= a <= SUPERVISOR_MEMORY_END {
        if MODE == MODE_SUPERVISOR {
          cells[a] := v;
        } else {
          PI := PI_INVALID_ADDRESS;
        }
      } else {
        PI := PI_INVALID_ADDRESS;
      }
    }

    method RunArithmetic(op: Opcode, a: Reg, b: Reg)
      requires Valid() && TakesTwoRegisters(op)
      modifies this`SF, this`PI, R
      ensures State() == old(Arithmetic(State(), op, a, b))
    {
      hide Wrap16;
      SF := 0;
      var y := R[b];
      if op == OP_DIV && y == 0 {
        PI := PI_DIVZERO;
        return;
      }
      if op == OP_CMP {
        SF := if R[a] == y then FLAG_ZERO else if R[a] < y then FLAG_NEGATIVE else 0;
        return;
      }
      if (op == OP_ADD && R[a] > WORD_MAX - y) || (op == OP_SUB && R[a] < y)
         || (op == OP_MUL && y != 0 && R[a] > WORD_MAX / y) {
        SF := FLAG_OVERFLOW + FLAG_CARRY;
        PI := PI_OVERFLOW;
      }
      var x := R[a] as int;
      R[a] := Wrap16(if op == OP_ADD then x + y else if op == OP_SUB then x - y
                     else if op == OP_MUL then x * y else x / y);
      if R[a] == 0 { SF := SF + FLAG_ZERO; }
      if R[a] >= 0x8000 { SF := SF + FLAG_NEGATIVE; }
    }

    method RunLoad(i: Instruction)
      requires Valid()
      modifies this`PI, R
      ensures State() == old(Load(State(), i))
    {
      if i.mode == 0 {
        R[i.regA] := i.operand;
      } else if i.mode == 1 {
        var v := Read(i.operand);
        R[i.regA] := v;
      } else if i.mode == 2 {
        var p := Read(i.operand);
        var v := Read(p);
        R[i.regA] := v;
      } else {
        PI := PI_INVALID_OPCODE;
      }
    }

    method RunStore(i: Instruction)
      requires Valid()
      modifies this`PI, cells
      ensures State() == old(Store(State(), i))
    {
      if i.mode == 1 {
        WriteCell(i.operand, R[i.regA]);
      } else if i.mode == 2 {
        var p := Read(i.operand);
        WriteCell(p, R[i.regA]);
      } else {
        PI := PI_INVALID_OPCODE;
      }
    }

    method RunJump(i: Instruction)
      requires Valid()
      modifies this`PI, this`IC
      ensures State() == old(Jump(State(), i))
    {
      if i.mode == 0 {
        IC := i.operand;
      } else if i.mode == 1 {
        IC := Read(i.operand);
      } else if i.mode == 2 {
        var p := Read(i.operand);
        IC := Read(p);
      } else {
        PI := PI_INVALID_OPCODE;
      }
    }

    method RunPrivileged(code: Word)
      requires Valid()
      modifies this`PI, this`SI
      ensures State() == old(Privileged(State(), code))
    {
      if MODE != MODE_SUPERVISOR {
        PI := PI_INVALID_OPCODE;
      } else {
        SI := code;
      }
    }

    method RunInstruction(i: Instruction)
      requires Valid()
      modifies this`IC, this`SF, this`PI, this`SI, R, cells
      ensures State() == old(Execute(State(), i))
    {
      if i.opcode == OP_LOAD {
        RunLoad(i);
      } else if i.opcode == OP_STORE {
        RunStore(i);
      } else if TakesTwoRegisters(i.opcode) {
        RunArithmetic(i.opcode, i.regA, i.regB);
      } else if i.opcode == OP_JMP {
        RunJump(i);
      } else if i.opcode == OP_JZ {
        if ZeroFlag(SF) { IC := i.operand; }
      } else if i.opcode == OP_JNZ {
        if !ZeroFlag(SF) { IC := i.operand; }
      } else if i.opcode == OP_READ {
        RunPrivileged(SI_READ);
      } else if i.opcode == OP_WRITE {
        RunPrivileged(SI_WRITE);
      } else if i.opcode == OP_HALT {
        RunPrivileged(SI_HALT);
      } else if i.opcode == OP_NOP {
      } else if i.opcode == OP_SYS {
        SI := SI_SYS;
      } else {
        PI := PI_INVALID_OPCODE;
      }
    }

    method ExecOneCycle() returns (executed: bool)
      requires Valid()
      modifies this`IC, this`SF, this`PI, this`SI, R, cells
      ensures Cycle(State(), executed) == old(OneCycle(State()))
    {
      var raw := Read(IC);
      if PI != PI_NONE { return false; }
      IC := Wrap16(IC + 1);
      var inst := new InstructionRecord();
      var decoded := inst.DecodeReal(raw);
      if !decoded {
        PI := PI_INVALID_OPCODE;
        return false;
      }
      RunInstruction(Instruction(inst.opcode, inst.regA, inst.regB, inst.mode, inst.operand));
      return true;
    }

    method AcknowledgeInterrupts() returns (running: bool)
      requires Valid()
      modifies this`PI, this`SI, this`TI
      ensures State() == old(HandleInterrupts(State())) && running == (old(SI) != SI_HALT)
    {
      if SI == SI_HALT { return false; }
      if SI == SI_READ { SI := SI_NONE; }
      if SI == SI_WRITE { SI := SI_NONE; }
      if PI != PI_NONE { PI := PI_NONE; }
      if TI != TI_NONE { TI := TI_NONE; }
      return true;
    }

    /** The inner loop: instructions until an interrupt is latched, or until `budget` passes are spent. */
    method RunUntilInterrupt(ticks0: nat, budget: nat) returns (used: nat, ticks: nat)
      requires Valid()
      modifies this`IC, this`SF, this`PI, this`SI, this`TI, R, cells
      ensures used <= budget && (used < budget ==> Interrupted(State().cpu))
      ensures Exec(State(), ticks, true) == Steps(Exec(old(State()), ticks0, true), used)
    {
      ghost var start := Exec(State(), ticks0, true);
      used, ticks := 0, ticks0;
      NoStep(start);
      hide Step, Steps, OneCycle;
      while used < budget && !(PI != PI_NONE || SI != SI_NONE || TI != TI_NONE)
        invariant used <= budget
        invariant Exec(State(), ticks, true) == Steps(start, used)
      {
        ghost var before := State();
        var executed := ExecOneCycle();
        OnePass(before, ticks);
        OneMoreStep(start, used, Exec(before, ticks, true));
        used := used + 1;
        if !executed {
          FailedCycleInterrupts(before);
          break;
        }
        ticks := ticks + 1;
        if ticks >= TICK_LIMIT {
          TI := TI_EXPIRED;
          ticks := 0;
        }
      }
    }

    /** One round of the outer loop: run until interrupted, then acknowledge. */
    method RunRound(ticks0: nat, budget: nat) returns (used: nat, ticks: nat, running: bool)
      requires Valid()
      modifies this`IC, this`SF, this`PI, this`SI, this`TI, R, cells
      ensures used <= budget && (0 < budget ==> 0 < used)
      ensures Exec(State(), ticks, running) == Steps(Exec(old(State()), ticks0, true), used)
    {
      hide Steps;
      used, ticks := RunUntilInterrupt(ticks0, budget);
      running := true;
      if used < budget {
        ghost var mid := Exec(State(), ticks, true);
        running := AcknowledgeInterrupts();
        assert Step(mid) == Exec(State(), ticks, running);
        OneMoreStep(Exec(old(State()), ticks0, true), used, mid);
        used := used + 1;
      }
    }

    /** The nested execution loop, cut off after `budget` passes because it need not end. */
    method ExecCycle(budget: nat) returns (ticks: nat, running: bool)
      requires Valid()
      modifies this, R, cells
      ensures Valid()
      ensures Exec(State(), ticks, running) == Steps(Exec(old(State()), 0, true), budget)
    {
      ghost var start := Exec(State(), 0, true);
      var used := 0;
      running, ticks := true, 0;
      while running && used < budget
        invariant used <= budget
        invariant Exec(State(), ticks, running) == Steps(start, used)
        decreases budget - used
      {
        var n;
        n, ticks, running := RunRound(ticks, budget - used);
        StepsAdd(start, used, n);
        used := used + n;
      }
      StaysStopped(start, used, budget);
    }
  }

  /** A pass that executes nothing always leaves a program interrupt behind. */
  lemma FailedCycleInterrupts(s: Rm)
    ensures !OneCycle(s).executed ==> OneCycle(s).rm.cpu.pi != PI_NONE
  {
  }

  lemma NoStep(e: Exec)
    ensures Steps(e, 0) == e
  {
  }

  /** A step that is not an acknowledgement is a pass of the inner loop; only an executed instruction ticks. */
  lemma OnePass(s: Rm, ticks: nat)
    requires !Interrupted(s.cpu)
    ensures
      var c := OneCycle(s);
      Step(Exec(s, ticks, true)) == if c.executed then Tick(c.rm, ticks) else Exec(c.rm, ticks, true)
  {
  }

  lemma OneMoreStep(e: Exec, n: nat, e1: Exec)
    requires e1 == Steps(e, n)
    ensures Step(e1) == Steps(e, n + 1)
  {
  }

  lemma {:induction false} StepsAdd(e: Exec, m: nat, n: nat)
    ensures Steps(Steps(e, m), n) == Steps(e, m + n)
  {
    hide Step;
    if n == 0 {
    } else {
      StepsAdd(e, m, n - 1);
      assert Steps(e, m + n) == Step(Steps(e, m + (n - 1)));
    }
  }

  /** A stopped machine stays as it is however many more passes are asked for. */
  lemma {:induction false} StaysStopped(e: Exec, n: nat, m: nat)
    requires n <= m && (n < m ==> !Steps(e, n).running)
    ensures Steps(e, m) == Steps(e, n)
  {
    if n >= m {
    } else {
      if n < m - 1 {
        StaysStopped(e, n, m - 1);
      }
      assert Steps(e, m - 1) == Steps(e, n);
    }
  }
}
