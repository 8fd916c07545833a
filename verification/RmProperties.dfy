/**
  What the Real Machine guarantees: arithmetic interrupts and flags that are
  exact for every operand, and user-mode isolation over every run.
  */
module RmProperties {
  import opened Words
  import opened Isa
  import opened RealMachine

  // Exact arithmetic

  /** The mathematical result of an arithmetic instruction, before any wrap-around. */
  function Exact(op: Opcode, x: Word, y: Word): int
    requires op == OP_ADD || op == OP_SUB || op == OP_MUL
  {
    if op == OP_ADD then x + y else if op == OP_SUB then x as int - y as int else x as int * y as int
  }

  predicate Fits(v: int) {
    0 <= v <= WORD_MAX
  }

  predicate HasFlag(sf: Word, flag: int)
    requires flag > 0
  {
    sf / flag % 2 == 1
  }

  /** The division test of MUL is the overflow test of the exact product. */
  lemma MulTestIsExact(x: Word, y: Word)
    ensures MulOverflows(x, y) <==> x as int * y as int > WORD_MAX
  {
    if y != 0 {
      var q := WORD_MAX / y;
      assert q * y <= WORD_MAX < (q + 1) * y;
      if x > q {
        MulMonotone(q + 1, x, y);
      } else {
        MulMonotone(x, q, y);
      }
    }
  }

  lemma MulMonotone(a: int, b: int, y: int)
    requires a <= b && 0 <= y
    ensures a * y <= b * y
  {
  }

  /**
    ADD, SUB and MUL set OVERFLOW, CARRY and the overflow interrupt exactly when
    the true result does not fit, store that result modulo 2^16, and touch
    nothing else, also when both operands are the same register.
    */
  lemma ArithmeticIsExact(s: Rm, op: Opcode, a: Reg, b: Reg)
    requires op == OP_ADD || op == OP_SUB || op == OP_MUL
    ensures
      var exact := Exact(op, s.cpu.r[a], s.cpu.r[b]);
      var t := Arithmetic(s, op, a, b);
      && t.cells == s.cells
      && t.cpu == s.cpu.(r := t.cpu.r, sf := t.cpu.sf, pi := t.cpu.pi)
      && t.cpu.r == s.cpu.r[a := exact % 0x1_0000]
      && (HasFlag(t.cpu.sf, FLAG_OVERFLOW) <==> !Fits(exact))
      && (HasFlag(t.cpu.sf, FLAG_CARRY) <==> !Fits(exact))
      && (HasFlag(t.cpu.sf, FLAG_ZERO) <==> t.cpu.r[a] == 0)
      && (HasFlag(t.cpu.sf, FLAG_NEGATIVE) <==> t.cpu.r[a] >= 0x8000)
      && t.cpu.pi == (if Fits(exact) then s.cpu.pi else PI_OVERFLOW)
  {
    MulTestIsExact(s.cpu.r[a], s.cpu.r[b]);
    ProductNonNegative(s.cpu.r[a], s.cpu.r[b]);
    FlagBits(!Fits(Exact(op, s.cpu.r[a], s.cpu.r[b])), Exact(op, s.cpu.r[a], s.cpu.r[b]) % 0x1_0000);
  }

  lemma ProductNonNegative(x: Word, y: Word)
    ensures x as int * y as int >= 0
  {
  }

  /** Each flag is its own bit of the status word. */
  lemma FlagBits(over: bool, v: Word)
    ensures
      var sf := (if over then FLAG_OVERFLOW + FLAG_CARRY else 0) + ResultFlags(v);
      && (HasFlag(sf, FLAG_OVERFLOW) <==> over)
      && (HasFlag(sf, FLAG_CARRY) <==> over)
      && (HasFlag(sf, FLAG_ZERO) <==> v == 0)
      && (HasFlag(sf, FLAG_NEGATIVE) <==> v >= 0x8000)
  {
  }

  // User-mode isolation

  /** What a scheduler of the machine may do next: one pass, an acknowledgement, or a timer expiry. */
  datatype Action = Pass | Acknowledge | Expire

  function Act(s: Rm, a: Action): Rm {
    match a
    case Pass => OneCycle(s).rm
    case Acknowledge => HandleInterrupts(s)
    case Expire => RaiseTimer(s, TI_EXPIRED)
  }

  function Run(s: Rm, acts: seq<Action>): Rm {
    if acts == [] then s else Act(Run(s, acts[..|acts| - 1]), acts[|acts| - 1])
  }

  function UserCells(s: Rm): seq<Word> {
    s.cells[..SUPERVISOR_MEMORY_START]
  }

  function SupervisorCells(s: Rm): seq<Word> {
    s.cells[SUPERVISOR_MEMORY_START..]
  }

  /** Two machines a user program cannot tell apart: same processor, same user memory. */
  predicate UserEqual(s: Rm, t: Rm) {
    s.cpu == t.cpu && UserCells(s) == UserCells(t)
  }

  predicate InUserMode(s: Rm) {
    s.cpu.mode == MODE_USER
  }

  lemma SameUserCell(s: Rm, t: Rm, a: Word)
    requires UserEqual(s, t) && InUserMode(s)
    ensures ReadValue(s, a) == ReadValue(t, a)
    ensures UserEqual(AfterRead(s, a), AfterRead(t, a)) && InUserMode(AfterRead(s, a))
    ensures AfterRead(s, a).cells == s.cells && AfterRead(t, a).cells == t.cells
  {
    if a <= USER_MEMORY_END {
      assert s.cells[a] == UserCells(s)[a] && t.cells[a] == UserCells(t)[a];
    }
  }

  lemma SameWrite(s: Rm, t: Rm, a: Word, v: Word)
    requires UserEqual(s, t) && InUserMode(s)
    ensures UserEqual(Write(s, a, v), Write(t, a, v)) && InUserMode(Write(s, a, v))
    ensures SupervisorCells(Write(s, a, v)) == SupervisorCells(s)
    ensures SupervisorCells(Write(t, a, v)) == SupervisorCells(t)
  {
    if a <= USER_MEMORY_END {
      assert UserCells(Write(s, a, v)) == UserCells(s)[a := v];
      assert UserCells(Write(t, a, v)) == UserCells(t)[a := v];
    }
  }

  /** The three-part conclusion every step keeps. */
  predicate Isolated(s: Rm, t: Rm, s': Rm, t': Rm) {
    && UserEqual(s', t') && InUserMode(s')
    && SupervisorCells(s') == SupervisorCells(s)
    && SupervisorCells(t') == SupervisorCells(t)
  }

  lemma IsolatedLoad(s: Rm, t: Rm, i: Instruction)
    requires UserEqual(s, t) && InUserMode(s)
    ensures Isolated(s, t, Load(s, i), Load(t, i))
  {
    SameUserCell(s, t, i.operand);
    SameUserCell(AfterRead(s, i.operand), AfterRead(t, i.operand), ReadValue(s, i.operand));
  }

  lemma IsolatedStore(s: Rm, t: Rm, i: Instruction)
    requires UserEqual(s, t) && InUserMode(s)
    ensures Isolated(s, t, Store(s, i), Store(t, i))
  {
    SameUserCell(s, t, i.operand);
    SameWrite(s, t, i.operand, s.cpu.r[i.regA]);
    SameWrite(AfterRead(s, i.operand), AfterRead(t, i.operand), ReadValue(s, i.operand), s.cpu.r[i.regA]);
  }

  lemma IsolatedJump(s: Rm, t: Rm, i: Instruction)
    requires UserEqual(s, t) && InUserMode(s)
    ensures Isolated(s, t, Jump(s, i), Jump(t, i))
  {
    SameUserCell(s, t, i.operand);
    SameUserCell(AfterRead(s, i.operand), AfterRead(t, i.operand), ReadValue(s, i.operand));
  }

  lemma IsolatedArithmetic(s: Rm, t: Rm, op: Opcode, a: Reg, b: Reg)
    requires UserEqual(s, t) && InUserMode(s) && TakesTwoRegisters(op)
    ensures Isolated(s, t, Arithmetic(s, op, a, b), Arithmetic(t, op, a, b))
  {
  }

  lemma IsolatedExecute(s: Rm, t: Rm, i: Instruction)
    requires UserEqual(s, t) && InUserMode(s)
    ensures Isolated(s, t, Execute(s, i), Execute(t, i))
  {
    if i.opcode == OP_LOAD {
      IsolatedLoad(s, t, i);
    } else if i.opcode == OP_STORE {
      IsolatedStore(s, t, i);
    } else if TakesTwoRegisters(i.opcode) {
      IsolatedArithmetic(s, t, i.opcode, i.regA, i.regB);
    } else if i.opcode == OP_JMP {
      IsolatedJump(s, t, i);
    }
  }

  lemma IsolatedCycle(s: Rm, t: Rm)
    requires UserEqual(s, t) && InUserMode(s)
    ensures Isolated(s, t, OneCycle(s).rm, OneCycle(t).rm) && OneCycle(s).executed == OneCycle(t).executed
  {
    SameUserCell(s, t, s.cpu.ic);
    IsolatedFetched(AfterRead(s, s.cpu.ic), AfterRead(t, t.cpu.ic), ReadValue(s, s.cpu.ic));
  }

  lemma IsolatedFetched(s: Rm, t: Rm, w: Word)
    requires UserEqual(s, t) && InUserMode(s)
    ensures Isolated(s, t, AfterFetch(s, w).rm, AfterFetch(t, w).rm)
    ensures AfterFetch(s, w).executed == AfterFetch(t, w).executed
  {
    IsolatedWord(SetIc(s, Wrap16(s.cpu.ic + 1)), SetIc(t, Wrap16(t.cpu.ic + 1)), w);
  }

  lemma IsolatedWord(s: Rm, t: Rm, w: Word)
    requires UserEqual(s, t) && InUserMode(s)
    ensures Isolated(s, t, ExecuteWord(s, w).rm, ExecuteWord(t, w).rm)
    ensures ExecuteWord(s, w).executed == ExecuteWord(t, w).executed
  {
    IsolatedExecute(s, t, Fields(w));
  }

  /**
    Non-interference: machines in user mode that agree on the processor and on
    user memory keep agreeing, stay in user mode, and leave supervisor memory
    alone, whatever supervisor memory holds and whatever sequence of passes,
    acknowledgements and timer expiries runs.
    */
  lemma {:induction false} UserIsolation(s: Rm, t: Rm, acts: seq<Action>)
    requires UserEqual(s, t) && InUserMode(s)
    ensures Isolated(s, t, Run(s, acts), Run(t, acts))
  {
    if acts == [] {
    } else {
      var rest := acts[..|acts| - 1];
      UserIsolation(s, t, rest);
      IsolatedCycle(Run(s, rest), Run(t, rest));
    }
  }

  /** The same for the execution loop with its tick counter, after any number of passes. */
  lemma {:induction false} UserIsolationOfExecCycle(s: Exec, t: Exec, n: nat)
    requires UserEqual(s.rm, t.rm) && InUserMode(s.rm)
    requires s.ticks == t.ticks && s.running == t.running
    ensures Isolated(s.rm, t.rm, Steps(s, n).rm, Steps(t, n).rm)
    ensures Steps(s, n).ticks == Steps(t, n).ticks && Steps(s, n).running == Steps(t, n).running
  {
    if n == 0 {
    } else {
      UserIsolationOfExecCycle(s, t, n - 1);
      IsolatedCycle(Steps(s, n - 1).rm, Steps(t, n - 1).rm);
    }
  }

  /** User code never stops the machine: only a HALT executed in supervisor mode could. */
  lemma {:induction false} UserModeNeverHalts(e: Exec, n: nat)
    requires InUserMode(e.rm) && e.running && e.rm.cpu.si != SI_HALT
    ensures Steps(e, n).running && Steps(e, n).rm.cpu.si != SI_HALT && InUserMode(Steps(e, n).rm)
  {
    if n == 0 {
    } else {
      UserModeNeverHalts(e, n - 1);
      IsolatedCycle(Steps(e, n - 1).rm, Steps(e, n - 1).rm);
      UserCycleRaisesNoHalt(Steps(e, n - 1).rm);
    }
  }

  lemma UserCycleRaisesNoHalt(s: Rm)
    requires InUserMode(s) && s.cpu.si != SI_HALT
    ensures OneCycle(s).rm.cpu.si != SI_HALT
  {
  }

  /** Outside user mode the isolation fails: a supervisor LOAD brings a supervisor cell into a register. */
  lemma SupervisorModeLeaks() returns (s: Rm, t: Rm)
    ensures UserEqual(s, t) && s.cpu.mode == MODE_SUPERVISOR
    ensures OneCycle(s).rm.cpu != OneCycle(t).rm.cpu
  {
    // LOAD R0 through cell 1, which holds 256
    var code: Cells := seq(MEMORY_SIZE, i => if i == 0 then 0x1101 else if i == 1 then 256 else 0);
    s := Rm(Cpu(0, ZERO_REGISTERS, 0, MODE_SUPERVISOR, 0, 0, 0, 0), code);
    t := s.(cells := code[256 := 7]);
    assert Fields(0x1101) == Instruction(OP_LOAD, 0, 0, 2, 1);
    assert UserCells(s) == UserCells(t);
    assert OneCycle(s).rm.cpu.r[0] == 0;
    assert OneCycle(t).rm.cpu.r[0] == 7;
  }
}
