/**
  What each instruction of the Real Machine does, told from the fetched word and
  from what a program can observe: registers, flags, memory, the counter and the
  latches after a pass, or after the passes of a short program.
  */
module InstructionLaws {
  import opened Words
  import opened Isa
  import opened RealMachine
  import opened RmProperties

  // The word format, as the instruction set documents it

  function RegA(w: Word): Reg {
    w / 0x200 % 8
  }

  function RegB(w: Word): Reg {
    w / 0x40 % 8
  }

  function AddressMode(w: Word): Mode {
    w / 0x80 % 4
  }

  /** The seven-bit address or immediate value of LOAD and STORE. */
  function Address(w: Word): Word {
    w % 0x80
  }

  /** The nine-bit address of the jumps. */
  function Target(w: Word): Word {
    w % 0x200
  }

  /** User memory is 256 cells; supervisor mode reaches 512. */
  predicate Reaches(s: Rm, a: Word) {
    a < 256 || (a < 512 && s.cpu.mode == 1)
  }

  /** The next pass fetches the word `w`, whose opcode is `op`. */
  predicate Fetches(s: Rm, op: Opcode, w: Word) {
    Reaches(s, s.cpu.ic) && s.cells[s.cpu.ic] == w && w / 0x1000 == op && s.cpu.pi == 0
  }

  function After(s: Rm): Rm {
    OneCycle(s).rm
  }

  /** The counter one further on. */
  function Onward(s: Rm): Word {
    Wrap16(s.cpu.ic + 1)
  }

  /** The pass changed nothing but the counter and the given registers. */
  predicate OnlyRegisters(s: Rm, t: Rm, r: Registers) {
    t == s.(cpu := s.cpu.(ic := Onward(s), r := r))
  }

  /** The pass raised the program interrupt, moved the counter on and changed nothing else. */
  predicate Faults(s: Rm, t: Rm, code: Word) {
    t == s.(cpu := s.cpu.(ic := Onward(s), pi := code))
  }

  // Fetching

  /**
    A pass executes an instruction exactly when no program interrupt is pending,
    the counter is within reach and the opcode is not 15. Otherwise it leaves a
    program interrupt: the one that was pending, the address fault with the
    counter where it was, or the opcode fault with the counter moved on.
    */
  lemma FetchExactly(s: Rm)
    ensures OneCycle(s).executed <==>
            s.cpu.pi == 0 && Reaches(s, s.cpu.ic) && s.cells[s.cpu.ic] / 0x1000 != 15
    ensures !Reaches(s, s.cpu.ic) ==> After(s) == s.(cpu := s.cpu.(pi := 2))
    ensures Reaches(s, s.cpu.ic) && s.cpu.pi != 0 ==> After(s) == s
    ensures s.cpu.pi == 0 && Reaches(s, s.cpu.ic) && s.cells[s.cpu.ic] / 0x1000 == 15 ==> Faults(s, After(s), 1)
  {
  }

  // Comparing and branching

  lemma ComparePass(s: Rm, w: Word)
    requires Fetches(s, 0x7, w)
    ensures
      var t := After(s);
      && t == s.(cpu := s.cpu.(ic := Onward(s), sf := t.cpu.sf)) && OneCycle(s).executed
      && (HasFlag(t.cpu.sf, FLAG_ZERO) <==> s.cpu.r[RegA(w)] == s.cpu.r[RegB(w)])
      && (HasFlag(t.cpu.sf, FLAG_NEGATIVE) <==> s.cpu.r[RegA(w)] < s.cpu.r[RegB(w)])
      && !HasFlag(t.cpu.sf, FLAG_OVERFLOW) && !HasFlag(t.cpu.sf, FLAG_CARRY)
  {
  }

  /** JZ jumps exactly when ZERO is set, JNZ exactly when it is not; nothing else changes. */
  lemma BranchPass(s: Rm, op: Opcode, w: Word)
    requires op in {0x9, 0xA} && Fetches(s, op, w)
    ensures
      var jumps := HasFlag(s.cpu.sf, FLAG_ZERO) == (op == 0x9);
      After(s) == s.(cpu := s.cpu.(ic := if jumps then Target(w) else Onward(s))) && OneCycle(s).executed
  {
  }

  /**
    CMP and a branch: the two passes set NEGATIVE exactly when the first register
    is less than the second, and go on at JZ's target exactly when they are
    equal, at JNZ's exactly when they are not; registers, memory and latches stay.
    */
  lemma CompareThenBranch(s: Rm, w: Word, op: Opcode, w': Word)
    requires Fetches(s, 0x7, w) && op in {0x9, 0xA}
    requires Onward(s) < 256 && s.cells[Onward(s)] == w' && w' / 0x1000 == op
    ensures
      var x, y := s.cpu.r[RegA(w)], s.cpu.r[RegB(w)];
      var t := After(After(s));
      && t == s.(cpu := s.cpu.(ic := t.cpu.ic, sf := t.cpu.sf))
      && (HasFlag(t.cpu.sf, FLAG_NEGATIVE) <==> x < y) && (HasFlag(t.cpu.sf, FLAG_ZERO) <==> x == y)
      && t.cpu.ic == if (op == 0x9 && x == y) || (op == 0xA && x != y) then Target(w') else Wrap16(s.cpu.ic + 2)
  {
    hide OneCycle;
    ComparePass(s, w);
    BranchPass(After(s), op, w');
  }

  // Arithmetic

  /** ADD, SUB and MUL: the true result modulo 2^16, exact flags, and the interrupt exactly when it is out of range. */
  lemma ArithmeticPass(s: Rm, op: Opcode, w: Word)
    requires op in {0x3, 0x4, 0x5} && Fetches(s, op, w)
    ensures
      var x, y := s.cpu.r[RegA(w)] as int, s.cpu.r[RegB(w)] as int;
      var exact := if op == 0x3 then x + y else if op == 0x4 then x - y else x * y;
      var t := After(s);
      && t == s.(cpu := s.cpu.(ic := Onward(s), r := s.cpu.r[RegA(w) := exact % 0x1_0000], sf := t.cpu.sf,
                               pi := if 0 <= exact <= 0xFFFF then 0 else 6))
      && (HasFlag(t.cpu.sf, FLAG_OVERFLOW) <==> !(0 <= exact <= 0xFFFF))
      && (HasFlag(t.cpu.sf, FLAG_CARRY) <==> !(0 <= exact <= 0xFFFF))
      && (HasFlag(t.cpu.sf, FLAG_ZERO) <==> exact % 0x1_0000 == 0)
      && (HasFlag(t.cpu.sf, FLAG_NEGATIVE) <==> exact % 0x1_0000 >= 0x8000)
  {
    hide Arithmetic;
    ArithmeticIsExact(SetIc(s, Onward(s)), op, RegA(w), RegB(w));
  }

  /**
    DIV by a register that is not zero leaves the one quotient `q` with
    q*y <= x < (q+1)*y and no interrupt; by zero it keeps the register and
    raises the division interrupt.
    */
  lemma DividePass(s: Rm, w: Word) returns (q: Word)
    requires Fetches(s, 0x6, w)
    ensures
      var x, y := s.cpu.r[RegA(w)] as int, s.cpu.r[RegB(w)] as int;
      var t := After(s);
      if y == 0 then t == s.(cpu := s.cpu.(ic := Onward(s), sf := 0, pi := 4))
      else
        && q * y <= x < (q + 1) * y
        && t == s.(cpu := s.cpu.(ic := Onward(s), r := s.cpu.r[RegA(w) := q], sf := t.cpu.sf))
        && (HasFlag(t.cpu.sf, FLAG_ZERO) <==> x < y) && (HasFlag(t.cpu.sf, FLAG_NEGATIVE) <==> q >= 0x8000)
        && !HasFlag(t.cpu.sf, FLAG_OVERFLOW) && !HasFlag(t.cpu.sf, FLAG_CARRY)
  {
    var x, y := s.cpu.r[RegA(w)] as int, s.cpu.r[RegB(w)] as int;
    q := 0;
    if y != 0 {
      Quotient(x, y);
      q := x / y;
      FlagBits(false, q);
    }
  }

  lemma Quotient(x: Word, y: Word)
    requires y != 0
    ensures 0 <= x / y <= x && x / y * y <= x < (x / y + 1) * y
    ensures x / y == 0 <==> x < y
  {
    var q, m := x / y, x % y;
    assert x == q * y + m && 0 <= m < y;
    assert (q + 1) * y == q * y + y;
    if q >= 1 {
      Scaled(1, q, y);
      Scaled(1, y, q);
    }
  }

  /** Multiplication keeps an order. */
  lemma Scaled(a: int, b: int, y: nat)
    requires a <= b
    ensures a * y <= b * y
  {
    assert 0 <= (b - a) * y;
  }

  // Memory

  /** LOAD: the value itself, the cell it names, or the cell named there; out of reach, zero and the address fault. */
  lemma LoadPass(s: Rm, w: Word)
    requires Fetches(s, 0x1, w)
    ensures
      var t := After(s);
      var p := s.cells[Address(w)];
      match AddressMode(w)
      case 0 => OnlyRegisters(s, t, s.cpu.r[RegA(w) := Address(w)])
      case 1 => OnlyRegisters(s, t, s.cpu.r[RegA(w) := p])
      case 2 => if Reaches(s, p) then OnlyRegisters(s, t, s.cpu.r[RegA(w) := s.cells[p]])
                else t == s.(cpu := s.cpu.(ic := Onward(s), r := s.cpu.r[RegA(w) := 0], pi := 2))
      case _ => Faults(s, t, 1)
  {
  }

  /** STORE: into the cell it names, or the cell that cell names; out of reach, only the address fault. */
  lemma StorePass(s: Rm, w: Word)
    requires Fetches(s, 0x2, w)
    ensures
      var t := After(s);
      var v, p := s.cpu.r[RegA(w)], s.cells[Address(w)];
      match AddressMode(w)
      case 1 => t == Rm(s.cpu.(ic := Onward(s)), s.cells[Address(w) := v])
      case 2 => if Reaches(s, p) then t == Rm(s.cpu.(ic := Onward(s)), s.cells[p := v]) else Faults(s, t, 2)
      case _ => Faults(s, t, 1)
  {
  }

  /** The cell a LOAD or STORE in mode 1 or 2 speaks of. */
  function CellOf(s: Rm, w: Word): Word {
    if AddressMode(w) == 1 then Address(w) else s.cells[Address(w)]
  }

  /**
    STORE and then LOAD from the same place gives the register back in any
    register, changes that one cell and no other, and raises nothing. The place
    may be named directly or through a pointer; the store must not hit the
    pointer or the LOAD instruction itself.
    */
  lemma StoreThenLoad(s: Rm, w: Word, w': Word)
    requires Fetches(s, 0x2, w) && AddressMode(w) in {1, 2} && Reaches(s, CellOf(s, w))
    requires Onward(s) < 256 && s.cells[Onward(s)] == w' && w' / 0x1000 == 0x1
    requires AddressMode(w') == AddressMode(w) && Address(w') == Address(w)
    requires CellOf(s, w) != Onward(s) && (AddressMode(w) == 2 ==> CellOf(s, w) != Address(w))
    ensures
      var v := s.cpu.r[RegA(w)];
      After(After(s)) ==
      Rm(s.cpu.(ic := Wrap16(s.cpu.ic + 2), r := s.cpu.r[RegA(w') := v]), s.cells[CellOf(s, w) := v])
  {
    hide OneCycle;
    StorePass(s, w);
    LoadPass(After(s), w');
  }

  // Jumps

  /** JMP goes to the address in its nine low bits, and changes nothing else. */
  lemma JumpPass(s: Rm, w: Word)
    requires Fetches(s, 0x8, w)
    ensures After(s) == s.(cpu := s.cpu.(ic := Target(w))) && OneCycle(s).executed
  {
  }

  /**
    JMP in all its modes, for an instruction given by its fields, since no word
    decodes to the modes other than 0: to the operand, to what the cell it names
    holds, or to what the cell named there holds; address 0 and the address
    fault where memory is out of reach.
    */
  lemma JumpModes(s: Rm, i: Instruction)
    requires i.opcode == 0x8
    ensures forall w: Word :: Fields(w).opcode == 0x8 ==> Fields(w).mode == 0
    ensures
      var t := Execute(s, i);
      && (i.mode == 0 ==> t == s.(cpu := s.cpu.(ic := i.operand)))
      && (i.mode == 1 && Reaches(s, i.operand) ==> t == s.(cpu := s.cpu.(ic := s.cells[i.operand])))
      && (i.mode in {1, 2} && !Reaches(s, i.operand) ==> t.cpu.pi == 2 && t.cells == s.cells)
      && (i.mode == 1 && !Reaches(s, i.operand) ==> t.cpu.ic == 0)
      && (i.mode == 2 && Reaches(s, i.operand) && Reaches(s, s.cells[i.operand]) ==>
            t == s.(cpu := s.cpu.(ic := s.cells[s.cells[i.operand]])))
      && (i.mode == 2 && Reaches(s, i.operand) && !Reaches(s, s.cells[i.operand]) ==>
            t == s.(cpu := s.cpu.(ic := 0, pi := 2)))
      && (i.mode == 2 && !Reaches(s, i.operand) ==> t.cpu.ic == s.cells[0])
      && (i.mode == 3 ==> t == s.(cpu := s.cpu.(pi := 1)))
  {
  }

  // Interrupts

  /** READ, WRITE, HALT and SYS raise codes 1, 2, 3 and 4, the first three in supervisor mode only; NOP does nothing. */
  lemma SystemPass(s: Rm, op: Opcode, w: Word)
    requires op in {0x0, 0xB, 0xC, 0xD, 0xE} && Fetches(s, op, w)
    ensures
      var t := After(s);
      var code := if op == 0xB then 1 else if op == 0xC then 2 else if op == 0x0 then 3 else 4;
      if op == 0xD then OnlyRegisters(s, t, s.cpu.r)
      else if op != 0xE && s.cpu.mode != 1 then Faults(s, t, 1)
      else t == s.(cpu := s.cpu.(ic := Onward(s), si := code))
  {
  }

  /**
    An acknowledgement, on the latches. HALT stops the loop and nothing changes.
    Otherwise program and timer interrupts are cleared, and so is every system
    interrupt but SYS; registers, memory and the tick count stay.
    */
  lemma Acknowledgement(e: Exec)
    requires e.running && (e.rm.cpu.pi != 0 || e.rm.cpu.si != 0 || e.rm.cpu.ti != 0)
    requires e.rm.cpu.si <= 4
    ensures
      var c := e.rm.cpu;
      if c.si == 3 then Step(e) == e.(running := false)
      else Step(e) == e.(rm := e.rm.(cpu := c.(pi := 0, ti := 0, si := if c.si == 4 then 4 else 0)))
  {
  }

  /** What the step does to the machine is one pass, but for the timer. */
  predicate ExecutesOne(e: Exec, e': Exec) {
    e'.running && e'.rm == After(e.rm).(cpu := After(e.rm).cpu.(ti := e'.rm.cpu.ti))
  }

  /**
    After an acknowledgement the loop goes on with the next instruction if and
    only if neither HALT nor SYS was raised; after a SYS it never executes
    another.
    */
  lemma GoesOnExactly(e: Exec, n: nat)
    requires e.running && (e.rm.cpu.pi != 0 || e.rm.cpu.si != 0 || e.rm.cpu.ti != 0) && e.rm.cpu.si <= 4
    ensures
      var e1 := Step(e);
      var c := e1.rm.cpu;
      (e1.running && c.pi == 0 && c.si == 0 && c.ti == 0) <==> e.rm.cpu.si !in {3, 4}
    ensures e.rm.cpu.si !in {3, 4} ==> ExecutesOne(Step(e), Step(Step(e)))
    ensures e.rm.cpu.si == 4 ==> Steps(Step(e), n) == Step(e)
  {
    Acknowledgement(e);
    if e.rm.cpu.si == 4 {
      StuckAtSys(Step(e), n);
    }
  }

  lemma {:induction false} StuckAtSys(e: Exec, n: nat)
    requires e.running && e.rm.cpu.si == 4 && e.rm.cpu.pi == 0 && e.rm.cpu.ti == 0
    ensures Steps(e, n) == e
    decreases n
  {
    if n == 0 {
    } else {
      StuckAtSys(e, n - 1);
    }
  }

  // The timer

  /** The next step executes an instruction. */
  predicate Counts(e: Exec) {
    e.running && e.rm.cpu.pi == 0 && e.rm.cpu.si == 0 && e.rm.cpu.ti == 0 && OneCycle(e.rm).executed
  }

  /** How many of the first `n` steps execute an instruction. */
  function Executed(e: Exec, n: nat): nat {
    if n == 0 then 0 else Executed(e, n - 1) + if Counts(Steps(e, n - 1)) then 1 else 0
  }

  lemma TimerStep(e: Exec)
    requires e.ticks < 10
    ensures Step(e).ticks == if Counts(e) then (e.ticks + 1) % 10 else e.ticks
    ensures Counts(e) ==> Step(e).rm.cpu.ti == if e.ticks == 9 then 1 else 0
    ensures !Counts(e) ==> Step(e).rm.cpu.ti in {0, e.rm.cpu.ti}
  {
    TimerUntouched(e.rm);
  }

  lemma TimerUntouched(s: Rm)
    ensures OneCycle(s).rm.cpu.ti == s.cpu.ti
  {
  }

  /**
    The timer goes off at every tenth executed instruction and at no other step:
    over any number of steps the loop has counted the instructions modulo ten,
    acknowledgements and failed passes not included, and a step that executes
    leaves the timer latched exactly when it completes a ten.
    */
  lemma {:induction false} TimerEveryTenth(e: Exec, n: nat)
    requires e.ticks < 10
    ensures Steps(e, n).ticks == (e.ticks + Executed(e, n)) % 10
    ensures
      n > 0 && Counts(Steps(e, n - 1)) ==>
        Steps(e, n).rm.cpu.ti == if (e.ticks + Executed(e, n)) % 10 == 0 then 1 else 0
    ensures n > 0 && !Counts(Steps(e, n - 1)) ==> Steps(e, n).rm.cpu.ti in {0, Steps(e, n - 1).rm.cpu.ti}
    decreases n
  {
    hide Step, Counts;
    if n == 0 {
    } else {
      TimerEveryTenth(e, n - 1);
      TimerStep(Steps(e, n - 1));
    }
  }
}
