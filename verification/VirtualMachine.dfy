/**
  The Virtual Machine: 255 bytes of memory, eight registers, and an interpreter
  that runs until it halts, traps to the kernel, or fails.
  */
module VirtualMachine {
  import opened Words
  import opened Isa

  type VmMemory = s: seq<Byte> | |s| == VM_MEMORY_SIZE witness seq(VM_MEMORY_SIZE, i => 0)

  datatype Vm = Vm(memory: VmMemory, r: Registers, pc: Word, sf: Word, si: Word,
                   trapCode: Word, trapR0: Word, trapR1: Word, trapR2: Word)

  const RC_HALTED := 1
  const RC_TRAPPED := 2
  const RC_FAILED := -1

  datatype Outcome = Outcome(vm: Vm, rc: int)

  /** One trip round the interpreter loop. */
  datatype VmResult = Running(vm: Vm) | Stopped(vm: Vm, rc: int)

  /** The transfer a READ or WRITE asks for lies inside virtual memory. */
  predicate TransferInBounds(address: Word, words: Word) {
    address + 2 * words as int <= VM_MEMORY_SIZE
  }

  function Trap(vm: Vm, code: Word): VmResult {
    Stopped(vm.(trapCode := code, trapR0 := vm.r[0], trapR1 := vm.r[1], trapR2 := vm.r[2]), RC_TRAPPED)
  }

  function TransferTrap(vm: Vm, code: Word): VmResult {
    if !TransferInBounds(vm.r[1], vm.r[2]) then Stopped(vm, RC_FAILED) else Trap(vm, code)
  }

  function VmExecute(vm: Vm, i: Instruction): VmResult {
    if i.opcode == OP_LOAD then Running(vm.(r := vm.r[i.regA := i.operand]))
    else if i.opcode == OP_READ then TransferTrap(vm, SI_READ)
    else if i.opcode == OP_WRITE then TransferTrap(vm, SI_WRITE)
    else if i.opcode == OP_SYS then Trap(vm, SI_SYS)
    else if i.opcode == OP_ADD then
      Running(vm.(r := vm.r[i.regA := Wrap16(vm.r[i.regA] as int + vm.r[i.regB] as int)]))
    else if i.opcode == OP_SUB then
      Running(vm.(r := vm.r[i.regA := Wrap16(vm.r[i.regA] as int - vm.r[i.regB] as int)]))
    else if i.opcode == OP_HALT then Stopped(vm, RC_HALTED)
    else Stopped(vm, RC_FAILED)
  }

  predicate CanFetch(pc: Word) {
    pc + 1 < VM_MEMORY_SIZE
  }

  function VmStep(vm: Vm): (res: VmResult)
    ensures res.vm.memory == vm.memory
    ensures res.vm.pc == if CanFetch(vm.pc) then vm.pc + 2 else vm.pc
    ensures res.Running? ==> CanFetch(vm.pc)
  {
    if !CanFetch(vm.pc) then Stopped(vm, RC_FAILED)
    else
      var raw := Be16(vm.memory, vm.pc);
      var vm1 := vm.(pc := Wrap16(vm.pc + 2));
      if !KnownOpcode(raw) then Stopped(vm1, RC_FAILED) else VmExecute(vm1, Fields(raw))
  }

  function Remaining(vm: Vm): nat {
    if vm.pc < VM_MEMORY_SIZE then VM_MEMORY_SIZE - vm.pc else 0
  }

  function Interpret(vm: Vm): Outcome
    decreases Remaining(vm)
  {
    match VmStep(vm)
    case Running(next) => Interpret(next)
    case Stopped(last, rc) => Outcome(last, rc)
  }

  function ClearTrap(vm: Vm): Vm {
    vm.(trapCode := SI_NONE, trapR0 := 0, trapR1 := 0, trapR2 := 0)
  }

  function RunOperations(vm: Vm): Outcome {
    Interpret(ClearTrap(vm))
  }

  class Interpreter {
    const memoryCells: array<Byte>
    const R: array<Word>
    var PC: Word
    var SF: Word
    var SI: Word
    var trapCode: Word
    var trapR0: Word
    var trapR1: Word
    var trapR2: Word

    ghost predicate Valid()
      reads this
    {
      memoryCells.Length == VM_MEMORY_SIZE && R.Length == REG_COUNT
    }

    ghost function State(): Vm
      reads this, memoryCells, R
      requires Valid()
    {
      Vm(memoryCells[..], R[..], PC, SF, SI, trapCode, trapR0, trapR1, trapR2)
    }

    constructor ()
      ensures Valid() && fresh(memoryCells) && fresh(R)
      ensures State() == Vm(seq(VM_MEMORY_SIZE, i => 0), ZERO_REGISTERS, 0, 0, 0, 0, 0, 0, 0)
    {
      memoryCells := new Byte[VM_MEMORY_SIZE](i => 0);
      R := new Word[REG_COUNT](i => 0);
      PC, SF, SI, trapCode, trapR0, trapR1, trapR2 := 0, 0, 0, 0, 0, 0, 0;
    }

    method ClearRegisters()
      requires Valid()
      modifies R
      ensures R[..] == ZERO_REGISTERS
    {
      forall i | 0 <= i < REG_COUNT {
        R[i] := 0;
      }
    }

    method SetTrap(code: Word)
      requires Valid()
      modifies this`trapCode, this`trapR0, this`trapR1, this`trapR2
      ensures Stopped(State(), RC_TRAPPED) == old(Trap(State(), code))
    {
      trapCode := code;
      trapR0 := R[0];
      trapR1 := R[1];
      trapR2 := R[2];
    }

    /** Fetches and executes one instruction; `rc` is 0 while the program goes on. */
    method RunOne() returns (rc: int)
      requires Valid()
      modifies this`PC, this`trapCode, this`trapR0, this`trapR1, this`trapR2, R
      ensures (if rc == 0 then Running(State()) else Stopped(State(), rc)) == old(VmStep(State()))
    {
      var pc := PC;
      if pc + 1 >= VM_MEMORY_SIZE { return RC_FAILED; }
      var raw: Word := 0x100 * memoryCells[pc] as int + memoryCells[pc + 1] as int;
      assert raw == Be16(memoryCells[..], pc);
      PC := pc + 2;
      var i := new InstructionRecord();
      var status := i.DecodeVirtual(raw);
      if status != 0 { return RC_FAILED; }
      if i.opcode == OP_LOAD {
        R[i.regA] := i.operand;
      } else if i.opcode == OP_READ || i.opcode == OP_WRITE {
        if R[1] + 2 * R[2] as int > VM_MEMORY_SIZE { return RC_FAILED; }
        SetTrap(if i.opcode == OP_READ then SI_READ else SI_WRITE);
        return RC_TRAPPED;
      } else if i.opcode == OP_SYS {
        SetTrap(SI_SYS);
        return RC_TRAPPED;
      } else if i.opcode == OP_ADD {
        R[i.regA] := Wrap16(R[i.regA] as int + R[i.regB] as int);
      } else if i.opcode == OP_SUB {
        R[i.regA] := Wrap16(R[i.regA] as int - R[i.regB] as int);
      } else if i.opcode == OP_HALT {
        return RC_HALTED;
      } else {
        return RC_FAILED;
      }
      return 0;
    }

    /** Runs to the next halt, trap or failure; memory is never written. */
    method Run() returns (rc: int)
      requires Valid()
      modifies this`PC, this`trapCode, this`trapR0, this`trapR1, this`trapR2, R
      ensures Outcome(State(), rc) == old(RunOperations(State()))
    {
      trapCode := SI_NONE;
      trapR0, trapR1, trapR2 := 0, 0, 0;
      ghost var start := State();
      rc := 0;
      while rc == 0
        invariant Interpret(start) == if rc == 0 then Interpret(State()) else Outcome(State(), rc)
        decreases Remaining(State()), if rc == 0 then 1 else 0
      {
        rc := RunOne();
      }
    }
  }

  // What a run can do

  /** A READ or WRITE trap always carries a transfer that lies inside virtual memory. */
  predicate SafeTrap(code: Word, r1: Word, r2: Word) {
    code == SI_READ || code == SI_WRITE ==> TransferInBounds(r1, r2)
  }

  /** A run ends in one of three ways, leaves memory alone, and traps only with safe requests. */
  lemma {:induction false} InterpretOutcome(vm: Vm)
    ensures
      var o := Interpret(vm);
      && o.rc in {RC_HALTED, RC_TRAPPED, RC_FAILED}
      && o.vm.memory == vm.memory
      && (o.rc == RC_TRAPPED ==>
            && o.vm.trapCode in {SI_READ, SI_WRITE, SI_SYS}
            && o.vm.trapR0 == o.vm.r[0] && o.vm.trapR1 == o.vm.r[1] && o.vm.trapR2 == o.vm.r[2]
            && SafeTrap(o.vm.trapCode, o.vm.trapR1, o.vm.trapR2))
      && (o.rc != RC_TRAPPED ==> o.vm.trapCode == vm.trapCode)
    decreases Remaining(vm)
  {
    var step := VmStep(vm);
    if step.Running? {
      InterpretOutcome(step.vm);
    }
  }

  lemma RunOperationsOutcome(vm: Vm)
    ensures
      var o := RunOperations(vm);
      && o.rc in {RC_HALTED, RC_TRAPPED, RC_FAILED}
      && o.vm.memory == vm.memory
      && (o.rc == RC_TRAPPED <==> o.vm.trapCode != SI_NONE)
      && o.vm.trapCode in {SI_NONE, SI_READ, SI_WRITE, SI_SYS}
      && SafeTrap(o.vm.trapCode, o.vm.trapR1, o.vm.trapR2)
  {
    InterpretOutcome(ClearTrap(vm));
  }

  // Whole-life termination

  /** The number of instructions one call fetches. */
  function Fetched(vm: Vm): nat
    decreases Remaining(vm)
  {
    if !CanFetch(vm.pc) then 0
    else match VmStep(vm)
      case Running(next) => 1 + Fetched(next)
      case Stopped(_, _) => 1
  }

  /** What the kernel may do to a machine between two calls: anything to memory and registers. */
  datatype Change = Change(memory: VmMemory, r: Registers)

  function Changed(vm: Vm, c: Change): Vm {
    vm.(memory := c.memory, r := c.r)
  }

  /** Instructions fetched by a first call and one more call after each change. */
  function LifeFetched(vm: Vm, changes: seq<Change>): nat
    decreases |changes|
  {
    Fetched(ClearTrap(vm)) +
    if changes == [] then 0 else LifeFetched(Changed(RunOperations(vm).vm, changes[0]), changes[1..])
  }

  /** The number of instructions that fit between the program counter and the end of memory. */
  function Budget(pc: Word): nat {
    if pc < VM_MEMORY_SIZE then (VM_MEMORY_SIZE - pc) / 2 else 0
  }

  /** Every fetch moves the program counter on by exactly one instruction. */
  lemma {:induction false} FetchedMovesPc(vm: Vm)
    ensures Interpret(vm).vm.pc == vm.pc + 2 * Fetched(vm)
    ensures Fetched(vm) <= Budget(vm.pc)
    ensures Fetched(vm) + Budget(Interpret(vm).vm.pc) == Budget(vm.pc)
    decreases Remaining(vm)
  {
    var step := VmStep(vm);
    if step.Running? {
      FetchedMovesPc(step.vm);
    }
  }

  /** Over its whole life a machine started at `pc` executes at most floor((255 - pc) / 2) instructions. */
  lemma {:induction false} WholeLifeTermination(vm: Vm, changes: seq<Change>)
    ensures LifeFetched(vm, changes) <= Budget(vm.pc)
    decreases |changes|
  {
    FetchedMovesPc(ClearTrap(vm));
    if changes != [] {
      WholeLifeTermination(Changed(RunOperations(vm).vm, changes[0]), changes[1..]);
    }
  }
}
