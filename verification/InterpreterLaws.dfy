/**
  What the interpreter of the Virtual Machine does, told from the words it
  fetches: one instruction at a time, and at the end of a call.
  */
module InterpreterLaws {
  import opened Words
  import opened Isa
  import opened VirtualMachine

  /** The word the interpreter fetches at an address: high byte first. */
  function WordAt(mem: VmMemory, pc: nat): Word
    requires pc + 1 < VM_MEMORY_SIZE
  {
    256 * mem[pc] as int + mem[pc + 1] as int
  }

  /** LOAD, ADD and SUB: the only opcodes after which a program goes on. */
  predicate GoesOn(w: Word) {
    w / 0x1000 in {0x1, 0x3, 0x4}
  }

  /** The register file after one of those. */
  function AfterWord(r: Registers, w: Word): Registers
    requires GoesOn(w)
  {
    var a, b := w / 0x200 % 8, w / 0x40 % 8;
    var v := if w / 0x1000 == 0x1 then w % 0x80
             else if w / 0x1000 == 0x3 then (r[a] as int + r[b] as int) % 0x1_0000
             else (r[a] as int - r[b] as int) % 0x1_0000;
    r[a := v]
  }

  /** The interpreter goes on exactly when it fetches one of those, and then changes one register and the counter. */
  lemma StepLaw(vm: Vm)
    ensures VmStep(vm).Running? <==> vm.pc + 1 < 255 && GoesOn(WordAt(vm.memory, vm.pc))
    ensures VmStep(vm).Running? ==>
              VmStep(vm).vm == vm.(pc := vm.pc + 2, r := AfterWord(vm.r, WordAt(vm.memory, vm.pc)))
  {
  }

  /** A transfer that a READ or WRITE may ask for: it ends inside the 255 bytes. */
  predicate MayAsk(r: Registers) {
    r[1] + 2 * r[2] as int <= 255
  }

  /** Return code, trap code and trap registers are those of a call that the word `w` ended. */
  predicate EndsWith(o: Outcome, w: Word) {
    var op := w / 0x1000;
    && (o.rc == RC_HALTED <==> op == 0x0)
    && (o.rc == RC_TRAPPED <==> op == 0xE || (op in {0xB, 0xC} && MayAsk(o.vm.r)))
    && (o.rc == RC_FAILED <==> op !in {0x0, 0xB, 0xC, 0xE} || (op in {0xB, 0xC} && !MayAsk(o.vm.r)))
    && (o.rc == RC_TRAPPED ==>
          && o.vm.trapCode == (if op == 0xB then 1 else if op == 0xC then 2 else 4)
          && o.vm.trapR0 == o.vm.r[0] && o.vm.trapR1 == o.vm.r[1] && o.vm.trapR2 == o.vm.r[2])
  }

  lemma StopLaw(vm: Vm)
    requires vm.pc + 1 < 255 && !GoesOn(WordAt(vm.memory, vm.pc))
    ensures
      var res := VmStep(vm);
      && res.Stopped? && res.vm.r == vm.r && res.vm.pc == vm.pc + 2
      && EndsWith(Outcome(res.vm, res.rc), WordAt(vm.memory, vm.pc))
      && (res.rc != RC_TRAPPED ==> res.vm == vm.(pc := vm.pc + 2))
  {
  }

  /** Every word between the two addresses lets the program go on. */
  predicate StraightOn(mem: VmMemory, pc: nat, end: nat)
    requires pc <= end <= VM_MEMORY_SIZE && (end - pc) % 2 == 0
    decreases end - pc
  {
    pc == end || (GoesOn(WordAt(mem, pc)) && StraightOn(mem, pc + 2, end))
  }

  /** The registers after running the words from `pc` up to `end`, all of which go on. */
  function Through(mem: VmMemory, r: Registers, pc: nat, end: nat): Registers
    requires pc <= end <= VM_MEMORY_SIZE && (end - pc) % 2 == 0 && StraightOn(mem, pc, end)
    decreases end - pc
  {
    if pc == end then r else Through(mem, AfterWord(r, WordAt(mem, pc)), pc + 2, end)
  }

  /**
    How a call that starts inside memory ends: it runs through words that go on,
    and then either off the end of memory, or into the first word that does not.
    */
  predicate EndsProperly(vm: Vm, o: Outcome)
    requires vm.pc + 1 < 255
  {
    && o.vm.memory == vm.memory && vm.pc < o.vm.pc <= 255 && (o.vm.pc - vm.pc) % 2 == 0
    && var w := WordAt(vm.memory, o.vm.pc - 2);
    && StraightOn(vm.memory, vm.pc, o.vm.pc - 2)
    && if GoesOn(w) then
         && o.rc == RC_FAILED && o.vm.pc + 1 >= 255
         && o.vm.r == AfterWord(Through(vm.memory, vm.r, vm.pc, o.vm.pc - 2), w)
       else o.vm.r == Through(vm.memory, vm.r, vm.pc, o.vm.pc - 2) && EndsWith(o, w)
  }

  /** One more word in front. */
  lemma EndsEarlier(vm: Vm, next: Vm, o: Outcome)
    requires vm.pc + 3 < 255 && GoesOn(WordAt(vm.memory, vm.pc))
    requires next.memory == vm.memory && next.pc == vm.pc + 2 && next.r == AfterWord(vm.r, WordAt(vm.memory, vm.pc))
    requires EndsProperly(next, o)
    ensures EndsProperly(vm, o)
  {
    hide AfterWord, EndsWith;
  }

  /** The last word before the end of memory goes on, and there is no other. */
  lemma EndsOff(vm: Vm, next: Vm)
    requires vm.pc + 1 < 255 <= vm.pc + 3 && GoesOn(WordAt(vm.memory, vm.pc))
    requires next.memory == vm.memory && next.pc == vm.pc + 2 && next.r == AfterWord(vm.r, WordAt(vm.memory, vm.pc))
    ensures EndsProperly(vm, Outcome(next, RC_FAILED))
  {
  }

  lemma EndsHere(vm: Vm, o: Outcome)
    requires vm.pc + 1 < 255 && !GoesOn(WordAt(vm.memory, vm.pc)) && EndsWith(o, WordAt(vm.memory, vm.pc))
    requires o.vm.memory == vm.memory && o.vm.pc == vm.pc + 2 && o.vm.r == vm.r
    ensures EndsProperly(vm, o)
  {
  }

  lemma {:induction false} InterpretEnds(vm: Vm)
    requires vm.pc + 1 < 255
    ensures EndsProperly(vm, Interpret(vm))
    ensures Interpret(vm).rc != RC_TRAPPED ==>
              Interpret(vm).vm == vm.(r := Interpret(vm).vm.r, pc := Interpret(vm).vm.pc)
    decreases 255 - vm.pc
  {
    hide EndsProperly, EndsWith, GoesOn, AfterWord, WordAt, VmStep;
    var res := VmStep(vm);
    StepLaw(vm);
    if !GoesOn(WordAt(vm.memory, vm.pc)) {
      StopLaw(vm);
      EndsHere(vm, Outcome(res.vm, res.rc));
    } else if vm.pc + 3 >= 255 {
      RunsOff(res.vm);
      EndsOff(vm, res.vm);
    } else {
      InterpretEnds(res.vm);
      EndsEarlier(vm, res.vm, Interpret(vm));
    }
  }

  lemma RunsOff(vm: Vm)
    requires vm.pc + 1 >= 255
    ensures Interpret(vm) == Outcome(vm, RC_FAILED)
  {
  }

  /** A call that starts outside memory fails at once. */
  lemma OutsideFails(vm: Vm)
    requires vm.pc + 1 >= 255
    ensures RunOperations(vm) == Outcome(ClearTrap(vm), RC_FAILED)
  {
    RunsOff(ClearTrap(vm));
  }

  /**
    A call of the interpreter, exactly, from the words in memory. Let `w` be the
    word before the final counter. The call traps with code 1, 2 or 4 if and only
    if `w` has opcode 0xB, 0xC or 0xE, for the first two with a transfer inside
    the 255 bytes, and then carries the first three registers. It halts if and
    only if the opcode is 0. It fails if and only if the opcode is another, the
    transfer leaves memory, or the program ran off the end. The registers are
    those after all the words run through.
    */
  lemma CallExactly(vm: Vm)
    requires vm.pc + 1 < 255
    ensures
      var o := RunOperations(vm);
      && EndsProperly(vm, o)
      && var op := WordAt(vm.memory, o.vm.pc - 2) / 0x1000;
      && (o.rc == RC_TRAPPED && o.vm.trapCode == 1 <==> op == 0xB && MayAsk(o.vm.r))
      && (o.rc == RC_TRAPPED && o.vm.trapCode == 2 <==> op == 0xC && MayAsk(o.vm.r))
      && (o.rc == RC_TRAPPED && o.vm.trapCode == 4 <==> op == 0xE)
      && (o.rc == RC_HALTED <==> op == 0x0)
      && (o.rc == RC_FAILED <==> op !in {0x0, 0xB, 0xC, 0xE} || (op in {0xB, 0xC} && !MayAsk(o.vm.r)))
      && (o.rc == RC_TRAPPED ==>
            o.vm.trapR0 == o.vm.r[0] && o.vm.trapR1 == o.vm.r[1] && o.vm.trapR2 == o.vm.r[2])
      && (o.rc != RC_TRAPPED ==> o.vm.trapCode == 0)
  {
    InterpretEnds(ClearTrap(vm));
  }
}
