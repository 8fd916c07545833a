/**
  RM and VM compatibility: which instructions the two machines execute alike,
  and that whole programs made of them end with the same registers.
  */
module Simulation {
  import opened Words
  import opened Isa
  import opened Disk
  import opened RealMachine
  import opened VirtualMachine
  import opened Loader
  import opened ImageLoader

  // One instruction

  /** Words both machines execute alike: HALT, ADD, SUB and the immediate LOAD. */
  predicate Shared(w: Word) {
    var i := Fields(w);
    KnownOpcode(w) && (i.opcode in {OP_HALT, OP_ADD, OP_SUB} || (i.opcode == OP_LOAD && i.mode == 0))
  }

  /**
    The two machines agree on what an instruction does: both go on to the next
    instruction with the same registers, or both halt with the same registers.
    The Real Machine may latch an overflow, which its loop clears and survives.
    */
  predicate SameEffect(vmBefore: Vm, rmBefore: Rm, i: Instruction) {
    var v := VmExecute(vmBefore, i);
    var c := Execute(rmBefore, i).cpu;
    && v.vm.r == c.r
    && (v.Running? <==> c.si == SI_NONE)
    && (v.Running? ==> c.ic == rmBefore.cpu.ic)
    && (v.Stopped? ==> v.rc == RC_HALTED && c.si == SI_HALT)
  }

  /** Machines about to execute the same instruction: equal registers, supervisor mode, nothing pending. */
  predicate Ready2(vm: Vm, rm: Rm) {
    vm.r == rm.cpu.r && rm.cpu.mode == MODE_SUPERVISOR && !Interrupted(rm.cpu)
  }

  /** Whatever the registers and memories hold, the two machines do the same with this word. */
  ghost predicate AlwaysAgree(w: Word) {
    KnownOpcode(w) && forall vm: Vm, rm: Rm :: Ready2(vm, rm) ==> SameEffect(vm, rm, Fields(w))
  }

  lemma SharedAgree(vm: Vm, rm: Rm, w: Word)
    requires Shared(w) && Ready2(vm, rm)
    ensures SameEffect(vm, rm, Fields(w))
    ensures Execute(rm, Fields(w)).cells == rm.cells
    ensures Execute(rm, Fields(w)).cpu.mode == MODE_SUPERVISOR && Execute(rm, Fields(w)).cpu.ti == TI_NONE
  {
  }

  /** A state in which the two machines can be told apart on a word outside the shared set. */
  function Witness(w: Word): (vm: Vm)
  {
    var r: Registers := if Fields(w).regA == 0 then [1000, 1, 1, 1, 1, 1, 1, 1]
                        else [1, 1000, 1000, 1000, 1000, 1000, 1000, 1000];
    Vm(seq(VM_MEMORY_SIZE, b => 0), r, 0, 0, 0, 0, 0, 0, 0)
  }

  function WitnessRm(w: Word): (rm: Rm)
    ensures Ready2(Witness(w), rm)
  {
    Rm(Cpu(600, Witness(w).r, 0, MODE_SUPERVISOR, 0, 0, 0, 0), seq(MEMORY_SIZE, a => 200))
  }

  lemma OthersDiffer(w: Word)
    requires !Shared(w) && KnownOpcode(w)
    ensures !SameEffect(Witness(w), WitnessRm(w), Fields(w))
  {
    var i := Fields(w);
    assert Witness(w).r[i.regA] == 1000;
    if i.opcode == OP_LOAD {
      assert VmExecute(Witness(w), i).vm.r[i.regA] == i.operand;
      assert Execute(WitnessRm(w), i).cpu.r[i.regA] != i.operand;
    }
  }

  /** Instruction-level compatibility, exactly: the machines always agree on a word if and only if it is shared. */
  lemma CompatibleExactlyOnShared(w: Word)
    ensures AlwaysAgree(w) <==> Shared(w)
  {
    if Shared(w) {
      forall vm: Vm, rm: Rm | Ready2(vm, rm)
        ensures SameEffect(vm, rm, Fields(w))
      {
        SharedAgree(vm, rm, w);
      }
    } else if KnownOpcode(w) {
      OthersDiffer(w);
    }
  }

  // Whole programs

  /** From index `e` on, the words are shared instructions up to the first HALT, `k` instructions later. */
  predicate StraightLine(words: seq<Word>, e: nat, k: nat) {
    && e + k < |words|
    && (forall j :: e <= j < e + k ==> Shared(words[j]) && Fields(words[j]).opcode != OP_HALT)
    && Fields(words[e + k]).opcode == OP_HALT
  }

  /** The two machines stand at instruction `i` of the same program with the same registers. */
  predicate InStep(vm: Vm, rm: Rm, la: Word, ra: Word, words: seq<Word>, i: nat) {
    && Ready2(vm, rm)
    && VmHolds(vm.memory, la, words) && RmHolds(rm.cells, ra, words)
    && i < |words|
    && vm.pc == la + 2 * i && rm.cpu.ic == ra + i
  }

  /** At the same instruction the Real Machine's pass and the interpreter's step execute the same word. */
  lemma BothFetch(vm: Vm, rm: Rm, la: Word, ra: Word, words: seq<Word>, i: nat)
    requires InStep(vm, rm, la, ra, words, i) && Shared(words[i])
    ensures VmStep(vm) == VmExecute(vm.(pc := Wrap16(vm.pc + 2)), Fields(words[i]))
    ensures OneCycle(rm) == Cycle(Execute(SetIc(rm, Wrap16(rm.cpu.ic + 1)), Fields(words[i])), true)
  {
    assert Be16(vm.memory, la + 2 * i) == words[i] && rm.cells[ra + i] == words[i];
  }

  /** A latched overflow or timer expiry is acknowledged in one pass and leaves the machine running. */
  lemma Acknowledged(e: Exec)
    requires e.running && e.rm.cpu.si == SI_NONE && Interrupted(e.rm.cpu)
    ensures Step(e) == e.(rm := e.rm.(cpu := e.rm.cpu.(pi := PI_NONE, ti := TI_NONE)))
  {
  }

  /** One shared instruction costs the Real Machine one or two passes and keeps the machines in step. */
  lemma OneInstruction(vm: Vm, e: Exec, la: Word, ra: Word, words: seq<Word>, i: nat) returns (n: nat, vm': Vm)
    requires e.running && InStep(vm, e.rm, la, ra, words, i)
    requires Shared(words[i]) && Fields(words[i]).opcode != OP_HALT && i + 1 < |words|
    ensures 1 <= n <= 2 && VmStep(vm) == Running(vm')
    ensures Steps(e, n).running && InStep(vm', Steps(e, n).rm, la, ra, words, i + 1)
  {
    hide Execute, VmHolds, RmHolds;
    BothFetch(vm, e.rm, la, ra, words, i);
    SharedAgree(vm.(pc := Wrap16(vm.pc + 2)), SetIc(e.rm, Wrap16(e.rm.cpu.ic + 1)), words[i]);
    vm' := VmStep(vm).vm;
    var e1 := Step(e);
    assert e1.running && e1.rm.cpu.si == SI_NONE;
    assert Steps(e, 1) == Step(Steps(e, 0));
    if Interrupted(e1.rm.cpu) {
      Acknowledged(e1);
      assert Steps(e, 2) == Step(Steps(e, 1));
      n := 2;
    } else {
      n := 1;
    }
  }

  /** HALT stops both machines with the registers they had. */
  lemma BothHalt(vm: Vm, e: Exec, la: Word, ra: Word, words: seq<Word>, i: nat)
    requires e.running && InStep(vm, e.rm, la, ra, words, i) && Fields(words[i]).opcode == OP_HALT
    ensures Interpret(vm).vm.r == vm.r && HaltAlike(vm, e, 2)
  {
    BothFetch(vm, e.rm, la, ra, words, i);
    var e1 := Step(e);
    assert e1.running && e1.rm.cpu.si == SI_HALT && e1.rm.cpu.r == vm.r;
    assert Steps(e, 1) == Step(Steps(e, 0));
    assert Steps(e, 2) == Step(Steps(e, 1));
  }

  lemma StraightHead(words: seq<Word>, i: nat, k: nat)
    requires StraightLine(words, i, k) && k > 0
    ensures i + 1 < |words| && Shared(words[i]) && Fields(words[i]).opcode != OP_HALT
  {
  }

  lemma StraightTail(words: seq<Word>, i: nat, k: nat)
    requires StraightLine(words, i, k) && k > 0
    ensures StraightLine(words, i + 1, k - 1)
  {
  }

  /** Both machines come to a halt, the Real Machine after `n` passes, with equal registers. */
  predicate HaltAlike(vm: Vm, e: Exec, n: nat) {
    var o := Interpret(vm);
    o.rc == RC_HALTED && !Steps(e, n).running && Steps(e, n).rm.cpu.r == o.vm.r
  }

  lemma HaltAlikeEarlier(vm: Vm, vm': Vm, e: Exec, e': Exec, m: nat, n: nat)
    requires VmStep(vm) == Running(vm') && e' == Steps(e, m) && HaltAlike(vm', e', n)
    ensures HaltAlike(vm, e, m + n)
  {
    StepsAdd(e, m, n);
  }

  /** In step at the start, the machines halt with equal registers. */
  lemma {:induction false} RunTogether(vm: Vm, e: Exec, la: Word, ra: Word, words: seq<Word>, i: nat, k: nat)
    returns (n: nat)
    requires e.running && InStep(vm, e.rm, la, ra, words, i) && StraightLine(words, i, k)
    ensures HaltAlike(vm, e, n)
    decreases k
  {
    hide HaltAlike, InStep, Steps;
    if k == 0 {
      BothHalt(vm, e, la, ra, words, i);
      n := 2;
    } else {
      StraightHead(words, i, k);
      var m, vm' := OneInstruction(vm, e, la, ra, words, i);
      StraightTail(words, i, k);
      var e' := Steps(e, m);
      var m' := RunTogether(vm', e', la, ra, words, i + 1, k - 1);
      HaltAlikeEarlier(vm, vm', e, e', m, m');
      n := m + m';
    }
  }

  /**
    RM/VM simulation. Load one image into a virtual machine and into a Real
    Machine in supervisor mode with zero registers and nothing pending. If from
    its entry point it is immediate LOADs, ADDs and SUBs up to a HALT, then the
    interpreter halts, the Real Machine's loop stops, and all eight registers
    are equal, however often overflow and the timer interrupted the loop. The
    loop then stays stopped.
    */
  lemma MachinesAgree(vm: Vm, rm: Rm, d: DiskState, files: seq<FileEntry>, fileId: Word, la: Word, k: nat)
    returns (n: nat)
    requires LoadSucceeds(d, files, fileId)
    requires ImageLoads(d, FindFile(files, fileId).value.startSector, la)
    requires rm.cpu.r == ZERO_REGISTERS && rm.cpu.mode == MODE_SUPERVISOR && !Interrupted(rm.cpu)
    requires
      var start := FindFile(files, fileId).value.startSector;
      var h := ReadHeader(d.storage[start]);
      StraightLine(ImageWords(d.storage, start, h.wordCount), h.entryOffset, k)
    ensures
      var o := RunOperations(LoadFile(vm, d, files, fileId));
      var e := Exec(LoadImage(rm, d, FindFile(files, fileId).value.startSector, la), 0, true);
      && o.rc == RC_HALTED
      && forall m :: m >= n ==> !Steps(e, m).running && Steps(e, m).rm.cpu.r == o.vm.r
  {
    var start := FindFile(files, fileId).value.startSector;
    var h := ReadHeader(d.storage[start]);
    var words := ImageWords(d.storage, start, h.wordCount);
    var vm1 := ClearTrap(LoadFile(vm, d, files, fileId));
    var e := Exec(LoadImage(rm, d, start, la), 0, true);
    VmLoaded(vm, d, files, fileId);
    RmLoaded(rm, d, start, la);
    n := RunTogether(vm1, e, h.loadAddress, la, words, h.entryOffset, k);
    forall m | m >= n
      ensures Steps(e, m) == Steps(e, n)
    {
      StaysStopped(e, n, m);
    }
  }
}
