/**
  The invariant over whole runs: every dispatch, every cycle and every reachable
  state keeps it, so the memory, CPU and timer units are back after each
  iteration and at most one I/O request is ever in flight.
  */
module KernelSafety {
  import opened Words
  import opened Isa
  import opened Disk
  import opened VirtualMachine
  import opened Loader
  import opened Swapper
  import opened KernelModel
  import opened KernelInvariant

  // Interrupt handling

  /** With quiet latches only the timer branch can be taken. */
  lemma HandleInterruptsGood(k: Kernel, fired: bool)
    requires Good(k, 2, 0, 0)
    ensures Good(KernelHandleInterrupts(k, fired), 2, 0, 0)
  {
    OnlyTheTimer(k, fired);
    if fired {
      ContextSwitchGood(TimerTaken(k), 2, 0, 0);
    }
  }

  /** The state in which an expired timer switches contexts: the latch is cleared again. */
  function TimerTaken(k: Kernel): Kernel {
    LatchTimer(k, false).(lastTi := TI_EXPIRED)
  }

  /** With quiet latches only the timer branch can be taken, and it only when the timer has just gone off. */
  lemma OnlyTheTimer(k: Kernel, fired: bool)
    requires LatchesQuiet(k)
    ensures KernelHandleInterrupts(k, fired) ==
            if fired then ContextSwitch(TimerTaken(k)) else LatchTimer(k, false).(lastTi := TI_NONE)
  {
  }

  /** With the timer unit granted and quiet latches, the handler changes slots only by handling interrupts. */
  lemma HandlerWithTimer(k: Kernel, i: nat, fired: bool)
    requires Good(k, 2, 0, 1) && k.current == Some(i) && Occupied(k, i)
    ensures
      var k1 := KernelHandleInterrupts(AfterRequest(k, RES_TMR, i), fired);
      var k' := InterruptHandler(k, fired);
      && k'.slots == k1.slots && k'.cpu == k1.cpu && k'.history == k1.history
      && k'.current == k1.current && k'.added == k1.added
  {
    RequestTmr(k, i);
    ClaimIsRequest(k, i);
    var k1 := KernelHandleInterrupts(AfterRequest(k, RES_TMR, i), fired);
    HandleInterruptsGood(AfterRequest(k, RES_TMR, i), fired);
    ServedQuietly(k1);
  }

  lemma ClaimIsRequest(k: Kernel, i: nat)
    requires k.current == Some(i) && Occupied(k, i)
    ensures ClaimTimer(k) == AfterRequest(k, RES_TMR, i) && (TimerGranted(k) <==> Grants(k, RES_TMR))
  {
  }

  lemma ServedQuietly(k: Kernel)
    requires Good(k, 2, 0, 0)
    ensures
      var k' := ReleaseRes(React(k), RES_TMR);
      && k'.slots == k.slots && k'.cpu == k.cpu && k'.history == k.history
      && k'.current == k.current && k'.added == k.added
  {
    QuietReaction(k);
    ReleaseTmr(React(k));
  }

  lemma QuietReaction(k: Kernel)
    requires k.lastPi == PI_NONE && k.lastSi == SI_NONE
    ensures React(k) == k.(lastPi := 0, lastSi := 0, lastTi := 0)
  {
  }

  lemma InterruptHandlerGood(k: Kernel, fired: bool)
    requires Good(k, 2, 0, 1)
    requires k.current.Some?
    ensures Good(InterruptHandler(k, fired), 2, 0, 1)
  {
    RequestTmr(k, k.current.value);
    var k0 := AfterRequest(k, RES_TMR, k.current.value);
    HandleInterruptsGood(k0, fired);
    var k1 := KernelHandleInterrupts(k0, fired);
    var k2 := k1.(lastPi := 0, lastSi := 0, lastTi := 0);
    assert ReactToPi(ReactToSi(k1)) == k1;
    ReleaseTmr(k2);
  }

  // Job governors and loaders

  lemma EntryTrap(k: Kernel, i: nat, vm: Vm)
    requires Good(k, 2, 0, 1) && Occupied(k, i) && RunOperations(vm).rc == RC_TRAPPED
    ensures
      var o := RunOperations(vm).vm;
      var k' := EnqueueIo(k, i, o.trapCode, o.trapR0, o.trapR1, o.trapR2);
      Good(k', 2, 0, 1) && Occupied(k', i)
  {
    RunOperationsOutcome(vm);
    var o := RunOperations(vm).vm;
    EnqueueIoGood(k, i, o.trapCode, o.trapR0, o.trapR1, o.trapR2, 2, 0, 1);
  }

  lemma BlockGovernorGood(k: Kernel, i: nat)
    requires Good(k, 2, 0, 1) && Occupied(k, i)
    ensures Good(BlockGovernor(k, i), 2, 0, 1)
  {
    PutGood(k, i, At(k, i).(state := BLOCKED), 2, 0, 1);
  }

  lemma RunGovernorVmGood(k: Kernel, i: nat)
    requires Good(k, 2, 0, 1) && Occupied(k, i) && At(k, i).vm.Some?
    ensures Good(RunGovernorVm(k, i).k, 2, 0, 1)
  {
    var p := At(k, i);
    var o := RunOperations(p.vm.value);
    var k1 := Log(k, VmRan(p.serial));
    if o.rc == RC_TRAPPED {
      PutGood(k1, i, p.(vm := Some(o.vm)), 2, 0, 1);
      EntryTrap(Put(k1, i, p.(vm := Some(o.vm))), i, p.vm.value);
      var k2 := Put(k1, i, p.(vm := Some(o.vm)));
      BlockGovernorGood(EnqueueIo(k2, i, o.vm.trapCode, o.vm.trapR0, o.vm.trapR1, o.vm.trapR2), i);
    } else {
      PutGood(k1, i, p.(vm := None, loaded := DONE), 2, 0, 1);
    }
  }

  lemma JobGovernorGood(k: Kernel, i: nat)
    requires Good(k, 2, 0, 1) && Occupied(k, i)
    ensures Good(JobGovernor(k, i).k, 2, 0, 1)
  {
    var p := At(k, i);
    if p.vm.Some? {
      if p.loaded == NOT_REQUESTED {
        AddProcGood(k, LoaderFor(p), 2, 0, 1);
        PutGood(Log(AddProc(k, LoaderFor(p)), LoadRequested(p.serial)), i, p.(loaded := LOADING, state := BLOCKED),
                2, 0, 1);
      } else if p.loaded == LOADING {
        BlockGovernorGood(k, i);
      } else if p.loaded == LOADED {
        RunGovernorVmGood(k, i);
      }
    }
  }

  lemma ContextsAreQuiet(k: Kernel, j: nat, mem: int, cpu: int, tmr: int)
    requires Good(k, mem, cpu, tmr) && Occupied(k, j)
    ensures Quiet(At(k, j).context)
  {
  }

  lemma LoadIntoGood(k: Kernel, j: nat, fileId: Word)
    requires Good(k, 1, 0, 1) && Occupied(k, j) && At(k, j).vm.Some?
    ensures Good(LoadInto(k, j, fileId), 1, 0, 1) && Occupied(LoadInto(k, j, fileId), j)
  {
    hide Good, LowestSlot, LoadFile;
    assert Quiet(At(k, j).context) by { ContextsAreQuiet(k, j, 1, 0, 1); }
    var parent := At(k, j);
    var vm' := LoadFile(parent.vm.value, k.disk, k.files, fileId);
    PutGood(k, j, parent.(vm := Some(vm')), 1, 0, 1);
    UnblockGood(Put(k, j, parent.(vm := Some(vm'))), parent.pid, 1, 0, 1);
  }

  lemma RunLoaderGood(k: Kernel, i: nat)
    requires Good(k, 2, 0, 1) && Occupied(k, i)
    ensures Good(RunLoader(k, i).k, 2, 0, 1)
  {
    hide LowestSlot;
    var p := At(k, i);
    var parent := LowestSlot(k.slots, HasPid(p.parentPid));
    if parent.Some? && At(k, parent.value).vm.Some? {
      var j := parent.value;
      RequestMem(k, i);
      var k1 := AfterRequest(k, RES_MEM, i);
      LoadIntoGood(k1, j, p.fileId);
      ReleaseMem(LoadInto(k1, j, p.fileId));
      var k2 := ReleaseRes(LoadInto(k1, j, p.fileId), RES_MEM);
      PutGood(k2, j, At(k2, j).(loaded := LOADED, state := READY), 2, 0, 1);
    }
  }

  // The turn of one process

  lemma AfterEntryGood(r: Return, i: nat, pid: Byte)
    requires Good(r.k, 2, 0, 1)
    ensures Good(AfterEntry(r, i, pid), 2, 0, 1)
  {
    if r.rc == 0 {
      RemoveGood(r.k, pid, 2, 0, 1);
    } else if Occupied(r.k, i) {
      PutGood(r.k, i, At(r.k, i).(state := if r.rc < 0 then BLOCKED else READY), 2, 0, 1);
    }
  }

  lemma RunEntryGood(k: Kernel, i: nat, fired: bool)
    requires Good(k, 2, 0, 1) && k.current == Some(i)
    ensures Good(RunEntry(k, i, fired).k, 2, 0, 1)
  {
    match At(k, i).procType
    case START_STOP => ShutdownGood(k, i, 2, 0, 1);
    case IDLE =>
    case JOB_GOVERNOR => JobGovernorGood(k, i);
    case LOADER => RunLoaderGood(k, i);
    case IO_HANDLER => IoHandlerGood(k, 2, 0, 1);
    case INTERRUPT_HANDLER => InterruptHandlerGood(k, fired);
  }

  lemma SuspendedGood(k: Kernel, i: nat, p: Process, d: DiskState, swaps: seq<Word>)
    requires Good(k, 1, 0, 1) && Occupied(k, i) && SameIdentity(At(k, i), p) && p.context == At(k, i).context && !d.busy
    ensures Good(Put(k, i, p).(disk := d, current := None, history := k.history.(swaps := swaps)), 1, 0, 1)
  {
    PutGood(k, i, p, 1, 0, 1);
  }

  lemma SuspendVmGood(k: Kernel, i: nat)
    requires Good(k, 1, 0, 1) && Occupied(k, i) && At(k, i).vm.Some?
    requires
      var vm := At(k, i).vm.value;
      vm.trapCode in {SI_READ, SI_WRITE, SI_SYS} && SafeTrap(vm.trapCode, vm.trapR1, vm.trapR2)
    ensures Good(SuspendVm(k, i), 1, 0, 1)
  {
    hide Good, AfterRequest;
    var vm := At(k, i).vm.value;
    EnqueueIoGood(k, i, vm.trapCode, vm.trapR0, vm.trapR1, vm.trapR2, 1, 0, 1);
    var k1 := EnqueueIo(k, i, vm.trapCode, vm.trapR0, vm.trapR1, vm.trapR2);
    var p := At(k1, i);
    if AcceptsIo(k) && !p.swapped && CanSwap(k.disk, p.swapSlot) {
      SuspendedGood(k1, i, p.(swapped := true, state := SUSP_BLOCKED), SwapOut(k.disk, vm.memory, p.swapSlot),
                    k1.history.swaps + [p.swapSlot]);
    } else {
      SuspendedGood(k1, i, p.(state := SUSP_BLOCKED), k1.disk, k1.history.swaps);
    }
  }

  lemma ExecuteVmGood(k: Kernel, i: nat)
    requires Good(k, 1, 0, 1) && Occupied(k, i) && At(k, i).vm.Some?
    ensures Good(ExecuteVm(k, i), 1, 0, 1)
  {
    var p := At(k, i);
    var o := RunOperations(p.vm.value);
    RunOperationsOutcome(p.vm.value);
    PutGood(k, i, p.(vm := Some(o.vm)), 1, 0, 1);
    var k1 := Put(k, i, p.(vm := Some(o.vm))).(lastTrapPid := p.pid);
    if o.rc == RC_TRAPPED {
      SuspendVmGood(k1, i);
    } else {
      RemoveGood(k1, p.pid, 1, 0, 1);
    }
  }

  lemma RunVmGood(k: Kernel, i: nat)
    requires Good(k, 2, 0, 1) && k.current == Some(i) && Occupied(k, i) && At(k, i).vm.Some?
    ensures Good(RunVm(k, i), 2, 0, 1)
  {
    hide ExecuteVm;
    LoadContextGood(k, i, 2, 0, 1);
    var k1 := LoadContext(k, i);
    RequestMem(k1, i);
    var k2 := AfterRequest(k1, RES_MEM, i);
    var p := At(k2, i);
    if p.swapped && !CanSwap(k.disk, p.swapSlot) {
      PutGood(k2, i, p.(state := SUSP_BLOCKED), 1, 0, 1);
      ReleaseMem(SetState(k2, i, SUSP_BLOCKED));
    } else if p.swapped {
      PutGood(k2, i, At(SwapInFirst(k2, i), i), 1, 0, 1);
      ExecuteVmGood(SwapInFirst(k2, i), i);
      ReleaseMem(ExecuteVm(SwapInFirst(k2, i), i));
    } else {
      ExecuteVmGood(k2, i);
      ReleaseMem(ExecuteVm(k2, i));
    }
  }

  lemma PrologueGood(k: Kernel, i: nat)
    requires Resting(k) && Occupied(k, i)
    ensures Resting(Prologue(k, i)) && Prologue(k, i).current == Some(i) && Occupied(Prologue(k, i), i)
  {
    if k.current.Some? && k.current.value != i {
      SaveContextGood(k, k.current.value, 2, 1, 1);
    }
  }

  lemma TakeTurnGood(k: Kernel, i: nat, fired: bool)
    requires Good(k, 2, 0, 1) && k.current == Some(i) && Occupied(k, i)
    ensures Good(TakeTurn(k, i, fired), 2, 0, 1)
  {
    var p := At(k, i);
    if p.hasEntry {
      RunEntryGood(k, i, fired);
      AfterEntryGood(RunEntry(k, i, fired), i, p.pid);
    } else if p.vm.Some? {
      RunVmGood(k, i);
    }
  }

  /**
    Resource bracketing: one iteration of the scheduler's loop, on every path,
    returns the CPU, memory and timer units it took, leaves nobody waiting for
    them, and keeps the rest of the invariant.
    */
  lemma DispatchKeepsInvariant(k: Kernel, i: nat, fired: bool)
    requires Resting(k)
    ensures Resting(Dispatch(k, i, fired))
  {
    if ReadyAt(k, i) {
      var k1 := Prologue(k, i);
      PrologueGood(k, i);
      RequestCpu(k1, i);
      var k2 := AfterRequest(k1, RES_CPU, i);
      TakeTurnGood(k2, i, fired);
      ReleaseCpu(TakeTurn(k2, i, fired));
    }
  }

  lemma {:induction false} RangeKeepsInvariant(k: Kernel, hi: int, lo: int, fired: set<nat>)
    requires Resting(k) && hi < MAX_PRIORITY && 0 <= lo
    ensures Resting(RunRange(k, hi, lo, fired))
    decreases hi - lo
  {
    hide Good, Dispatch;
    if hi < lo {
    } else {
      DispatchKeepsInvariant(k, hi, hi in fired);
      RangeKeepsInvariant(Dispatch(k, hi, hi in fired), hi - 1, lo, fired);
    }
  }

  lemma CycleKeepsInvariant(k: Kernel, fired: set<nat>)
    requires Resting(k)
    ensures Resting(RunCycle(k, fired))
  {
    RangeKeepsInvariant(k, MAX_PRIORITY - 1, FIRST_SYSTEM_SLOT, fired);
    RangeKeepsInvariant(RunRange(k, MAX_PRIORITY - 1, FIRST_SYSTEM_SLOT, fired), FIRST_SYSTEM_SLOT - 1, 0, fired);
  }

  lemma BootResting(storage: Storage, files: seq<FileEntry>)
    ensures Resting(Boot(storage, files))
  {
    var k := Boot(storage, files);
    assert forall i :: 0 <= i < MAX_PRIORITY && k.slots[i].Some? ==> i == SCHEDULER_SLOT;
  }

  /** Every reachable state satisfies the invariant. */
  lemma {:induction false} Reachable(storage: Storage, files: seq<FileEntry>, acts: seq<Action>)
    ensures Resting(Run(Boot(storage, files), acts))
    decreases |acts|
  {
    if acts == [] {
      BootResting(storage, files);
    } else {
      var front := acts[..|acts| - 1];
      var k := Run(Boot(storage, files), front);
      Reachable(storage, files, front);
      match acts[|acts| - 1]
      case Add(n) => AddProcGood(k, n.(parentPid := 0), 2, 1, 1);
      case Cycle(fired) => CycleKeepsInvariant(k, fired);
    }
  }
}
