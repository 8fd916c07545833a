/**
  What the kernel's operations leave alone: who sits in which slot, how far each
  governor's load has come, and what has been recorded about turns and governors.
  */
module Frames {
  import opened Words
  import opened Isa
  import opened VirtualMachine
  import opened Swapper
  import opened KernelModel
  import opened KernelInvariant
  import opened KernelSafety

  /** No process appears, and a process that stays keeps its identity and its load progress. */
  predicate Steady(s: Slots, s': Slots) {
    forall i :: 0 <= i < MAX_PRIORITY && s'[i].Some? ==>
                  s[i].Some? && SameIdentity(s[i].value, s'[i].value) && s'[i].value.loaded == s[i].value.loaded
  }

  predicate SameContexts(s: Slots, s': Slots) {
    forall i :: 0 <= i < MAX_PRIORITY && s[i].Some? && s'[i].Some? ==> s'[i].value.context == s[i].value.context
  }

  /** Nobody starts running. */
  predicate NoneStarts(s: Slots, s': Slots) {
    forall i :: 0 <= i < MAX_PRIORITY && s'[i].Some? && s'[i].value.state == RUNNING ==>
                  s[i].Some? && s[i].value.state == RUNNING
  }

  /** Nothing is recorded about turns, governors and saves, and what was recorded of them stays true. */
  predicate Kept(k: Kernel, k': Kernel) {
    && Steady(k.slots, k'.slots) && SameContexts(k.slots, k'.slots)
    && k'.added == k.added
    && k'.history.governors == k.history.governors
    && k'.history.turns == k.history.turns
    && k'.history.saves == k.history.saves
  }

  predicate Undisturbed(k: Kernel, k': Kernel) {
    Kept(k, k') && NoneStarts(k.slots, k'.slots)
  }

  lemma UndisturbedTrans(k: Kernel, k1: Kernel, k2: Kernel)
    requires Kept(k, k1) && Kept(k1, k2)
    ensures Kept(k, k2)
    ensures Undisturbed(k, k1) && Undisturbed(k1, k2) ==> Undisturbed(k, k2)
  {
  }

  /** A context switch that saves nobody, and starts nobody when nobody is runnable. */
  lemma ContextSwitchFrame(k: Kernel)
    requires SavedBy(k).None?
    ensures Kept(k, ContextSwitch(k))
    ensures NextRunnable(k).None? ==> Undisturbed(k, ContextSwitch(k))
  {
  }

  lemma AfterRequestFrame(k: Kernel, id: int, i: nat)
    requires Occupied(k, i)
    ensures Undisturbed(k, AfterRequest(k, id, i)) && Occupied(AfterRequest(k, id, i), i)
  {
  }

  lemma ReleaseResFrame(k: Kernel, id: int)
    ensures Undisturbed(k, ReleaseRes(k, id))
    ensures forall j :: 0 <= j < MAX_PRIORITY && k.slots[j].Some? ==> ReleaseRes(k, id).slots[j].Some?
  {
  }

  lemma EnqueueIoFrame(k: Kernel, i: nat, code: Word, r0: Word, r1: Word, r2: Word)
    requires Occupied(k, i)
    ensures Undisturbed(k, EnqueueIo(k, i, code, r0, r1, r2)) && Occupied(EnqueueIo(k, i, code, r0, r1, r2), i)
  {
    AfterRequestFrame(k, RES_IO, i);
  }

  lemma TransferUndisturbed(k: Kernel, i: nat, req: IoRequest)
    requires Occupied(k, i) && At(k, i).vm.Some?
    ensures Undisturbed(k, Transfer(k, i, req)) && Occupied(Transfer(k, i, req), i)
  {
  }

  lemma PutUndisturbed(k: Kernel, k1: Kernel, i: nat, p: Process)
    requires Undisturbed(k, k1) && Occupied(k1, i) && SameIdentity(At(k1, i), p) && p.loaded == At(k1, i).loaded
    requires p.context == At(k1, i).context && p.state != RUNNING
    ensures Undisturbed(k, Put(k1, i, p))
  {
  }

  lemma CompleteIoUndisturbed(k: Kernel, req: IoRequest)
    ensures Undisturbed(k, CompleteIo(k, req))
  {
    var i := Requester(k, req);
    if i.Some? {
      var k1 := Transfer(k, i.value, req);
      var k2 := ReleaseRes(k1, RES_IO);
      TransferUndisturbed(k, i.value, req);
      ReleaseResFrame(k1, RES_IO);
      UndisturbedTrans(k, k1, k2);
      PutUndisturbed(k, k2, i.value, At(k2, i.value).(state := READY, waitingResId := 0));
    }
  }

  lemma IoHandlerUndisturbed(k: Kernel)
    ensures Undisturbed(k, IoHandler(k))
  {
    if k.ioHead != k.ioTail && k.ioHead < RING_SIZE {
      CompleteIoUndisturbed(k, k.pending[k.ioHead]);
    }
  }

  /** The timer has gone off and there is a machine to switch to. */
  predicate Preempts(k: Kernel, fired: bool) {
    fired && NextRunnable(k).Some?
  }

  /** Who is next depends only on who is runnable. */
  lemma SameNext(k: Kernel, k': Kernel)
    requires k'.prioMin == k.prioMin && k'.prioMax == k.prioMax
    requires forall j :: 0 <= j < MAX_PRIORITY ==> Runnable()(k'.slots[j]) == Runnable()(k.slots[j])
    ensures NextRunnable(k') == NextRunnable(k)
  {
  }

  lemma InterruptHandlerUndisturbed(k: Kernel, fired: bool)
    requires Good(k, 2, 0, 1) && k.current.Some? && At(k, k.current.value).state == READY
    ensures Kept(k, InterruptHandler(k, fired))
    ensures !Preempts(k, fired) ==> Undisturbed(k, InterruptHandler(k, fired))
  {
    var i := k.current.value;
    RequestTmr(k, i);
    var k0 := AfterRequest(k, RES_TMR, i);
    AfterRequestFrame(k, RES_TMR, i);
    SameNext(k, k0);
    HandleInterruptsUndisturbed(k0, fired);
    UndisturbedTrans(k, k0, KernelHandleInterrupts(k0, fired));
    HandlerWithTimer(k, i, fired);
  }

  lemma HandleInterruptsUndisturbed(k: Kernel, fired: bool)
    requires LatchesQuiet(k) && SavedBy(k).None?
    ensures Kept(k, KernelHandleInterrupts(k, fired))
    ensures !Preempts(k, fired) ==> Undisturbed(k, KernelHandleInterrupts(k, fired))
    ensures
      var k' := KernelHandleInterrupts(k, fired);
      k'.lastPi == PI_NONE && k'.lastSi == SI_NONE
  {
    OnlyTheTimer(k, fired);
    SameNext(k, TimerTaken(k));
    ContextSwitchFrame(TimerTaken(k));
    UndisturbedTrans(k, TimerTaken(k), ContextSwitch(TimerTaken(k)));
  }

  lemma RemoveUndisturbed(k: Kernel, pid: Byte)
    ensures Undisturbed(k, RemoveProc(k, pid))
  {
  }

  lemma SuspendVmUndisturbed(k: Kernel, i: nat)
    requires Occupied(k, i) && At(k, i).vm.Some?
    ensures Undisturbed(k, SuspendVm(k, i))
  {
    hide EnqueueIo;
    var vm := At(k, i).vm.value;
    EnqueueIoFrame(k, i, vm.trapCode, vm.trapR0, vm.trapR1, vm.trapR2);
  }

  lemma ExecuteVmUndisturbed(k: Kernel, i: nat)
    requires Occupied(k, i) && At(k, i).vm.Some?
    ensures Undisturbed(k, ExecuteVm(k, i))
  {
    var p := At(k, i);
    var o := RunOperations(p.vm.value);
    var k1 := Put(k, i, p.(vm := Some(o.vm))).(lastTrapPid := p.pid);
    assert Undisturbed(k, k1);
    if o.rc == RC_TRAPPED {
      SuspendVmUndisturbed(k1, i);
      UndisturbedTrans(k, k1, SuspendVm(k1, i));
    } else {
      RemoveUndisturbed(k1, p.pid);
      UndisturbedTrans(k, k1, RemoveProc(k1, p.pid));
    }
  }

  /** Once its context is loaded, a machine's turn starts nobody; loading it starts only the machine's own process. */
  lemma RunVmUndisturbed(k: Kernel, i: nat)
    requires Occupied(k, i) && At(k, i).vm.Some?
    ensures Kept(k, RunVm(k, i)) && Undisturbed(LoadContext(k, i), RunVm(k, i))
  {
    hide AfterRequest, ReleaseRes, ExecuteVm, Grants, SwapIn;
    var k1 := LoadContext(k, i);
    AfterRequestFrame(k1, RES_MEM, i);
    RequestKeepsMachine(k1, RES_MEM, i);
    var k2 := AfterRequest(k1, RES_MEM, i);
    var p := At(k, i);
    if !Grants(k1, RES_MEM) {
      SetStateUndisturbed(k2, i, BLOCKED);
      UndisturbedTrans(k1, k2, RunVm(k, i));
    } else if p.swapped && !CanSwap(k.disk, p.swapSlot) {
      SetStateUndisturbed(k2, i, SUSP_BLOCKED);
      ThenRelease(k1, SetState(k2, i, SUSP_BLOCKED));
    } else {
      var k3 := if p.swapped then SwapInFirst(k2, i) else k2;
      assert Undisturbed(k2, k3);
      UndisturbedTrans(k1, k2, k3);
      ExecuteThenReleaseFrame(k1, k3, i);
    }
    UndisturbedTrans(k, k1, RunVm(k, i));
  }

  lemma RequestKeepsMachine(k: Kernel, id: int, i: nat)
    requires Occupied(k, i)
    ensures Occupied(AfterRequest(k, id, i), i) && At(AfterRequest(k, id, i), i).vm == At(k, i).vm
  {
  }

  lemma ExecuteThenReleaseFrame(k: Kernel, k1: Kernel, i: nat)
    requires Undisturbed(k, k1) && Occupied(k1, i) && At(k1, i).vm.Some?
    ensures Undisturbed(k, ReleaseRes(ExecuteVm(k1, i), RES_MEM))
  {
    ExecuteVmUndisturbed(k1, i);
    UndisturbedTrans(k, k1, ExecuteVm(k1, i));
    ThenRelease(k, ExecuteVm(k1, i));
  }

  lemma ThenRelease(k: Kernel, k1: Kernel)
    requires Undisturbed(k, k1)
    ensures Undisturbed(k, ReleaseRes(k1, RES_MEM))
  {
    ReleaseResFrame(k1, RES_MEM);
    UndisturbedTrans(k, k1, ReleaseRes(k1, RES_MEM));
  }

  lemma AfterEntryUndisturbed(r: Return, i: nat, pid: Byte)
    ensures Undisturbed(r.k, AfterEntry(r, i, pid))
  {
    if r.rc == 0 {
      RemoveUndisturbed(r.k, pid);
    } else if Occupied(r.k, i) {
      SetStateUndisturbed(r.k, i, if r.rc < 0 then BLOCKED else READY);
    }
  }

  lemma SetStateUndisturbed(k: Kernel, i: nat, st: ProcState)
    requires Occupied(k, i) && st != RUNNING
    ensures Undisturbed(k, SetState(k, i, st).(current := None))
  {
  }

  /** The turn of any process that is neither a governor nor a loader disturbs no load. */
  lemma TurnUndisturbed(k: Kernel, i: nat, fired: bool)
    requires Good(k, 2, 0, 1) && k.current == Some(i) && Occupied(k, i) && At(k, i).state == READY
    requires !(At(k, i).hasEntry && At(k, i).procType in {JOB_GOVERNOR, LOADER})
    ensures Kept(k, TakeTurn(k, i, fired))
    ensures At(k, i).hasEntry && !(At(k, i).procType == INTERRUPT_HANDLER && Preempts(k, fired)) ==>
              Undisturbed(k, TakeTurn(k, i, fired))
    ensures !At(k, i).hasEntry && At(k, i).vm.Some? ==> Undisturbed(LoadContext(k, i), TakeTurn(k, i, fired))
  {
    hide Good, RunVm, JobGovernor, RunLoader, AfterEntry, InterruptHandler;
    var p := At(k, i);
    if p.hasEntry {
      var r := RunEntry(k, i, fired);
      match p.procType {
        case START_STOP => assert Undisturbed(k, r.k);
        case IDLE =>
        case IO_HANDLER => IoHandlerUndisturbed(k);
        case INTERRUPT_HANDLER => InterruptHandlerUndisturbed(k, fired);
      }
      AfterEntryUndisturbed(r, i, p.pid);
      UndisturbedTrans(k, r.k, AfterEntry(r, i, p.pid));
    } else if p.vm.Some? {
      RunVmUndisturbed(k, i);
    }
  }

  /** Before the turn itself only the turn is recorded. */
  lemma PrologueFrame(k: Kernel, i: nat)
    requires Occupied(k, i)
    ensures
      var k' := Prologue(k, i);
      && Steady(k.slots, k'.slots) && k'.added == k.added
      && k'.history.governors == k.history.governors
      && k'.history.turns == k.history.turns + [Turn(i, At(k, i).serial)]
      && NoneStarts(k.slots, k'.slots)
  {
  }
}
