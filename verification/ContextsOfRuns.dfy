/**
  Processor contexts over the kernel's own runs. Contexts are saved by the
  scheduler's loop and by a context switch, and loaded when a machine takes its
  turn and when the timer preempts; in between the table and the current process
  change freely.
  */
module ContextsOfRuns {
  import opened Words
  import opened Isa
  import opened Disk
  import opened RealMachine
  import opened VirtualMachine
  import opened Loader
  import opened Swapper
  import opened KernelModel
  import opened KernelInvariant
  import opened KernelSafety
  import opened Frames
  import opened GovernorProtocol
  import opened DispatchOrder
  import opened ContextIsolation
  import opened MachineIsolation

  // Saved contexts

  /** Reference: the processor state process `n` was last saved with, or the initial one. */
  function LastSave(h: seq<Save>, n: nat): Cpu {
    if h == [] then ZERO_CPU
    else if h[|h| - 1].serial == n then h[|h| - 1].cpu
    else LastSave(h[..|h| - 1], n)
  }

  lemma SaveStep(h: seq<Save>, e: Save, n: nat)
    ensures LastSave(h + [e], n) == if e.serial == n then e.cpu else LastSave(h, n)
  {
    assert (h + [e])[..|h|] == h;
  }

  /** Every context in the table is the last one saved, and nothing was saved for processes not yet born. */
  ghost predicate ContextsOk(k: Kernel) {
    && (forall j :: 0 <= j < MAX_PRIORITY && k.slots[j].Some? ==>
          k.slots[j].value.context == LastSave(k.history.saves, k.slots[j].value.serial))
    && (forall n: nat :: n > k.added ==> LastSave(k.history.saves, n) == ZERO_CPU)
  }

  lemma SavingKeeps(k: Kernel, c: nat, mem: int, cpu: int, tmr: int)
    requires Good(k, mem, cpu, tmr) && Occupied(k, c) && ContextsOk(k)
    ensures ContextsOk(SaveContext(k, c))
  {
    SerialUnique(k, c);
    var e := Save(At(k, c).serial, k.cpu);
    forall n: nat
      ensures LastSave(k.history.saves + [e], n) == if e.serial == n then e.cpu else LastSave(k.history.saves, n)
    {
      SaveStep(k.history.saves, e, n);
    }
  }

  lemma CarryingKeeps(k: Kernel, k': Kernel)
    requires Orderly(k, k') && ContextsOk(k)
    ensures ContextsOk(k')
  {
  }

  lemma TurnStateKeeps(k: Kernel, i: nat)
    requires Resting(k) && Occupied(k, i) && ContextsOk(k)
    ensures Occupied(TurnState(k, i), i) && ContextsOk(TurnState(k, i))
  {
    hide ContextsOk, SaveContext;
    PrologueGood(k, i);
    RequestCpu(Prologue(k, i), i);
    if k.current.Some? && k.current.value != i {
      SavingKeeps(k, k.current.value, 2, 1, 1);
      SamePlaces(SaveContext(k, k.current.value), TurnState(k, i));
    } else {
      SamePlaces(k, TurnState(k, i));
    }
  }

  lemma SamePlaces(k: Kernel, k': Kernel)
    requires ContextsOk(k) && k'.history.saves == k.history.saves && k'.added == k.added
    requires forall j :: 0 <= j < MAX_PRIORITY && k'.slots[j].Some? ==>
                           && k.slots[j].Some? && k'.slots[j].value.serial == k.slots[j].value.serial
                           && k'.slots[j].value.context == k.slots[j].value.context
    ensures ContextsOk(k')
  {
  }

  lemma DispatchKeepsContexts(k: Kernel, i: nat, fired: bool)
    requires Resting(k) && ContextsOk(k)
    ensures ContextsOk(Dispatch(k, i, fired))
  {
    hide TakeTurn;
    if ReadyAt(k, i) {
      Prepared(k, i);
      TurnStateKeeps(k, i);
      TurnOrderly(TurnState(k, i), i, fired);
      CarryingKeeps(TurnState(k, i), TakeTurn(TurnState(k, i), i, fired));
      TakeTurnGood(TurnState(k, i), i, fired);
      ReleaseCpu(TakeTurn(TurnState(k, i), i, fired));
    }
  }

  lemma {:induction false} RangeKeepsContexts(k: Kernel, hi: int, lo: int, fired: set<nat>)
    requires Resting(k) && ContextsOk(k) && hi < MAX_PRIORITY && 0 <= lo
    ensures Resting(RunRange(k, hi, lo, fired)) && ContextsOk(RunRange(k, hi, lo, fired))
    decreases hi - lo
  {
    hide Good, Dispatch;
    if hi < lo {
    } else {
      DispatchKeepsInvariant(k, hi, hi in fired);
      DispatchKeepsContexts(k, hi, hi in fired);
      RangeKeepsContexts(Dispatch(k, hi, hi in fired), hi - 1, lo, fired);
    }
  }

  lemma BootContexts(storage: Storage, files: seq<FileEntry>)
    ensures ContextsOk(Boot(storage, files))
  {
  }

  lemma {:induction false} ContextsOverRuns(storage: Storage, files: seq<FileEntry>, acts: seq<Action>)
    ensures Resting(Run(Boot(storage, files), acts)) && ContextsOk(Run(Boot(storage, files), acts))
    decreases |acts|
  {
    hide Good, Dispatch;
    Reachable(storage, files, acts);
    if acts == [] {
      BootContexts(storage, files);
    } else {
      var front := acts[..|acts| - 1];
      var k := Run(Boot(storage, files), front);
      ContextsOverRuns(storage, files, front);
      match acts[|acts| - 1]
      case Add(n) =>
        GoodSerials(k, 2, 1, 1);
        AddSettled(k, n.(parentPid := 0));
        CarryingKeeps(k, AddProc(k, n.(parentPid := 0)));
      case Cycle(fired) =>
        RangeKeepsContexts(k, MAX_PRIORITY - 1, FIRST_SYSTEM_SLOT, fired);
        RangeKeepsContexts(RunRange(k, MAX_PRIORITY - 1, FIRST_SYSTEM_SLOT, fired), FIRST_SYSTEM_SLOT - 1, 0, fired);
    }
  }

  /**
    Private contexts, over every run: whatever other processes did, a process in
    the table has exactly the context it was last saved with, by the scheduler's
    loop or by a context switch, or the initial one.
    */
  lemma ContextsOfReachable(storage: Storage, files: seq<FileEntry>, acts: seq<Action>, i: nat)
    requires Occupied(Run(Boot(storage, files), acts), i)
    ensures
      var k := Run(Boot(storage, files), acts);
      At(k, i).context == LastSave(k.history.saves, At(k, i).serial)
  {
    ContextsOverRuns(storage, files, acts);
  }

  /** When a machine without a governor takes its turn, the processor holds what its process was last saved with. */
  lemma MachineRunsWithItsContext(k: Kernel, i: nat)
    requires Resting(k) && ContextsOk(k) && ReadyAt(k, i) && At(k, i).vm.Some?
    ensures
      var t := TurnState(k, i);
      && Occupied(t, i)
      && LoadContext(t, i).cpu == LastSave(t.history.saves, At(t, i).serial)
      && At(LoadContext(t, i), i).state == RUNNING
  {
    TurnStateKeeps(k, i);
  }

  // Preemption

  predicate IsInterruptHandler(p: Process) {
    p.procType == INTERRUPT_HANDLER && p.hasEntry
  }

  /** The timer branch switches without saving anybody. */
  lemma TimerSwitches(k: Kernel, fired: bool)
    requires LatchesQuiet(k) && SavedBy(k).None? && Preempts(k, fired)
    ensures
      var j := NextRunnable(k).value;
      var k' := KernelHandleInterrupts(k, fired);
      && Occupied(k, j) && k'.slots == k.slots[j := Some(At(k, j).(state := RUNNING))]
      && k'.cpu == At(k, j).context && k'.history == k.history && k'.lastPi == PI_NONE && k'.lastSi == SI_NONE
  {
    OnlyTheTimer(k, fired);
    SameNext(k, TimerTaken(k));
  }

  /**
    The turn of an interrupt handler when the timer has gone off and some machine
    is runnable. The handler is the current process and is not running, so
    nobody is saved; the machine's process is loaded and starts running.
    */
  lemma PreemptionSwitches(k: Kernel, i: nat, fired: bool)
    requires Good(k, 2, 0, 1) && k.current == Some(i) && Occupied(k, i) && At(k, i).state == READY
    requires Preempts(k, fired)
    ensures SavedBy(k).None?
    ensures
      var j := NextRunnable(k).value;
      var k' := InterruptHandler(k, fired);
      && Occupied(k, j) && k'.cpu == At(k, j).context && k'.history.saves == k.history.saves
      && k'.slots == k.slots[i := Some(At(k, i).(waitingResId := 0))]
                     [j := Some((if i == j then At(k, i).(waitingResId := 0) else At(k, j)).(state := RUNNING))]
  {
    RequestTmr(k, i);
    var k0 := AfterRequest(k, RES_TMR, i);
    SameNext(k, k0);
    TimerSwitches(k0, fired);
    HandlerWithTimer(k, i, fired);
  }

  /** The preempting machine's process, when it is not the handler itself, is left running while nobody is current. */
  lemma PreemptionLeavesRunning(k: Kernel, i: nat, fired: bool)
    requires Good(k, 2, 0, 1) && k.current == Some(i) && Occupied(k, i) && At(k, i).state == READY
    requires IsInterruptHandler(At(k, i)) && Preempts(k, fired)
    ensures
      var j := NextRunnable(k).value;
      var k' := TakeTurn(k, i, fired);
      && Occupied(k, j) && k'.cpu == At(k, j).context && k'.current == None
      && k'.history.saves == k.history.saves
      && (forall w :: 0 <= w < MAX_PRIORITY && w != i && w != j ==> k'.slots[w] == k.slots[w])
      && k'.slots[i] == Some(At(k, i).(state := READY, waitingResId := 0))
      && (j != i ==> k'.slots[j] == Some(At(k, j).(state := RUNNING)))
  {
    hide Good, TakeTurn, ReleaseRes, InterruptHandler;
    PreemptionSwitches(k, i, fired);
    InterruptTurnIs(k, i, fired);
    EndOfInterruptTurn(k, i, InterruptHandler(k, fired), NextRunnable(k).value);
  }

  lemma EndOfInterruptTurn(k: Kernel, i: nat, k1: Kernel, j: nat)
    requires Occupied(k, i) && Occupied(k, j)
    requires k1.slots == k.slots[i := Some(At(k, i).(waitingResId := 0))]
                         [j := Some((if i == j then At(k, i).(waitingResId := 0) else At(k, j)).(state := RUNNING))]
    ensures
      var k' := SetState(k1, i, READY).(current := None);
      && (forall w :: 0 <= w < MAX_PRIORITY && w != i && w != j ==> k'.slots[w] == k.slots[w])
      && k'.slots[i] == Some(At(k, i).(state := READY, waitingResId := 0))
      && k'.cpu == k1.cpu && k'.history == k1.history
      && (j != i ==> k'.slots[j] == Some(At(k, j).(state := RUNNING)))
  {
  }

  lemma InterruptTurnIs(k: Kernel, i: nat, fired: bool)
    requires Occupied(k, i) && IsInterruptHandler(At(k, i)) && Occupied(InterruptHandler(k, fired), i)
    ensures TakeTurn(k, i, fired) == SetState(InterruptHandler(k, fired), i, READY).(current := None)
  {
  }

  // Who is left running

  /** The machine a turn without a governor runs. */
  function MachineToRun(k: Kernel, i: nat): Vm
    requires Occupied(k, i) && At(k, i).vm.Some?
  {
    var p := At(k, i);
    var vm := p.vm.value;
    if p.swapped then vm.(memory := SwapIn(vm.memory, k.disk, p.swapSlot)) else vm
  }

  /** The machine is there to run, and does not stop at a trap. */
  predicate MachineEnds(k: Kernel, i: nat)
    requires Occupied(k, i) && At(k, i).vm.Some?
  {
    && (At(k, i).swapped ==> CanSwap(k.disk, At(k, i).swapSlot))
    && RunOperations(MachineToRun(k, i)).rc != RC_TRAPPED
  }

  /**
    The exact condition under which a turn leaves a process running that is not
    current: a preempting handler switches to another process, or a machine ends
    and the removal of its process passes it by.
    */
  predicate LeavesRunning(k: Kernel, i: nat, fired: bool) {
    ReadyAt(k, i) &&
    var t := TurnState(k, i);
    && Occupied(t, i)
    && if At(t, i).hasEntry then
         At(t, i).procType == INTERRUPT_HANDLER && Preempts(t, fired) && NextRunnable(t) != Some(i)
       else At(t, i).vm.Some? && MachineEnds(t, i) && RemovalMisses(t, i)
  }

  predicate NobodyRuns(s: Slots) {
    forall j :: 0 <= j < MAX_PRIORITY && s[j].Some? ==> s[j].value.state != RUNNING
  }

  /** Preparing a turn saves a running current process, so that nobody runs. */
  lemma NobodyRunsAtTurn(k: Kernel, i: nat)
    requires Resting(k) && ReadyAt(k, i) && OnlyCurrentRuns(k)
    ensures
      var t := TurnState(k, i);
      && Good(t, 2, 0, 1) && t.current == Some(i) && Occupied(t, i) && At(t, i).state == READY && NobodyRuns(t.slots)
  {
    Prepared(k, i);
  }

  /** A machine that does not end sleeps, suspended; one that ends is removed from the state in which it ran. */
  lemma MachineTurnEnds(k: Kernel, i: nat)
    requires Good(k, 2, 0, 1) && k.current == Some(i) && Occupied(k, i) && At(k, i).vm.Some?
    ensures !MachineEnds(k, i) ==> Occupied(RunVm(k, i), i) && At(RunVm(k, i), i).state == SUSP_BLOCKED
    ensures MachineEnds(k, i) ==> Ended(k, RunVm(k, i), i)
  {
    hide ExecuteVm, ReleaseRes;
    MemoryTaken(k, i);
    var k2 := AfterRequest(LoadContext(k, i), RES_MEM, i);
    if At(k, i).swapped && !CanSwap(k.disk, At(k, i).swapSlot) {
      PutGood(k2, i, At(k2, i).(state := SUSP_BLOCKED), 1, 0, 1);
      ReleaseMem(SetState(k2, i, SUSP_BLOCKED));
    } else {
      var k3 := if At(k, i).swapped then SwapInFirst(k2, i) else k2;
      PutGood(k2, i, At(k3, i), 1, 0, 1);
      EndsAndReleases(k3, i);
      SameMisses(k, k3, i);
    }
  }

  /** The process is out of the table, or removal passed it by and it is left running. */
  predicate Ended(k: Kernel, k': Kernel, i: nat)
    requires Occupied(k, i)
  {
    && k'.current == None
    && if RemovalMisses(k, i) then Occupied(k', i) && At(k', i).state == RUNNING else k'.slots[i] == None
  }

  lemma EndsAndReleases(k: Kernel, i: nat)
    requires Good(k, 1, 0, 1) && Occupied(k, i) && At(k, i).vm.Some? && At(k, i).state == RUNNING
    ensures
      var k' := ReleaseRes(ExecuteVm(k, i), RES_MEM);
      if RunOperations(At(k, i).vm.value).rc == RC_TRAPPED then Occupied(k', i) && At(k', i).state == SUSP_BLOCKED
      else Ended(k, k', i)
  {
    ExecuteVmGood(k, i);
    ExecutionEnds(k, i);
    ReleaseMem(ExecuteVm(k, i));
  }

  /** The state in which a machine executes: its context loaded and the memory unit held. */
  lemma MemoryTaken(k: Kernel, i: nat)
    requires Good(k, 2, 0, 1) && Occupied(k, i)
    ensures
      var k2 := AfterRequest(LoadContext(k, i), RES_MEM, i);
      && Grants(LoadContext(k, i), RES_MEM) && Good(k2, 1, 0, 1) && k2.disk == k.disk
      && k2.slots == k.slots[i := Some(At(k, i).(state := RUNNING, waitingResId := 0))]
  {
    LoadContextGood(k, i, 2, 0, 1);
    RequestMem(LoadContext(k, i), i);
  }

  lemma SameMisses(k: Kernel, k': Kernel, i: nat)
    requires Occupied(k, i) && Occupied(k', i) && At(k', i).pid == At(k, i).pid
    requires forall j :: 0 <= j < i ==> k'.slots[j] == k.slots[j]
    ensures RemovalMisses(k', i) == RemovalMisses(k, i)
  {
  }

  lemma ExecutionEnds(k: Kernel, i: nat)
    requires Good(k, 1, 0, 1) && Occupied(k, i) && At(k, i).vm.Some? && At(k, i).state == RUNNING
    ensures RunOperations(At(k, i).vm.value).rc == RC_TRAPPED ==>
              Occupied(ExecuteVm(k, i), i) && At(ExecuteVm(k, i), i).state == SUSP_BLOCKED
    ensures RunOperations(At(k, i).vm.value).rc != RC_TRAPPED ==> Ended(k, ExecuteVm(k, i), i)
  {
    var p := At(k, i);
    var o := RunOperations(p.vm.value);
    var k1 := Put(k, i, p.(vm := Some(o.vm))).(lastTrapPid := p.pid);
    if o.rc == RC_TRAPPED {
      EnqueueIoFrame(k1, i, o.vm.trapCode, o.vm.trapR0, o.vm.trapR1, o.vm.trapR2);
    } else {
      SameMisses(k, k1, i);
      RemovesExactly(k1, i);
    }
  }

  /** The turn of a machine without a governor, when nobody else runs. */
  lemma MachineTurnRuns(k: Kernel, i: nat, fired: bool)
    requires Good(k, 2, 0, 1) && k.current == Some(i) && Occupied(k, i) && At(k, i).state == READY
    requires NobodyRuns(k.slots) && !At(k, i).hasEntry && At(k, i).vm.Some?
    ensures OnlyCurrentRuns(TakeTurn(k, i, fired)) <==> !(MachineEnds(k, i) && RemovalMisses(k, i))
  {
    hide Good, RunVm, MachineEnds, RemovalMisses;
    TurnUndisturbed(k, i, fired);
    MachineTurnEnds(k, i);
    var k' := TakeTurn(k, i, fired);
    forall w | 0 <= w < MAX_PRIORITY && w != i && k'.slots[w].Some?
      ensures k'.slots[w].value.state != RUNNING
    {
      assert LoadContext(k, i).slots[w] == k.slots[w];
    }
  }

  lemma TurnRuns(k: Kernel, i: nat, fired: bool)
    requires Good(k, 2, 0, 1) && k.current == Some(i) && Occupied(k, i) && At(k, i).state == READY
    requires NobodyRuns(k.slots) && (At(k, i).hasEntry || At(k, i).vm.None?)
    ensures OnlyCurrentRuns(TakeTurn(k, i, fired)) <==>
            !(IsInterruptHandler(At(k, i)) && Preempts(k, fired) && NextRunnable(k) != Some(i))
  {
    hide Good, TakeTurn, NextRunnable;
    if IsInterruptHandler(At(k, i)) && Preempts(k, fired) {
      PreemptionLeavesRunning(k, i, fired);
    } else {
      TurnOrderly(k, i, fired);
    }
  }

  /**
    Who is left running, exactly. If only the current process may be running
    before an iteration of the scheduler's loop, then only the current one may be
    after it if and only if not `LeavesRunning`.
    */
  lemma OnlyCurrentRunsExactly(k: Kernel, i: nat, fired: bool)
    requires Resting(k) && OnlyCurrentRuns(k)
    ensures OnlyCurrentRuns(Dispatch(k, i, fired)) <==> !LeavesRunning(k, i, fired)
  {
    if ReadyAt(k, i) {
      NobodyRunsAtTurn(k, i);
      var t := TurnState(k, i);
      TurnReleases(k, i, fired);
      if !At(t, i).hasEntry && At(t, i).vm.Some? {
        MachineTurnRuns(t, i, fired);
      } else {
        TurnRuns(t, i, fired);
      }
    }
  }

  /** A preempting iteration loads the chosen process with what it was last saved with, and it stays running. */
  lemma PreemptedRunsWithItsContext(k: Kernel, i: nat, fired: bool)
    requires Resting(k) && ContextsOk(k) && ReadyAt(k, i) && IsInterruptHandler(At(k, i))
    requires Occupied(TurnState(k, i), i) && Preempts(TurnState(k, i), fired)
    ensures
      var j := NextRunnable(TurnState(k, i)).value;
      var k' := Dispatch(k, i, fired);
      && k'.cpu == LastSave(k'.history.saves, At(TurnState(k, i), j).serial) && k'.current == None
      && (j != i ==> Occupied(k', j) && At(k', j).state == RUNNING)
  {
    hide Dispatch, TakeTurn, TurnState, Good, LastSave;
    TurnStateIs(k, i);
    TurnStateKeeps(k, i);
    PreemptionLeavesRunning(TurnState(k, i), i, fired);
    TurnReleases(k, i, fired);
  }
}
