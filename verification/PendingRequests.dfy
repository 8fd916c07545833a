/**
  The process behind an I/O request in flight is always there: asleep in its
  slot, with its machine, not waiting for the resource it holds, and not the
  current process, until the handler completes the request.
  */
module PendingRequests {
  import opened Words
  import opened Disk
  import opened VirtualMachine
  import opened Loader
  import opened Swapper
  import opened KernelModel
  import opened KernelInvariant
  import opened KernelSafety
  import opened GovernorProtocol
  import opened MachineIsolation

  function IoQueue(k: Kernel): seq<Byte> {
    if |k.res| > 0 then k.res[0].queue else []
  }

  /** The number of free I/O units. */
  function IoFree(k: Kernel): int {
    if |k.res| > 0 then k.res[0].available else 0
  }

  /** The request the machine of a process trapped with. */
  function TrapOf(p: Process): Option<Ask> {
    if p.vm.None? then None
    else
      var vm := p.vm.value;
      Some(Ask(p.serial, vm.trapCode, vm.trapR0, vm.trapR1, vm.trapR2))
  }

  /** Who asked for the transfer in flight, and for which. */
  function Owner(k: Kernel): Option<Ask> {
    match IoPhaseOf(k.history.io)
    case IoFirst(n) => Some(n)
    case IoSecond(n) => Some(n)
    case _ => None
  }

  predicate Waiting(k: Kernel, w: nat) {
    && Asleep(k, w) && At(k, w).vm.Some? && At(k, w).pid !in IoQueue(k)
    && (IsGovernor(At(k, w)) ==> At(k, w).loaded == LOADED && At(k, w).state == BLOCKED)
  }

  /** Until a shutdown, the owner of the request in flight waits in the table, and its machine still holds that trap. */
  predicate RequesterLive(k: Kernel) {
    Owner(k).Some? && !k.history.shutDown ==>
      exists w :: 0 <= w < MAX_PRIORITY && Waiting(k, w) && TrapOf(At(k, w)) == Owner(k)
  }

  // What a turn does to requests

  /** No request was accepted or completed, and at most the process `me` joined the queue for the I/O unit. */
  predicate IoStill(k: Kernel, k': Kernel, me: Byte) {
    && k'.history.io == k.history.io && k'.history.shutDown == k.history.shutDown && IoFree(k') == IoFree(k)
    && forall x :: x in IoQueue(k') ==> x in IoQueue(k) || x == me
  }

  /** There was a free unit, the request of the process in slot `i` was accepted, and the process waits for it. */
  predicate IoTaken(k: Kernel, k': Kernel, i: nat)
    requires Occupied(k, i)
  {
    && IoFree(k) > 0 && IoQueue(k') == [] && Waiting(k', i) && At(k', i).serial == At(k, i).serial
    && k'.history.io == k.history.io + [Accepted(TrapOf(At(k', i)).value)]
    && k'.history.shutDown == k.history.shutDown
  }

  predicate IoOutcome(k: Kernel, k': Kernel, i: nat)
    requires Occupied(k, i)
  {
    IoStill(k, k', At(k, i).pid) || IoTaken(k, k', i)
  }

  lemma RequestStill(k: Kernel, id: int, i: nat)
    requires Occupied(k, i) && |k.res| > 0 && (k.res[0].id != id || k.res[0].available <= 0)
    ensures IoStill(k, AfterRequest(k, id, i), At(k, i).pid)
  {
  }

  lemma ReleaseStill(k: Kernel, id: int, me: Byte)
    requires |k.res| > 0 && k.res[0].id != id
    ensures IoStill(k, ReleaseRes(k, id), me)
  {
  }

  lemma StillTrans(k: Kernel, k1: Kernel, k2: Kernel, me: Byte)
    requires IoStill(k, k1, me) && IoStill(k1, k2, me)
    ensures IoStill(k, k2, me)
  {
  }

  /** The request of the process in slot `i` was accepted, with nobody queued, or denied; its machine is as it was. */
  predicate Enqueued(k: Kernel, k': Kernel, i: nat)
    requires Occupied(k, i)
  {
    && Occupied(k', i) && SameIdentity(At(k, i), At(k', i))
    && At(k', i).vm == At(k, i).vm && At(k', i).loaded == At(k, i).loaded
    && k'.history.shutDown == k.history.shutDown
    && (|| (IoFree(k) > 0 && IoQueue(k') == [] && TrapOf(At(k, i)).Some?
            && k'.history.io == k.history.io + [Accepted(TrapOf(At(k, i)).value)])
        || IoStill(k, k', At(k, i).pid))
  }

  lemma EnqueueOutcome(k: Kernel, i: nat, vm: Vm, mem: int, cpu: int, tmr: int)
    requires Good(k, mem, cpu, tmr) && Occupied(k, i) && RunOperations(vm).rc == RC_TRAPPED
    requires At(k, i).vm == Some(RunOperations(vm).vm)
    ensures
      var o := RunOperations(vm).vm;
      Enqueued(k, EnqueueIo(k, i, o.trapCode, o.trapR0, o.trapR1, o.trapR2), i)
  {
    hide RunOperations, EnqueueIo, Enqueued, Good;
    RunOperationsOutcome(vm);
    var o := RunOperations(vm).vm;
    EnqueueIoGood(k, i, o.trapCode, o.trapR0, o.trapR1, o.trapR2, mem, cpu, tmr);
    if AcceptsIo(k) {
      AcceptedOutcome(k, i, mem, cpu, tmr);
    } else {
      DeniedOutcome(k, i, o.trapCode, o.trapR0, o.trapR1, o.trapR2, mem, cpu, tmr);
    }
  }

  lemma AcceptedOutcome(k: Kernel, i: nat, mem: int, cpu: int, tmr: int)
    requires Good(k, mem, cpu, tmr) && Occupied(k, i) && At(k, i).vm.Some? && AcceptsIo(k)
    ensures
      var vm := At(k, i).vm.value;
      Enqueued(k, EnqueueIo(k, i, vm.trapCode, vm.trapR0, vm.trapR1, vm.trapR2), i)
  {
    RequestIo(k, i, mem, cpu, tmr);
    FindCore(k.res, mem, cpu, tmr);
  }

  lemma DeniedOutcome(k: Kernel, i: nat, code: Word, r0: Word, r1: Word, r2: Word, mem: int, cpu: int, tmr: int)
    requires Good(k, mem, cpu, tmr) && Occupied(k, i) && !Grants(k, RES_IO)
    ensures Enqueued(k, EnqueueIo(k, i, code, r0, r1, r2), i)
  {
    hide IoStill;
    FindCore(k.res, mem, cpu, tmr);
    RequestStill(k, RES_IO, i);
    RequestFrame(k, i);
  }

  lemma RequestFrame(k: Kernel, i: nat)
    requires Occupied(k, i)
    ensures
      var k' := AfterRequest(k, RES_IO, i);
      && Occupied(k', i) && SameIdentity(At(k, i), At(k', i)) && At(k', i).vm == At(k, i).vm
      && At(k', i).loaded == At(k, i).loaded && k'.history.shutDown == k.history.shutDown
  {
  }

  /** Once the requester sleeps, an accepted request has its owner in place. */
  lemma SleepOutcome(k: Kernel, k1: Kernel, k2: Kernel, k3: Kernel, i: nat)
    requires Occupied(k, i) && Occupied(k1, i) && Enqueued(k1, k2, i) && SameIdentity(At(k, i), At(k1, i))
    requires k1.history.io == k.history.io && k1.history.shutDown == k.history.shutDown && k1.res == k.res
    requires k3.history.io == k2.history.io && k3.history.shutDown == k2.history.shutDown
    requires k3.res == k2.res && k3.current == None
    requires Occupied(k3, i) && SameIdentity(At(k2, i), At(k3, i)) && At(k3, i).vm == At(k2, i).vm != None
    requires At(k3, i).state == if IsGovernor(At(k3, i)) then BLOCKED else SUSP_BLOCKED
    requires IsGovernor(At(k3, i)) ==> At(k3, i).loaded == LOADED
    ensures IoOutcome(k, k3, i)
  {
    if IoStill(k1, k2, At(k1, i).pid) {
      assert IoQueue(k3) == IoQueue(k2) && IoQueue(k1) == IoQueue(k);
      assert IoStill(k, k3, At(k, i).pid);
    } else {
      assert IoTaken(k, k3, i);
    }
  }

  /** A governor whose machine trapped goes to sleep, its request accepted or not. */
  lemma RunGovernorVmOutcome(k: Kernel, i: nat)
    requires Good(k, 2, 0, 1) && Occupied(k, i) && IsGovernor(At(k, i))
    requires At(k, i).vm.Some? && At(k, i).loaded == LOADED
    ensures CallOk(k, RunGovernorVm(k, i), i)
  {
    var p := At(k, i);
    var o := RunOperations(p.vm.value);
    if o.rc == RC_TRAPPED {
      var k1 := Put(Log(k, VmRan(p.serial)), i, p.(vm := Some(o.vm)));
      PutGood(Log(k, VmRan(p.serial)), i, p.(vm := Some(o.vm)), 2, 0, 1);
      EnqueueOutcome(k1, i, p.vm.value, 2, 0, 1);
      var k2 := EnqueueIo(k1, i, o.vm.trapCode, o.vm.trapR0, o.vm.trapR1, o.vm.trapR2);
      SleepOutcome(k, k1, k2, BlockGovernor(k2, i), i);
    } else {
      StillIsOk(k, RunGovernorVm(k, i), i);
    }
  }

  lemma GovernorOutcome(k: Kernel, i: nat)
    requires Good(k, 2, 0, 1) && Occupied(k, i) && IsGovernor(At(k, i))
    ensures CallOk(k, JobGovernor(k, i), i)
  {
    hide Good, CallOk;
    var p := At(k, i);
    if p.vm.Some? && p.loaded == LOADED {
      RunGovernorVmOutcome(k, i);
    } else {
      StillIsOk(k, JobGovernor(k, i), i);
    }
  }

  lemma LoadForStill(k: Kernel, i: nat, j: nat)
    requires Good(k, 2, 0, 1) && Occupied(k, i) && Occupied(k, j) && At(k, j).vm.Some?
    ensures IoStill(k, LoadFor(k, i, j).k, At(k, i).pid)
  {
    var me := At(k, i).pid;
    RequestMemFrame(k, i, j);
    var k1 := AfterRequest(k, RES_MEM, i);
    RequestStill(k, RES_MEM, i);
    var k2 := LoadInto(k1, j, At(k, i).fileId);
    LoadIntoStill(k1, j, At(k, i).fileId, me);
    ReleaseStill(k2, RES_MEM, me);
    StillTrans(k, k1, k2, me);
    StillTrans(k, k2, ReleaseRes(k2, RES_MEM), me);
  }

  lemma LoadIntoStill(k: Kernel, j: nat, fileId: Word, me: Byte)
    requires Occupied(k, j) && At(k, j).vm.Some?
    ensures IoStill(k, LoadInto(k, j, fileId), me) && LoadInto(k, j, fileId).res == k.res
  {
  }

  lemma LoaderStill(k: Kernel, i: nat)
    requires Good(k, 2, 0, 1) && Occupied(k, i)
    ensures IoStill(k, RunLoader(k, i).k, At(k, i).pid)
  {
    var parent := LowestSlot(k.slots, HasPid(At(k, i).parentPid));
    if parent.Some? && At(k, parent.value).vm.Some? {
      LoadForStill(k, i, parent.value);
    }
  }

  lemma InterruptHandlerStill(k: Kernel, fired: bool, i: nat)
    requires Good(k, 2, 0, 1) && k.current == Some(i)
    ensures IoStill(k, InterruptHandler(k, fired), At(k, i).pid)
  {
    var me := At(k, i).pid;
    RequestTmr(k, i);
    RequestStill(k, RES_TMR, i);
    var k0 := AfterRequest(k, RES_TMR, i);
    var k1 := KernelHandleInterrupts(k0, fired);
    HandleInterruptsGood(k0, fired);
    HandleInterruptsStill(k0, fired, me);
    assert React(k1) == k1.(lastPi := 0, lastSi := 0, lastTi := 0);
    ReleaseStill(React(k1), RES_TMR, me);
    StillTrans(k, k0, React(k1), me);
    StillTrans(k, React(k1), ReleaseRes(React(k1), RES_TMR), me);
  }

  lemma HandleInterruptsStill(k: Kernel, fired: bool, me: Byte)
    requires LatchesQuiet(k)
    ensures IoStill(k, KernelHandleInterrupts(k, fired), me)
  {
  }

  lemma SuspendOutcome(k: Kernel, k1: Kernel, i: nat, vm0: Vm)
    requires Occupied(k, i) && Good(k1, 1, 0, 1) && RunOperations(vm0).rc == RC_TRAPPED
    requires Occupied(k1, i) && SameIdentity(At(k, i), At(k1, i)) && !IsGovernor(At(k, i))
    requires At(k1, i).vm == Some(RunOperations(vm0).vm)
    requires k1.history == k.history && k1.res == k.res
    ensures IoOutcome(k, SuspendVm(k1, i), i)
  {
    var o := RunOperations(vm0).vm;
    EnqueueOutcome(k1, i, vm0, 1, 0, 1);
    var k2 := EnqueueIo(k1, i, o.trapCode, o.trapR0, o.trapR1, o.trapR2);
    SuspendedIs(k1, i, o, k2);
    SleepOutcome(k, k1, k2, SuspendVm(k1, i), i);
  }

  lemma SuspendedIs(k: Kernel, i: nat, o: Vm, k1: Kernel)
    requires Occupied(k, i) && At(k, i).vm == Some(o) && Occupied(k1, i)
    requires k1 == EnqueueIo(k, i, o.trapCode, o.trapR0, o.trapR1, o.trapR2)
    ensures
      var k' := SuspendVm(k, i);
      && k'.history == k1.history.(swaps := k'.history.swaps) && k'.res == k1.res && k'.current == None
      && Occupied(k', i)
      && SameIdentity(At(k1, i), At(k', i)) && At(k', i).vm == At(k1, i).vm && At(k', i).state == SUSP_BLOCKED
  {
    hide AfterRequest;

  }

  /** A machine without a governor that trapped sleeps, suspended, its request accepted or not. */
  lemma ExecuteOutcome(k: Kernel, i: nat)
    requires Good(k, 1, 0, 1) && Occupied(k, i) && At(k, i).vm.Some? && !IsGovernor(At(k, i))
    ensures Good(ExecuteVm(k, i), 1, 0, 1) && IoOutcome(k, ExecuteVm(k, i), i)
  {
    hide RunOperations;
    var p := At(k, i);
    var o := RunOperations(p.vm.value);
    ExecuteVmGood(k, i);
    PutGood(k, i, p.(vm := Some(o.vm)), 1, 0, 1);
    var k1 := Put(k, i, p.(vm := Some(o.vm))).(lastTrapPid := p.pid);
    if o.rc == RC_TRAPPED {
      SuspendOutcome(k, k1, i, p.vm.value);
    } else {
      assert IoStill(k, RemoveProc(k1, p.pid).(current := None), p.pid);
    }
  }

  /** Releasing another resource changes no outcome. */
  lemma OutcomeThenRelease(k: Kernel, k1: Kernel, i: nat)
    requires Occupied(k, i) && IoOutcome(k, k1, i) && Good(k1, 1, 0, 1)
    ensures IoOutcome(k, ReleaseRes(k1, RES_MEM), i)
  {
    ReleaseMem(k1);
    FindCore(k1.res, 1, 0, 1);
  }

  lemma OutcomeAfter(k: Kernel, k1: Kernel, k2: Kernel, i: nat)
    requires Occupied(k, i) && Occupied(k1, i) && SameIdentity(At(k, i), At(k1, i))
    requires k1.history == k.history && IoQueue(k1) == IoQueue(k) && IoFree(k1) == IoFree(k) && IoOutcome(k1, k2, i)
    ensures IoOutcome(k, k2, i)
  {
  }

  lemma MemoryHeldQueue(k: Kernel, i: nat)
    requires Good(k, 2, 0, 1) && Occupied(k, i)
    ensures IoQueue(AfterRequest(LoadContext(k, i), RES_MEM, i)) == IoQueue(k)
    ensures IoFree(AfterRequest(LoadContext(k, i), RES_MEM, i)) == IoFree(k)
  {
    FindCore(k.res, 2, 0, 1);
  }

  lemma RunVmOutcome(k: Kernel, i: nat)
    requires Good(k, 2, 0, 1) && k.current == Some(i) && Occupied(k, i) && At(k, i).vm.Some? && !IsGovernor(At(k, i))
    ensures IoOutcome(k, RunVm(k, i), i)
  {
    hide ExecuteVm;
    LoadContextGood(k, i, 2, 0, 1);
    RequestMem(LoadContext(k, i), i);
    MemoryHeldQueue(k, i);
    var k2 := AfterRequest(LoadContext(k, i), RES_MEM, i);
    var p := At(k2, i);
    if p.swapped && !CanSwap(k.disk, p.swapSlot) {
      PutGood(k2, i, p.(state := SUSP_BLOCKED), 1, 0, 1);
      OutcomeThenRelease(k, SetState(k2, i, SUSP_BLOCKED), i);
    } else {
      var k3 := if p.swapped then SwapInFirst(k2, i) else k2;
      PutGood(k2, i, At(k3, i), 1, 0, 1);
      ExecuteOutcome(k3, i);
      OutcomeAfter(k, k3, ExecuteVm(k3, i), i);
      OutcomeThenRelease(k, ExecuteVm(k3, i), i);
    }
  }

  /** What the scheduler does after an entry returns keeps a sleeping requester asleep. */
  lemma EntryOutcome(k: Kernel, r: Return, i: nat)
    requires Occupied(k, i) && CallOk(k, r, i)
    ensures IoOutcome(k, AfterEntry(r, i, At(k, i).pid), i)
  {
    if IoStill(k, r.k, At(k, i).pid) {
      assert IoStill(k, AfterEntry(r, i, At(k, i).pid), At(k, i).pid);
    } else {
      assert IoTaken(k, AfterEntry(r, i, At(k, i).pid), i);
    }
  }

  lemma TurnOutcome(k: Kernel, i: nat, fired: bool)
    requires Good(k, 2, 0, 1) && k.current == Some(i) && Occupied(k, i)
    requires !IsHandler(At(k, i)) && !ShutsDown(k, i)
    ensures IoOutcome(k, TakeTurn(k, i, fired), i)
  {
    if At(k, i).hasEntry {
      CallOutcome(k, i, fired);
      EntryOutcome(k, RunEntry(k, i, fired), i);
    } else if At(k, i).vm.Some? {
      RunVmOutcome(k, i);
    }
  }

  /** What an entry may leave: if it accepted a request, it is a governor that returns blocked. */
  predicate CallOk(k: Kernel, r: Return, i: nat)
    requires Occupied(k, i)
  {
    && IoOutcome(k, r.k, i) && (r.rc != -1 ==> IoStill(k, r.k, At(k, i).pid))
    && (IoTaken(k, r.k, i) ==> IsGovernor(At(r.k, i)))
  }

  lemma StillIsOk(k: Kernel, r: Return, i: nat)
    requires Occupied(k, i) && IoStill(k, r.k, At(k, i).pid)
    ensures CallOk(k, r, i)
  {
    assert IoTaken(k, r.k, i) ==> |r.k.history.io| == |k.history.io| + 1;
  }

  lemma CallOutcome(k: Kernel, i: nat, fired: bool)
    requires Good(k, 2, 0, 1) && k.current == Some(i) && Occupied(k, i)
    requires At(k, i).hasEntry && !IsHandler(At(k, i)) && !ShutsDown(k, i)
    ensures CallOk(k, RunEntry(k, i, fired), i)
  {
    var p := At(k, i);
    if IsGovernor(p) {
      GovernorOutcome(k, i);
    } else {
      if IsLoader(p) {
        LoaderStill(k, i);
      } else if p.procType == INTERRUPT_HANDLER {
        InterruptHandlerStill(k, fired, i);
      }
      StillIsOk(k, RunEntry(k, i, fired), i);
    }
  }

  /** What a turn without a request leaves alone. */
  predicate SameRest(k: Kernel, k': Kernel) {
    && k'.disk == k.disk && k'.files == k.files && k'.history.io == k.history.io
    && k'.history.shutDown == k.history.shutDown && IoQueue(k') == IoQueue(k) && IoFree(k') == IoFree(k)
  }

  // Every dispatch keeps the requester in place

  /** What the automaton's phase says about the ring. */
  lemma OwnerIsInRing(k: Kernel, mem: int, cpu: int, tmr: int)
    requires Good(k, mem, cpu, tmr)
    ensures IoPhaseOf(k.history.io) != IoBroken
    ensures Owner(k).Some? <==> k.ioHead != k.ioTail
    ensures Owner(k).Some? ==> k.pending[k.ioHead].proc.Some? && AskOf(k.pending[k.ioHead]) == Owner(k).value
    ensures Due(k) <==> IoPhaseOf(k.history.io).IoSecond?
  {
  }

  /** The process in the way: a waiting process is not the one whose turn it is, and no loader works for it. */
  lemma WaitingIsSafe(k: Kernel, i: nat, w: nat)
    requires Resting(k) && HandshakeOk(k) && k.added <= MAX_ADDS && ReadyAt(k, i) && Waiting(k, w)
    ensures i != w && At(k, i).pid != At(k, w).pid
    ensures !(IsLoader(At(k, i)) && At(k, i).parentPid == At(k, w).pid)
  {
    PidsDistinct(k, i, w);
    if IsLoader(At(k, i)) {
      assert LoaderFits(At(k, i), At(k, w));
    }
  }

  /** The owner is left alone by every turn but a completing handler's and a shutdown's, so it still waits. */
  lemma OwnerLeft(k: Kernel, i: nat, fired: bool, w: nat)
    requires Resting(k) && HandshakeOk(k) && k.added <= MAX_ADDS && ReadyAt(k, i) && Waiting(k, w)
    requires Occupied(TurnState(k, i), i) && !ShutsDown(TurnState(k, i), i) && !(IsHandler(At(k, i)) && Due(k))
    ensures Left(k, Dispatch(k, i, fired), w) && At(k, i).pid != At(k, w).pid
  {
    hide Good, HandshakeOk, Dispatch;
    WaitingIsSafe(k, i, w);
    TurnStateLeft(k, i, w);
    DispatchLeaves(k, i, fired, w);
  }

  lemma StillWaiting(k: Kernel, k': Kernel, w: nat, me: Byte)
    requires Waiting(k, w) && Left(k, k', w) && me != At(k, w).pid
    requires forall x :: x in IoQueue(k') ==> x in IoQueue(k) || x == me
    requires Owner(k') == Owner(k) == TrapOf(At(k, w))
    ensures RequesterLive(k')
  {
    assert Waiting(k', w);
  }

  /** Taking and returning the CPU unit leaves the queue for the I/O unit alone. */
  lemma TurnQueue(k: Kernel, i: nat, fired: bool)
    requires Resting(k) && ReadyAt(k, i)
    ensures
      var t := TurnState(k, i);
      && IoQueue(t) == IoQueue(k) && IoQueue(Dispatch(k, i, fired)) == IoQueue(TakeTurn(t, i, fired))
      && IoFree(t) == IoFree(k) && IoFree(Dispatch(k, i, fired)) == IoFree(TakeTurn(t, i, fired))
  {
    var t := TurnState(k, i);
    PrologueGood(k, i);
    RequestCpu(Prologue(k, i), i);
    FindCore(k.res, 2, 1, 1);
    TakeTurnGood(t, i, fired);
    ReleaseCpuQueue(TakeTurn(t, i, fired));
  }

  lemma SameRestThroughDispatch(k: Kernel, i: nat, fired: bool)
    requires Resting(k) && ReadyAt(k, i) && SameRest(TurnState(k, i), TakeTurn(TurnState(k, i), i, fired))
    ensures SameRest(k, Dispatch(k, i, fired))
  {
    TurnStateIs(k, i);
    TurnQueue(k, i, fired);
    TurnReleases(k, i, fired);
  }

  lemma QuietDispatch(k: Kernel, i: nat, fired: bool)
    requires Resting(k) && ReadyAt(k, i)
    requires !IsHandler(At(k, i)) && Occupied(TurnState(k, i), i) && !ShutsDown(TurnState(k, i), i)
    ensures IoOutcome(k, Dispatch(k, i, fired), i)
  {
    hide Dispatch, TakeTurn, ShutsDown;
    var t := TurnState(k, i);
    PrologueGood(k, i);
    RequestCpu(Prologue(k, i), i);
    TurnOutcome(t, i, fired);
    TurnQueue(k, i, fired);
    TurnReleases(k, i, fired);
    CarryOutcome(k, t, TakeTurn(t, i, fired), Dispatch(k, i, fired), i);
  }

  lemma CarryOutcome(k: Kernel, t: Kernel, t': Kernel, k': Kernel, i: nat)
    requires Occupied(k, i) && Occupied(t, i) && SameIdentity(At(k, i), At(t, i)) && IoOutcome(t, t', i)
    requires t.history.io == k.history.io && t.history.shutDown == k.history.shutDown
    requires IoQueue(t) == IoQueue(k) && IoFree(t) == IoFree(k)
    requires k'.slots == t'.slots && k'.current == t'.current && k'.history == t'.history
    requires IoQueue(k') == IoQueue(t') && IoFree(k') == IoFree(t')
    ensures IoOutcome(k, k', i)
  {
    if IoTaken(t, t', i) {
      assert IoTaken(k, k', i);
    }
  }

  /** When the turn completes no request and shuts nothing down. */
  lemma QuietDispatchKeeps(k: Kernel, i: nat, fired: bool)
    requires Resting(k) && HandshakeOk(k) && k.added <= MAX_ADDS && ReadyAt(k, i) && RequesterLive(k)
    requires Occupied(TurnState(k, i), i) && !IsHandler(At(k, i)) && !ShutsDown(TurnState(k, i), i)
    ensures RequesterLive(Dispatch(k, i, fired))
  {
    hide Good, HandshakeOk, Dispatch;
    var k' := Dispatch(k, i, fired);
    QuietDispatch(k, i, fired);
    if IoTaken(k, k', i) {
      DispatchKeepsInvariant(k, i, fired);
      AcceptedIsOwner(k, k', i);
    } else if Owner(k).Some? && !k.history.shutDown {
      OwnerKeepsWaiting(k, i, fired);
    }
  }

  lemma AcceptedIsOwner(k: Kernel, k': Kernel, i: nat)
    requires Occupied(k, i) && IoTaken(k, k', i) && Resting(k')
    ensures RequesterLive(k')
  {
    IoPhaseStep(k.history.io, Accepted(TrapOf(At(k', i)).value));
    OwnerIsInRing(k', 2, 1, 1);
  }

  lemma HandlerDispatchKeeps(k: Kernel, i: nat, fired: bool)
    requires Resting(k) && HandshakeOk(k) && k.added <= MAX_ADDS && ReadyAt(k, i) && RequesterLive(k)
    requires Occupied(TurnState(k, i), i) && IsHandler(At(k, i))
    ensures RequesterLive(Dispatch(k, i, fired))
  {
    hide Good, HandshakeOk, Dispatch;
    var k' := Dispatch(k, i, fired);
    OwnerIsInRing(k, 2, 1, 1);
    HandlerDispatchShape(k, i, fired);
    HandlerMovesPhase(k);
    if !Due(k) && Owner(k).Some? && !k.history.shutDown {
      OwnerKeepsWaiting(k, i, fired);
    }
  }

  lemma OwnerKeepsWaiting(k: Kernel, i: nat, fired: bool)
    requires Resting(k) && HandshakeOk(k) && k.added <= MAX_ADDS && ReadyAt(k, i) && RequesterLive(k)
    requires Owner(k).Some? && !k.history.shutDown
    requires Occupied(TurnState(k, i), i) && !ShutsDown(TurnState(k, i), i) && !(IsHandler(At(k, i)) && Due(k))
    requires Owner(Dispatch(k, i, fired)) == Owner(k)
    requires forall x :: x in IoQueue(Dispatch(k, i, fired)) ==> x in IoQueue(k) || x == At(k, i).pid
    ensures RequesterLive(Dispatch(k, i, fired))
  {
    var w :| 0 <= w < MAX_PRIORITY && Waiting(k, w) && TrapOf(At(k, w)) == Owner(k);
    OwnerLeft(k, i, fired, w);
    StillWaiting(k, Dispatch(k, i, fired), w, At(k, i).pid);
  }

  /** A handler step keeps the owner of the request in flight, or completes the request. */
  lemma HandlerMovesPhase(k: Kernel)
    requires Resting(k)
    ensures
      var ph := IoPhaseOf(k.history.io + HandlerEvents(k));
      if Due(k) then ph == IoIdle
      else if Owner(k).Some? then ph == IoSecond(Owner(k).value)
      else ph == IoIdle
  {
    OwnerIsInRing(k, 2, 1, 1);
    IoPhaseStep(k.history.io, HandlerStep);
    if Due(k) {
      var e := Consumed(AskOf(k.pending[k.ioHead]));
      IoPhaseStep(k.history.io + [HandlerStep], e);
      assert k.history.io + [HandlerStep, e] == k.history.io + [HandlerStep] + [e];
    }
  }

  lemma HandlerTurnShape(k: Kernel, i: nat, fired: bool)
    requires Good(k, 2, 0, 1) && Occupied(k, i) && IsHandler(At(k, i))
    ensures
      var k' := TakeTurn(k, i, fired);
      && k'.history == k.history.(io := k.history.io + HandlerEvents(k))
      && (!Due(k) ==> k'.res == k.res)
  {
    CompletionKeepsHistory(k);
  }

  /** The handler's turn: its events are recorded, and unless a request is completed nobody joins the queue. */
  lemma HandlerDispatchShape(k: Kernel, i: nat, fired: bool)
    requires Resting(k) && ReadyAt(k, i) && IsHandler(At(k, i))
    ensures
      var k' := Dispatch(k, i, fired);
      && k'.history.io == k.history.io + HandlerEvents(k) && k'.history.shutDown == k.history.shutDown
      && (!Due(k) ==> IoQueue(k') == IoQueue(k) && IoFree(k') == IoFree(k))
  {
    hide Good;
    PrologueGood(k, i);
    RequestCpu(Prologue(k, i), i);
    HandlerTurnShape(TurnState(k, i), i, fired);
    TurnQueue(k, i, fired);
    TurnReleases(k, i, fired);
  }

  lemma ReleaseCpuQueue(k: Kernel)
    requires Good(k, 2, 0, 1)
    ensures IoQueue(ReleaseRes(k, RES_CPU)) == IoQueue(k) && IoFree(ReleaseRes(k, RES_CPU)) == IoFree(k)
    ensures ReleaseRes(k, RES_CPU).history == k.history
  {
    FindCore(k.res, 2, 0, 1);
  }

  lemma CompletionKeepsHistory(k: Kernel)
    ensures StepIo(k).history == k.history
  {
  }

  /** The owner of the request in flight survives every dispatch. */
  lemma DispatchKeepsRequester(k: Kernel, i: nat, fired: bool)
    requires Resting(k) && HandshakeOk(k) && k.added <= MAX_ADDS && RequesterLive(k)
    ensures RequesterLive(Dispatch(k, i, fired))
  {
    if ReadyAt(k, i) {
      PrologueGood(k, i);
      RequestCpu(Prologue(k, i), i);
      if IsHandler(At(k, i)) {
        HandlerDispatchKeeps(k, i, fired);
      } else if ShutsDown(TurnState(k, i), i) {
        ShutdownDispatch(k, i, fired);
      } else {
        QuietDispatchKeeps(k, i, fired);
      }
    }
  }

  lemma ShutdownDispatch(k: Kernel, i: nat, fired: bool)
    requires Resting(k) && ReadyAt(k, i) && Occupied(TurnState(k, i), i) && ShutsDown(TurnState(k, i), i)
    ensures Dispatch(k, i, fired).history.shutDown
  {
    hide Good, AfterRequest;
    TurnReleases(k, i, fired);
  }

  // Whole runs

  ghost predicate Sound(k: Kernel) {
    Protocol(k) && (k.added <= MAX_ADDS ==> RequesterLive(k))
  }

  lemma DispatchKeepsSound(k: Kernel, i: nat, fired: bool)
    requires Sound(k)
    ensures Sound(Dispatch(k, i, fired))
  {
    DispatchKeepsProtocol(k, i, fired);
    if Dispatch(k, i, fired).added <= MAX_ADDS {
      DispatchKeepsRequester(k, i, fired);
    }
  }

  lemma {:induction false} RangeKeepsSound(k: Kernel, hi: int, lo: int, fired: set<nat>)
    requires Sound(k) && hi < MAX_PRIORITY && 0 <= lo
    ensures Sound(RunRange(k, hi, lo, fired))
    decreases hi - lo
  {
    hide Dispatch, Sound;
    if hi < lo {
    } else {
      DispatchKeepsSound(k, hi, hi in fired);
      RangeKeepsSound(Dispatch(k, hi, hi in fired), hi - 1, lo, fired);
    }
  }

  lemma AddKeepsSound(k: Kernel, n: NewProcess)
    requires Sound(k) && n.parentPid == 0
    ensures Sound(AddProc(k, n))
  {
    AddKeepsProtocol(k, n);
    var k' := AddProc(k, n);
    if k'.added <= MAX_ADDS && Owner(k).Some? && !k.history.shutDown {
      var w :| 0 <= w < MAX_PRIORITY && Waiting(k, w) && TrapOf(At(k, w)) == Owner(k);
      AddLeft(k, n, w);
      assert Waiting(k', w);
    }
  }

  lemma {:induction false} SoundOverRuns(storage: Storage, files: seq<FileEntry>, acts: seq<Action>)
    ensures Sound(Run(Boot(storage, files), acts))
    decreases |acts|
  {
    if acts == [] {
      HandshakeOverRuns(storage, files, acts);
    } else {
      var front := acts[..|acts| - 1];
      var k := Run(Boot(storage, files), front);
      SoundOverRuns(storage, files, front);
      match acts[|acts| - 1]
      case Add(n) => AddKeepsSound(k, n.(parentPid := 0));
      case Cycle(fired) =>
        RangeKeepsSound(k, MAX_PRIORITY - 1, FIRST_SYSTEM_SLOT, fired);
        RangeKeepsSound(RunRange(k, MAX_PRIORITY - 1, FIRST_SYSTEM_SLOT, fired), FIRST_SYSTEM_SLOT - 1, 0, fired);
    }
  }

  /**
    No dangling request: in every reachable state before a shutdown, with at
    most 158 processes added, the request in flight belongs to a process that is
    in the table, sleeps, is not the current process, and does not itself wait
    for the I/O unit; and it is, register by register, the trap that process's
    machine stopped with.
    */
  lemma NoDanglingRequest(storage: Storage, files: seq<FileEntry>, acts: seq<Action>) returns (w: nat)
    requires
      var k := Run(Boot(storage, files), acts);
      k.added <= MAX_ADDS && !k.history.shutDown && k.ioHead != k.ioTail && k.ioHead < RING_SIZE
    ensures
      var k := Run(Boot(storage, files), acts);
      var req := k.pending[k.ioHead];
      && Requester(k, req) == Some(w) && Waiting(k, w)
      && req.proc.Some? && TrapOf(At(k, w)) == Some(AskOf(req))
  {
    hide Run;
    SoundOverRuns(storage, files, acts);
    var k := Run(Boot(storage, files), acts);
    OwnerIsInRing(k, 2, 1, 1);
    w :| 0 <= w < MAX_PRIORITY && Waiting(k, w) && TrapOf(At(k, w)) == Owner(k);
    assert HasSerial(Owner(k).value.serial)(k.slots[w]);
    SerialUnique(k, w);
  }

  /** While any governor is ready or blocked, no dispatch shuts the system down. */
  lemma GovernorsPreventShutdown(k: Kernel, i: nat, fired: bool, w: nat)
    requires Resting(k) && Occupied(k, w) && At(k, w).procType == JOB_GOVERNOR && At(k, w).state in {READY, BLOCKED}
    ensures Dispatch(k, i, fired).history.shutDown == k.history.shutDown
  {
    hide Good;
    if ReadyAt(k, i) {
      PrologueGood(k, i);
      RequestCpu(Prologue(k, i), i);
      var t := TurnState(k, i);
      if IsHandler(At(k, i)) {
        HandlerDispatchShape(k, i, fired);
      } else {
        assert HasWork()(t.slots[w]);
        QuietDispatch(k, i, fired);
      }
    }
  }
}
