/**
  Swapped-out machines over runs. A machine without a governor that traps is
  swapped out, and gets exactly that memory back at its next turn unless
  something was written over its slot. So the data of the READ it asked for,
  which the handler puts into the memory the machine still has in the table, is
  lost to the swap-in.
  */
module SwappedReads {
  import opened Words
  import opened Isa
  import opened Disk
  import opened VirtualMachine
  import opened Swapper
  import opened DiskTraffic
  import opened KernelModel
  import opened KernelInvariant
  import opened KernelSafety
  import opened DispatchOrder
  import opened MachineIsolation
  import opened PendingRequests
  import opened ContextsOfRuns
  import opened DiskOfRuns

  // The turn in which the machine traps

  /** A trapped machine whose request is accepted is swapped out exactly when its slot exists on an idle disk. */
  lemma SuspendSwaps(k: Kernel, i: nat)
    requires Occupied(k, i) && At(k, i).vm.Some? && !At(k, i).swapped && AcceptsIo(k)
    ensures
      var p := At(k, i);
      var k' := SuspendVm(k, i);
      && k'.slots[i] == Some(p.(swapped := CanSwap(k.disk, p.swapSlot), state := SUSP_BLOCKED, waitingResId := RES_IO))
      && k'.disk == SwapOut(k.disk, p.vm.value.memory, p.swapSlot)
  {
    AcceptedKeepsMachine(k, i);
  }

  lemma AcceptedKeepsMachine(k: Kernel, i: nat)
    requires Occupied(k, i) && At(k, i).vm.Some? && AcceptsIo(k)
    ensures
      var vm := At(k, i).vm.value;
      var k' := EnqueueIo(k, i, vm.trapCode, vm.trapR0, vm.trapR1, vm.trapR2);
      && k'.disk == k.disk && Occupied(k', i)
      && At(k', i) == At(k, i).(state := BLOCKED, waitingResId := RES_IO)
  {
  }

  /** The machine of the process in slot `i` is there to run, traps, and its request is accepted. */
  predicate TrapsOut(k: Kernel, i: nat)
    requires Occupied(k, i) && At(k, i).vm.Some?
  {
    && !At(k, i).hasEntry && (At(k, i).swapped ==> CanSwap(k.disk, At(k, i).swapSlot))
    && RunOperations(MachineToRun(k, i)).rc == RC_TRAPPED && AcceptsIo(k)
  }

  /** The process after that turn. */
  function TrappedOut(k: Kernel, i: nat): Process
    requires Occupied(k, i) && At(k, i).vm.Some?
  {
    At(k, i).(vm := Some(RunOperations(MachineToRun(k, i)).vm), swapped := SlotExists(At(k, i).swapSlot),
              state := SUSP_BLOCKED, waitingResId := RES_IO)
  }

  /** The slot of the process in slot `i` holds the memory its machine trapped with. */
  predicate HeldInSlot(k: Kernel, k': Kernel, i: nat)
    requires Occupied(k, i) && At(k, i).vm.Some?
  {
    k'.slots[i] == Some(TrappedOut(k, i)) && k'.disk == SwapOut(k.disk, MachineToRun(k, i).memory, At(k, i).swapSlot)
  }

  /** The request was accepted and recorded; no other entry changed, and nobody is current. */
  predicate TrapRecorded(k: Kernel, k': Kernel, i: nat)
    requires Occupied(k, i) && At(k, i).vm.Some?
  {
    && k'.history.io == k.history.io + [Accepted(TrapOf(TrappedOut(k, i)).value)] && k'.current == None
    && k'.files == k.files && k'.added == k.added
    && forall j :: 0 <= j < MAX_PRIORITY && j != i ==> k'.slots[j] == k.slots[j]
  }

  lemma AcceptedRecord(k: Kernel, i: nat)
    requires Occupied(k, i) && At(k, i).vm.Some? && AcceptsIo(k)
    ensures
      var k' := SuspendVm(k, i);
      && k'.history.io == k.history.io + [Accepted(TrapOf(At(k, i)).value)] && k'.current == None
      && k'.files == k.files && k'.added == k.added
      && forall j :: 0 <= j < MAX_PRIORITY && j != i ==> k'.slots[j] == k.slots[j]
  {
  }

  lemma ExecuteSwaps(k: Kernel, i: nat)
    requires Occupied(k, i) && At(k, i).vm.Some? && !At(k, i).swapped && AcceptsIo(k) && !k.disk.busy
    requires !At(k, i).hasEntry && RunOperations(At(k, i).vm.value).rc == RC_TRAPPED
    ensures HeldInSlot(k, ExecuteVm(k, i), i) && TrapRecorded(k, ExecuteVm(k, i), i)
  {
    hide SuspendVm;
    var p := At(k, i);
    var o := RunOperations(p.vm.value);
    RunOperationsOutcome(p.vm.value);
    SuspendSwaps(Put(k, i, p.(vm := Some(o.vm))).(lastTrapPid := p.pid), i);
    AcceptedRecord(Put(k, i, p.(vm := Some(o.vm))).(lastTrapPid := p.pid), i);
  }

  lemma AcceptsSame(k: Kernel, k': Kernel, mem: int, mem': int)
    requires Good(k, mem, 0, 1) && Good(k', mem', 0, 1)
    requires k'.res[0] == k.res[0] && k'.ioHead == k.ioHead && k'.ioTail == k.ioTail
    ensures AcceptsIo(k') == AcceptsIo(k)
  {
    FindCore(k.res, mem, 0, 1);
    FindCore(k'.res, mem', 0, 1);
  }

  /** With the memory unit held, a machine that has been swapped in executes. */
  lemma ReadyToExecute(k: Kernel, i: nat)
    requires Good(k, 2, 0, 1) && Occupied(k, i) && At(k, i).vm.Some?
    ensures
      var k2 := AfterRequest(LoadContext(k, i), RES_MEM, i);
      && Grants(LoadContext(k, i), RES_MEM) && Good(k2, 1, 0, 1) && k2.disk == k.disk
      && k2.slots == k.slots[i := Some(At(k, i).(state := RUNNING, waitingResId := 0))]
      && AcceptsIo(k2) == AcceptsIo(k)
  {
    MemoryTaken(k, i);
    FindCore(k.res, 2, 0, 1);
    AcceptsSame(k, AfterRequest(LoadContext(k, i), RES_MEM, i), 2, 1);
  }

  /** The state in which the machine executes: the memory unit held, and swapped in. */
  function Executing(k: Kernel, i: nat): Kernel
    requires Occupied(k, i) && At(k, i).vm.Some?
  {
    var k2 := AfterRequest(LoadContext(k, i), RES_MEM, i);
    if At(k, i).swapped && Occupied(k2, i) && At(k2, i).vm.Some? then SwapInFirst(k2, i) else k2
  }

  lemma RunVmExecutes(k: Kernel, i: nat)
    requires Good(k, 2, 0, 1) && Occupied(k, i) && At(k, i).vm.Some?
    requires At(k, i).swapped ==> CanSwap(k.disk, At(k, i).swapSlot)
    ensures
      var k3 := Executing(k, i);
      && Occupied(k3, i) && At(k3, i).vm.Some? && Good(k3, 1, 0, 1)
      && RunVm(k, i) == ReleaseRes(ExecuteVm(k3, i), RES_MEM)
      && k3.disk == k.disk && AcceptsIo(k3) == AcceptsIo(k)
      && k3.slots == k.slots[i := Some(At(k, i).(vm := Some(MachineToRun(k, i)), swapped := false, state := RUNNING,
                                                 waitingResId := 0))]
      && k3.history.io == k.history.io && k3.files == k.files && k3.added == k.added
  {
    hide ReleaseRes, ExecuteVm, AcceptsIo, AfterRequest, ResOk;
    ReadyToExecute(k, i);
    MemoryRecord(k, i);
    var k2 := AfterRequest(LoadContext(k, i), RES_MEM, i);
    AcceptsAfterSwapIn(k2, i);
    PutGood(k2, i, At(Executing(k, i), i), 1, 0, 1);
  }

  lemma MemoryRecord(k: Kernel, i: nat)
    requires Good(k, 2, 0, 1) && Occupied(k, i)
    ensures
      var k2 := AfterRequest(LoadContext(k, i), RES_MEM, i);
      k2.history == k.history && k2.files == k.files && k2.added == k.added
  {
    LoadContextGood(k, i, 2, 0, 1);
    RequestMem(LoadContext(k, i), i);
  }

  lemma RunVmSwaps(k: Kernel, i: nat)
    requires Good(k, 2, 0, 1) && Occupied(k, i) && At(k, i).vm.Some? && TrapsOut(k, i)
    ensures HeldInSlot(k, RunVm(k, i), i) && TrapRecorded(k, RunVm(k, i), i)
  {
    hide Executing, ReleaseRes, ExecuteVm, AcceptsIo, RunVm, ResOk;
    RunVmExecutes(k, i);
    ExecuteSwaps(Executing(k, i), i);
    ReleasesMem(Executing(k, i), i);
  }

  lemma AcceptsAfterSwapIn(k: Kernel, i: nat)
    requires Occupied(k, i) && At(k, i).vm.Some?
    ensures AcceptsIo(SwapInFirst(k, i)) == AcceptsIo(k)
  {
  }

  lemma ReleaseRest(k: Kernel, id: int)
    ensures ReleaseRes(k, id) == k.(slots := ReleaseRes(k, id).slots, res := ReleaseRes(k, id).res)
  {
  }

  lemma ReleasesMem(k: Kernel, i: nat)
    requires Good(k, 1, 0, 1) && Occupied(k, i) && At(k, i).vm.Some?
    ensures
      var k' := ReleaseRes(ExecuteVm(k, i), RES_MEM);
      && k'.slots == ExecuteVm(k, i).slots && k'.disk == ExecuteVm(k, i).disk
      && k'.history == ExecuteVm(k, i).history && k'.current == ExecuteVm(k, i).current
      && k'.files == ExecuteVm(k, i).files && k'.added == ExecuteVm(k, i).added
  {
    hide ExecuteVm, ReleaseRes;
    ExecuteVmGood(k, i);
    ReleaseMem(ExecuteVm(k, i));
    ReleaseRest(ExecuteVm(k, i), RES_MEM);
  }

  lemma TurnStateAccepts(k: Kernel, i: nat, fired: bool)
    requires Resting(k) && ReadyAt(k, i)
    ensures AcceptsIo(TurnState(k, i)) == AcceptsIo(k)
  {
    hide TurnState, Dispatch, TakeTurn;
    TurnStateIs(k, i);
    TurnQueue(k, i, fired);
    FindCore(k.res, 2, 1, 1);
    FindCore(TurnState(k, i).res, 2, 0, 1);
  }

  lemma TurnStateTraps(k: Kernel, i: nat, fired: bool)
    requires Resting(k) && ReadyAt(k, i) && At(k, i).vm.Some? && TrapsOut(k, i)
    ensures
      var t := TurnState(k, i);
      && Good(t, 2, 0, 1) && Occupied(t, i) && At(t, i).vm.Some? && TrapsOut(t, i) && t.disk == k.disk
      && TrappedOut(t, i) == TrappedOut(k, i) && MachineToRun(t, i) == MachineToRun(k, i)
      && At(t, i).swapSlot == At(k, i).swapSlot
  {
    hide TurnState, Good, AcceptsIo;
    TurnStateIs(k, i);
    TurnStateAccepts(k, i, fired);
  }

  /** After the turn in which it traps, a machine's slot holds its memory, and its request is recorded. */
  lemma TrapDispatchSwaps(k: Kernel, i: nat, fired: bool)
    requires Resting(k) && ReadyAt(k, i) && At(k, i).vm.Some? && TrapsOut(k, i)
    ensures Occupied(TurnState(k, i), i) && At(TurnState(k, i), i).vm.Some?
    ensures HeldInSlot(k, Dispatch(k, i, fired), i) && TrapRecorded(TurnState(k, i), Dispatch(k, i, fired), i)
    ensures Dispatch(k, i, fired).history.io == k.history.io + [Accepted(TrapOf(TrappedOut(k, i)).value)]
  {
    hide TurnState, Good, Dispatch, RunVm, TrappedOut, MachineToRun;
    TurnStateTraps(k, i, fired);
    TurnStateIs(k, i);
    RunVmSwaps(TurnState(k, i), i);
    TurnReleases(k, i, fired);
  }

  // A request that is denied

  lemma SuspendDenied(k: Kernel, i: nat)
    requires Occupied(k, i) && At(k, i).vm.Some? && !Grants(k, RES_IO)
    ensures
      var k' := SuspendVm(k, i);
      && Occupied(k', i) && At(k', i).vm == At(k, i).vm && At(k', i).swapped == At(k, i).swapped
      && At(k', i).state == SUSP_BLOCKED && k'.disk == k.disk && k'.history.io == k.history.io
  {
  }

  /** The machine sleeps past its trap, not swapped out; nothing was recorded, and the disk is as it was. */
  predicate DeniedAsleep(k: Kernel, k': Kernel, i: nat)
    requires Occupied(k, i) && At(k, i).vm.Some?
  {
    && Occupied(k', i) && At(k', i).vm == Some(RunOperations(MachineToRun(k, i)).vm) && !At(k', i).swapped
    && At(k', i).state == SUSP_BLOCKED && k'.disk == k.disk && k'.history.io == k.history.io
  }

  lemma ExecuteDenied(k: Kernel, i: nat)
    requires Occupied(k, i) && At(k, i).vm.Some? && !At(k, i).swapped && !Grants(k, RES_IO)
    requires RunOperations(At(k, i).vm.value).rc == RC_TRAPPED
    ensures DeniedAsleep(k, ExecuteVm(k, i), i)
  {
    hide SuspendVm;
    var p := At(k, i);
    var o := RunOperations(p.vm.value);
    SuspendDenied(Put(k, i, p.(vm := Some(o.vm))).(lastTrapPid := p.pid), i);
  }

  lemma GrantsIffAccepts(k: Kernel, mem: int, cpu: int, tmr: int)
    requires Good(k, mem, cpu, tmr)
    ensures Grants(k, RES_IO) == AcceptsIo(k)
  {
    FindCore(k.res, mem, cpu, tmr);
  }

  lemma RunVmDenied(k: Kernel, i: nat)
    requires Good(k, 2, 0, 1) && Occupied(k, i) && At(k, i).vm.Some? && !AcceptsIo(k)
    requires At(k, i).swapped ==> CanSwap(k.disk, At(k, i).swapSlot)
    requires RunOperations(MachineToRun(k, i)).rc == RC_TRAPPED
    ensures DeniedAsleep(k, RunVm(k, i), i)
  {
    hide Executing, ReleaseRes, ExecuteVm, AcceptsIo, Grants, RunVm, ResOk;
    RunVmExecutes(k, i);
    GrantsIffAccepts(Executing(k, i), 1, 0, 1);
    ExecuteDenied(Executing(k, i), i);
    ReleasesMem(Executing(k, i), i);
  }

  /**
    Denied, a machine's request is lost: it sleeps past its trap with its memory
    as it was, is not swapped out, and nothing is queued for the handler.
    */
  lemma DeniedTrapIsLost(k: Kernel, i: nat, fired: bool)
    requires Resting(k) && ReadyAt(k, i) && !At(k, i).hasEntry && At(k, i).vm.Some? && !AcceptsIo(k)
    requires At(k, i).swapped ==> CanSwap(k.disk, At(k, i).swapSlot)
    requires RunOperations(MachineToRun(k, i)).rc == RC_TRAPPED
    ensures DeniedAsleep(k, Dispatch(k, i, fired), i)
    ensures RunOperations(MachineToRun(k, i)).vm.memory == MachineToRun(k, i).memory
  {
    hide TurnState, Good, Dispatch, RunVm, AcceptsIo, SwapIn;
    TurnStateIs(k, i);
    TurnStateAccepts(k, i, fired);
    RunVmDenied(TurnState(k, i), i);
    TurnReleases(k, i, fired);
    RunOperationsOutcome(MachineToRun(k, i));
  }

  // Until its next turn

  /**
    The state in which the loop reaches slot `i` again: the rest of the pass from
    slot `i` on, any actions, and the next pass down to slot `i`.
    */
  function NextPass(k: Kernel, i: nat, fired: set<nat>, acts: seq<Action>, fired': set<nat>): Kernel
    requires i < MAX_PRIORITY
  {
    RunRange(Run(RunRange(k, i, 0, fired), acts), MAX_PRIORITY - 1, i + 1, fired')
  }

  lemma NextPassDisk(k: Kernel, i: nat, fired: set<nat>, acts: seq<Action>, fired': set<nat>)
    requires Resting(k) && i < MAX_PRIORITY
    ensures Resting(NextPass(k, i, fired, acts, fired'))
    ensures DiskSince(Dispatch(k, i, i in fired), NextPass(k, i, fired, acts, fired'))
  {
    hide Resting, Dispatch, DiskSince;
    var k0 := Dispatch(k, i, i in fired);
    var k1 := RunRange(k, i, 0, fired);
    var k2 := Run(k1, acts);
    DispatchKeepsInvariant(k, i, i in fired);
    RangeDisk(k0, i - 1, 0, fired);
    SectorsOfRuns(k1, acts);
    RangeDisk(k2, MAX_PRIORITY - 1, i + 1, fired');
    DiskTrans(k0, k1, k2);
    DiskTrans(k0, k2, NextPass(k, i, fired, acts, fired'));
  }

  /** A process that is still there at the next pass has the swap slot it had. */
  lemma NextPassSlot(k: Kernel, i: nat, fired: set<nat>, acts: seq<Action>, fired': set<nat>)
    requires Resting(k) && Occupied(k, i) && Occupied(NextPass(k, i, fired, acts, fired'), i)
    requires At(NextPass(k, i, fired, acts, fired'), i).serial == At(k, i).serial
    ensures At(NextPass(k, i, fired, acts, fired'), i).swapSlot == At(k, i).swapSlot
  {
    var k1 := RunRange(k, i, 0, fired);
    var k2 := Run(k1, acts);
    hide Good, RunRange, Run;
    GoodSerials(k, 2, 1, 1);
    RangeStays(k, i, 0, fired);
    RunStays(k1, acts);
    RangeStays(k2, MAX_PRIORITY - 1, i + 1, fired');
    StaysTrans(k, k1, k2);
    StaysTrans(k, k2, NextPass(k, i, fired, acts, fired'));
  }

  /** The slot's sectors are as they were. */
  predicate SlotKept(slot: Word, d: DiskState, d': DiskState) {
    SlotExists(slot) ==>
      forall s :: SlotStart(slot) <= s < SlotStart(slot) + SLOT_SECTORS ==> d'.storage[s] == d.storage[s]
  }

  lemma SwapInKept(d: DiskState, d': DiskState, mem: VmMemory, other: VmMemory, slot: Word)
    requires CanSwap(d, slot) && CanSwap(d', slot) && SlotKept(slot, SwapOut(d, mem, slot), d')
    ensures SwapIn(other, d', slot) == mem
  {
    var start := SlotStart(slot);
    var d1 := SwapOut(d, mem, slot);
    forall b | 0 <= b < VM_MEMORY_SIZE
      ensures d'.storage[start + b / SECTOR_SIZE][b % SECTOR_SIZE] == mem[b]
    {
      assert d1.storage[start + b / SECTOR_SIZE] == Chunk(mem, b / SECTOR_SIZE);
    }
  }

  /** Nothing was written over the slot since `h`. */
  predicate SlotSpared(slot: Word, h: History, h': History) {
    forall s :: 0 <= s < SECTOR_COUNT && Covers(slot, s) ==> Spared(h, h', s)
  }

  /**
    Swap integrity over runs. A machine without a governor traps at its turn and
    is swapped out. Whatever then happens, for the rest of the pass, in any
    actions, and down to its slot in the next pass: if the process is still
    there and still swapped out, and since the trap no completed WRITE named a
    sector of its slot and no machine was swapped out over one, then it resumes
    with exactly the memory it trapped with.
    */
  lemma ResumesWithItsMemory(k: Kernel, i: nat, fired: set<nat>, acts: seq<Action>, fired': set<nat>)
    requires Resting(k) && ReadyAt(k, i) && At(k, i).vm.Some? && TrapsOut(k, i) && SlotExists(At(k, i).swapSlot)
    requires
      var k' := NextPass(k, i, fired, acts, fired');
      && Occupied(k', i) && At(k', i).serial == At(k, i).serial && At(k', i).vm.Some? && At(k', i).swapped
      && SlotSpared(At(k, i).swapSlot, Dispatch(k, i, i in fired).history, k'.history)
    ensures MachineToRun(NextPass(k, i, fired, acts, fired'), i).memory == MachineToRun(k, i).memory
  {
    hide NextPass, Dispatch, RunOperations, AcceptsIo, SwapIn, SwapOut;
    var k' := NextPass(k, i, fired, acts, fired');
    TrapDispatchSwaps(k, i, i in fired);
    NextPassDisk(k, i, fired, acts, fired');
    NextPassSlot(k, i, fired, acts, fired');
    SwapInKept(k.disk, k'.disk, MachineToRun(k, i).memory, At(k', i).vm.value.memory, At(k, i).swapSlot);
  }

  // What becomes of a READ

  /** The entry of a requester whose request is completed. */
  lemma CompletedEntry(k: Kernel, w: nat)
    requires Completes(k, w)
    ensures
      var p := At(Transfer(k, w, k.pending[k.ioHead]), w);
      && IoHandler(k).slots[w] == Some(p.(state := READY, waitingResId := 0))
      && IoHandler(k).disk == Transfer(k, w, k.pending[k.ioHead]).disk
  {
    var k1 := Transfer(k, w, k.pending[k.ioHead]);
    ReleasedEntry(k1, w);
    ReleaseDisk(k1, RES_IO);
  }

  lemma ReleasedEntry(k: Kernel, w: nat)
    requires Occupied(k, w)
    ensures
      var k' := ReleaseRes(k, RES_IO);
      && Occupied(k', w)
      && At(k', w) == At(k, w).(state := At(k', w).state, waitingResId := At(k', w).waitingResId)
  {
  }

  /**
    A READ completed by the handler puts its data into the memory in the table.
    It changes the memory the requester will run with exactly when the requester
    is not swapped out: then the machine sees the data, and otherwise what its
    slot holds, as before.
    */
  lemma CompletedReadIsSeen(k: Kernel, i: nat, fired: bool, w: nat)
    requires Resting(k) && ReadyAt(k, i) && IsHandler(At(k, i)) && Occupied(k, w) && w != i && Completes(k, w)
    requires k.pending[k.ioHead].code == SI_READ
    ensures
      var req := k.pending[k.ioHead];
      var k' := Dispatch(k, i, fired);
      && Occupied(k', w) && At(k', w).vm.Some?
      && At(k', w).vm.value.memory == ReadTransfer(At(k, w).vm.value.memory, k.disk, req.r0, req.r1, req.r2)
      && MachineToRun(k', w).memory ==
         if At(k, w).swapped && CanSwap(k.disk, At(k, w).swapSlot) then MachineToRun(k, w).memory
         else ReadTransfer(At(k, w).vm.value.memory, k.disk, req.r0, req.r1, req.r2)
  {
    hide TurnState, Dispatch, TakeTurn, IoHandler, ReadTransfer, SwapIn, Resting, Due;
    var t := TurnState(k, i);
    TurnStateLeft(k, i, w);
    TurnStateSwap(k, i, w);
    RequesterStays(k, i, w);
    CompletedReadEntry(t, w);
    HandlerTurnIs(t, i, fired, w);
    TurnReleases(k, i, fired);
    SwapInIgnores(At(k, w).vm.value.memory, At(Dispatch(k, i, fired), w).vm.value.memory, k.disk, At(k, w).swapSlot);
  }

  lemma TurnStateSwap(k: Kernel, i: nat, w: nat)
    requires Resting(k) && Occupied(k, i) && Occupied(k, w) && i != w
    ensures Occupied(TurnState(k, i), w) && At(TurnState(k, i), w).swapped == At(k, w).swapped
  {
    hide Resting;
  }

  lemma CompletedReadEntry(k: Kernel, w: nat)
    requires Completes(k, w) && k.pending[k.ioHead].code == SI_READ
    ensures
      var req := k.pending[k.ioHead];
      var k' := IoHandler(k);
      && k'.disk == k.disk && Occupied(k', w) && At(k', w).vm.Some?
      && At(k', w).swapped == At(k, w).swapped && At(k', w).swapSlot == At(k, w).swapSlot
      && At(k', w).vm.value.memory == ReadTransfer(At(k, w).vm.value.memory, k.disk, req.r0, req.r1, req.r2)
  {
    hide IoHandler, ReadTransfer;
    CompletedEntry(k, w);
  }

  /** What a machine had in memory does not matter once it is swapped in. */
  lemma SwapInIgnores(a: VmMemory, b: VmMemory, d: DiskState, slot: Word)
    ensures CanSwap(d, slot) ==> SwapIn(a, d, slot) == SwapIn(b, d, slot)
    ensures !CanSwap(d, slot) ==> SwapIn(b, d, slot) == b
  {
  }

  /**
    What the machine then resumes with, exactly: if its slot exists and was
    spared, what it trapped with, whatever was put into its memory in the table
    meanwhile, a completed READ included; if the slot does not exist, what the
    table holds.
    */
  lemma ReadSurvivesExactly(k: Kernel, i: nat, fired: set<nat>, acts: seq<Action>, fired': set<nat>)
    requires Resting(k) && ReadyAt(k, i) && At(k, i).vm.Some? && TrapsOut(k, i)
    requires
      var k' := NextPass(k, i, fired, acts, fired');
      && Occupied(k', i) && At(k', i).serial == At(k, i).serial && At(k', i).vm.Some?
      && At(k', i).swapped == SlotExists(At(k, i).swapSlot)
      && SlotSpared(At(k, i).swapSlot, Dispatch(k, i, i in fired).history, k'.history)
    ensures
      var k' := NextPass(k, i, fired, acts, fired');
      MachineToRun(k', i).memory ==
      if SlotExists(At(k, i).swapSlot) then MachineToRun(k, i).memory else At(k', i).vm.value.memory
  {
    hide NextPass, Dispatch, SlotSpared, TrapsOut;
    if SlotExists(At(k, i).swapSlot) {
      ResumesWithItsMemory(k, i, fired, acts, fired');
    }
  }
}
