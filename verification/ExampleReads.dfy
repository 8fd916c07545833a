/**
  A run in which a machine without a governor asks for a READ. In the third cycle
  the handler completes it, and in the same cycle the machine takes its next
  turn: with its old memory if its swap slot exists, and with the data if not.
  */
module ExampleReads {
  import opened Words
  import opened Isa
  import opened Disk
  import opened VirtualMachine
  import opened Swapper
  import opened DiskTraffic
  import opened KernelModel
  import opened KernelInvariant
  import opened KernelSafety
  import opened Frames
  import opened DispatchOrder
  import opened MachineIsolation
  import opened ContextsOfRuns
  import opened PendingRequests
  import opened IoStarvation
  import opened SwappedReads
  import opened ExampleRuns

  // The machine

  /** The instruction READ, and zeros. */
  function ReadMemory(): VmMemory {
    seq<Byte>(VM_MEMORY_SIZE, b => if b == 0 then 0xB0 else 0)
  }

  /** One word of sector 0 is to go to address 16. */
  function ReaderVm(): Vm {
    Vm(ReadMemory(), [0, 16, 1, 0, 0, 0, 0, 0], 0, 0, 0, 0, 0, 0, 0)
  }

  const ASK := Ask(2, SI_READ, 0, 16, 1)

  /** A user process without an entry, and the number of its swap slot. */
  function NewReader(slot: Byte): NewProcess {
    NewProcess(false, IDLE, false, Some(ReaderVm()), 0, 0, slot)
  }

  lemma ReaderTraps()
    ensures
      var o := RunOperations(ReaderVm());
      && o.rc == RC_TRAPPED && o.vm.memory == ReadMemory()
      && o.vm.trapCode == SI_READ && o.vm.trapR0 == 0 && o.vm.trapR1 == 16 && o.vm.trapR2 == 1
  {
    assert Fields(0xB000).opcode == OP_READ;
    assert VmStep(ClearTrap(ReaderVm())).Stopped?;
  }

  /** The reader after the turn in which it traps. */
  function Sleeper(slot: Byte): Process {
    Born(NewReader(slot), 2).(vm := Some(RunOperations(ReaderVm()).vm), swapped := SlotExists(slot),
                              state := SUSP_BLOCKED, waitingResId := RES_IO)
  }

  // The scene

  /** The handler, the reader as `u`, and nobody else but the scheduler's process; the requests recorded so far. */
  predicate Desk(k: Kernel, u: Process, h: seq<IoEvent>) {
    && Calm(k) && k.slots[96] == Some(Born(HANDLER, 1)) && k.slots[79] == Some(u) && k.history.io == h
    && forall w :: 0 <= w < MAX_PRIORITY && w != 79 && w != 96 && w != 97 ==> k.slots[w].None?
  }

  lemma SchedulerAtDesk(k: Kernel, u: Process, h: seq<IoEvent>)
    requires Desk(k, u, h)
    ensures
      var k' := Dispatch(k, 97, false);
      Desk(k', u, h) && k'.disk == k.disk && IoFree(k') == IoFree(k)
  {
    hide Dispatch, Resting;
    SchedulerTurn(k, false);
  }

  /** A handler step that completes nothing. */
  lemma HandlerAtDesk(k: Kernel, u: Process, h: seq<IoEvent>)
    requires Desk(k, u, h) && !IoPhaseOf(h).IoSecond?
    ensures
      var k' := Dispatch(k, 96, false);
      Desk(k', u, h + [HandlerStep]) && k'.disk == k.disk && IoFree(k') == IoFree(k)
  {
    hide Dispatch, TurnState, TakeTurn, Good, Due;
    var t := TurnState(k, 96);
    DispatchKeepsInvariant(k, 96, false);
    OwnerIsInRing(k, 2, 1, 1);
    CalmTurn(k, 96);
    TurnStateIs(k, 96);
    HandlerDispatchShape(k, 96, false);
    QuietEvents(k);
    SameDue(k, t);
    WaitingHandler(t, 96);
    TurnReleases(k, 96, false);
  }

  lemma QuietEvents(k: Kernel)
    requires !Due(k)
    ensures HandlerEvents(k) == [HandlerStep]
  {
  }

  lemma SameDue(k: Kernel, k': Kernel)
    requires k'.pending == k.pending && k'.ioHead == k.ioHead && k'.ioTail == k.ioTail
    ensures Due(k') == Due(k)
  {
  }

  /** The handler step that completes the reader's request. */
  lemma CompletionAtDesk(k: Kernel, slot: Byte, h: seq<IoEvent>)
    requires Desk(k, Sleeper(slot), h) && IoPhaseOf(h) == IoSecond(ASK)
    ensures
      var k' := Dispatch(k, 96, false);
      && ReadyAt(k', 79) && At(k', 79).vm.Some? && k'.history.io == h + [HandlerStep, Consumed(ASK)]
      && At(k', 79).vm.value.memory == ReadTransfer(ReadMemory(), k.disk, 0, 16, 1)
      && (forall w :: 0 <= w < 96 && w != 79 ==> k'.slots[w].None?)
      && MachineToRun(k', 79).memory ==
         if SlotExists(slot) && CanSwap(k.disk, slot) then SwapIn(ReadMemory(), k.disk, slot)
         else ReadTransfer(ReadMemory(), k.disk, 0, 16, 1)
  {
    hide Dispatch, TurnState, TakeTurn, Good, Due, RunOperations, SwapIn, ReadTransfer;
    ReaderTraps();
    OwnerIsInRing(k, 2, 1, 1);
    DueRequester(k, slot, h);
    CompletedReadIsSeen(k, 96, false, 79);
    HandlerServesOnly(k, 96, false, 79);
    HandlerDispatchShape(k, 96, false);
    DueEvents(k);
    NobodyNew(k, 96);
  }

  lemma DueEvents(k: Kernel)
    requires Due(k)
    ensures HandlerEvents(k) == [HandlerStep, Consumed(AskOf(k.pending[k.ioHead]))]
  {
  }

  lemma DueRequester(k: Kernel, slot: Byte, h: seq<IoEvent>)
    requires Desk(k, Sleeper(slot), h) && IoPhaseOf(h) == IoSecond(ASK)
    ensures Due(k) && Completes(k, 79) && AskOf(k.pending[k.ioHead]) == ASK
  {
    hide Good, RunOperations;
    OwnerIsInRing(k, 2, 1, 1);
    RequesterIs(k, 79) by { TableIsOk(k); }
  }

  lemma TableIsOk(k: Kernel)
    requires Resting(k)
    ensures TableOk(k.slots, k.prioMin, k.prioMax, k.lastPid, k.added)
  {
  }

  /** A handler's turn puts nobody into the table. */
  lemma NobodyNew(k: Kernel, i: nat)
    requires Calm(k) && ReadyAt(k, i) && IsHandler(At(k, i)) && i != SCHEDULER_SLOT
    ensures forall w :: 0 <= w < MAX_PRIORITY && k.slots[w].None? ==> Dispatch(k, i, false).slots[w].None?
  {
    hide Dispatch, TurnState, TakeTurn, IoHandler, Resting;
    var t := TurnState(k, i);
    CalmTurn(k, i);
    TurnReleases(k, i, false);
    IoHandlerUndisturbed(t);
    forall w | 0 <= w < MAX_PRIORITY && k.slots[w].None?
      ensures Dispatch(k, i, false).slots[w].None?
    {
      HandlerTurnIs(t, i, false, w);
    }
  }

  /** The reader's first turn. */
  lemma ReaderAtDesk(k: Kernel, slot: Byte, h: seq<IoEvent>)
    requires Desk(k, Born(NewReader(slot), 2), h) && IoFree(k) == 1
    ensures
      var k' := Dispatch(k, 79, false);
      Desk(k', Sleeper(slot), h + [Accepted(ASK)]) && k'.disk == SwapOut(k.disk, ReadMemory(), slot)
  {
    hide Dispatch, TurnState, Good, RunOperations, AcceptsIo, SwapOut;
    ReaderTraps();
    DispatchKeepsInvariant(k, 79, false);
    AcceptsIffFree(k);
    CalmTurn(k, 79);
    assert TrapsOut(k, 79);
    TrapDispatchSwaps(k, 79, false);
  }

  // The cycles

  /** The system half of a cycle in which nobody but the scheduler's process and the handler is ready. */
  lemma SystemHalf(k: Kernel)
    requires k.slots[99].None? && k.slots[98].None? && forall w :: 80 <= w < 96 ==> !ReadyAt(Begun(k), w)
    ensures RunRange(k, 99, 80, {}) == Begun(k)
  {
    hide Dispatch;
    RangesJoin(k, 99, 98, 80, {});
    SkipRange(k, 99, 98, {});
    assert RunRange(k, 97, 80, {}) == RunRange(Dispatch(k, 97, false), 96, 80, {});
    assert RunRange(Dispatch(k, 97, false), 96, 80, {}) == RunRange(Begun(k), 95, 80, {});
    SkipRange(Begun(k), 95, 80, {});
  }

  lemma WholeCycle(k: Kernel, k2: Kernel)
    requires RunRange(k, 99, 80, {}) == k2 && forall w :: 0 <= w < 79 ==> !ReadyAt(Dispatch(k2, 79, false), w)
    ensures RunCycle(k, {}) == Dispatch(k2, 79, false)
  {
    hide Dispatch;
    OneSlot(k2, 79);
    SkipRange(Dispatch(k2, 79, false), 78, 0, {});
  }

  lemma NobodyReady(k: Kernel, u: Process, h: seq<IoEvent>)
    requires Desk(k, u, h)
    ensures forall w :: 0 <= w < 96 && w != 79 ==> !ReadyAt(k, w)
  {
  }

  /** The scheduler's and the handler's turn. */
  lemma BeginningAtDesk(k: Kernel, u: Process, h: seq<IoEvent>)
    requires Desk(k, u, h) && !IoPhaseOf(h).IoSecond?
    ensures
      var k' := RunRange(k, 99, 80, {});
      Desk(k', u, h + [HandlerStep]) && k'.disk == k.disk && IoFree(k') == IoFree(k)
  {
    hide Dispatch, Resting;
    SchedulerAtDesk(k, u, h);
    HandlerAtDesk(Dispatch(k, 97, false), u, h);
    NobodyReady(Begun(k), u, h + [HandlerStep]);
    SystemHalf(k);
  }

  /** In the first cycle the machine traps, and is swapped out if its slot exists. */
  lemma FirstReadCycle(k: Kernel, slot: Byte)
    requires Desk(k, Born(NewReader(slot), 2), []) && IoFree(k) == 1
    ensures
      var k' := RunCycle(k, {});
      Desk(k', Sleeper(slot), [HandlerStep, Accepted(ASK)]) && k'.disk == SwapOut(k.disk, ReadMemory(), slot)
  {
    hide RunRange, RunCycle, Dispatch, Resting, RunOperations, SwapOut;
    var k2 := RunRange(k, 99, 80, {});
    BeginningAtDesk(k, Born(NewReader(slot), 2), []);
    assert [] + [HandlerStep] == [HandlerStep];
    ReaderAtDesk(k2, slot, [HandlerStep]);
    assert [HandlerStep] + [Accepted(ASK)] == [HandlerStep, Accepted(ASK)];
    NobodyReady(Dispatch(k2, 79, false), Sleeper(slot), [HandlerStep, Accepted(ASK)]);
    WholeCycle(k, k2);
  }

  lemma AskedPhase()
    ensures IoPhaseOf([HandlerStep, Accepted(ASK)]) == IoFirst(ASK)
    ensures IoPhaseOf([HandlerStep, Accepted(ASK), HandlerStep]) == IoSecond(ASK)
  {
    var h := [HandlerStep];
    assert IoPhaseOf(h) == IoIdle by { assert h[..0] == []; }
    IoPhaseStep(h, Accepted(ASK));
    assert h + [Accepted(ASK)] == [HandlerStep, Accepted(ASK)];
    IoPhaseStep(h + [Accepted(ASK)], HandlerStep);
    assert h + [Accepted(ASK)] + [HandlerStep] == [HandlerStep, Accepted(ASK), HandlerStep];
  }

  /** In the second cycle the request is passed over, and the machine sleeps. */
  lemma SecondReadCycle(k: Kernel, slot: Byte)
    requires Desk(k, Sleeper(slot), [HandlerStep, Accepted(ASK)])
    ensures
      var k' := RunCycle(k, {});
      Desk(k', Sleeper(slot), [HandlerStep, Accepted(ASK), HandlerStep]) && k'.disk == k.disk
  {
    hide RunRange, RunCycle, Resting, RunOperations, IoPhaseOf;
    var h := [HandlerStep, Accepted(ASK)];
    var k2 := RunRange(k, 99, 80, {});
    AskedPhase();
    BeginningAtDesk(k, Sleeper(slot), h);
    assert h + [HandlerStep] == [HandlerStep, Accepted(ASK), HandlerStep];
    NobodyReady(k2, Sleeper(slot), h + [HandlerStep]);
    assert Dispatch(k2, 79, false) == k2;
    WholeCycle(k, k2);
  }

  /** In the system half of the third cycle the request is completed. */
  lemma ThirdReadCycle(k: Kernel, slot: Byte)
    requires Desk(k, Sleeper(slot), [HandlerStep, Accepted(ASK), HandlerStep])
    ensures
      var k' := RunRange(k, 99, 80, {});
      && ReadyAt(k', 79) && At(k', 79).vm.Some?
      && k'.history.io == [HandlerStep, Accepted(ASK), HandlerStep, HandlerStep, Consumed(ASK)]
      && At(k', 79).vm.value.memory == ReadTransfer(ReadMemory(), k.disk, 0, 16, 1)
      && MachineToRun(k', 79).memory ==
         if SlotExists(slot) && CanSwap(k.disk, slot) then SwapIn(ReadMemory(), k.disk, slot)
         else ReadTransfer(ReadMemory(), k.disk, 0, 16, 1)
  {
    hide Dispatch, Resting, RunOperations, IoPhaseOf, SwapIn, ReadTransfer;
    var h := [HandlerStep, Accepted(ASK), HandlerStep];
    AskedPhase();
    SchedulerAtDesk(k, Sleeper(slot), h);
    CompletionAtDesk(Dispatch(k, 97, false), slot, h);
    assert h + [HandlerStep, Consumed(ASK)]
        == [HandlerStep, Accepted(ASK), HandlerStep, HandlerStep, Consumed(ASK)];
    SystemHalf(k);
  }

  /** The data that arrives: two bytes of sector 0. */
  function WithData(): VmMemory {
    ReadMemory()[16 := 1]
  }

  lemma DataArrives(d: DiskState)
    requires d.storage[0] == READ_IMAGE && !d.busy
    ensures ReadTransfer(ReadMemory(), d, 0, 16, 1) == WithData()
  {
  }

  /** Swapping out to a slot with an 8-bit number leaves sector 0 alone. */
  lemma SectorZeroSpared(d: DiskState, mem: VmMemory, slot: Byte)
    requires !d.busy
    ensures
      var d1 := SwapOut(d, mem, slot);
      d1.storage[0] == d.storage[0] && !d1.busy
  {
    hide Chunk;
    assert SlotStart(slot) == SWAP_START_SECTOR + slot * SLOT_SECTORS;
  }

  /** The example's disk after the swap-out. */
  lemma AfterSwapOut(slot: Byte)
    ensures
      var d := DiskState(ExampleStorage(), false);
      var d1 := SwapOut(d, ReadMemory(), slot);
      && d1.storage[0] == READ_IMAGE && !d1.busy
      && (SlotExists(slot) ==> CanSwap(d1, slot) && SwapIn(ReadMemory(), d1, slot) == ReadMemory())
  {
    hide SwapOut, SwapIn, ReadMemory, ExampleStorage, SlotStart;
    var d := DiskState(ExampleStorage(), false);
    ExampleImage();
    SectorZeroSpared(d, ReadMemory(), slot);
    if SlotExists(slot) {
      SwapInKept(d, SwapOut(d, ReadMemory(), slot), ReadMemory(), ReadMemory(), slot);
    }
  }

  // The run

  /** The handler, the reader, and two cycles. */
  function Reading(slot: Byte): seq<Action> {
    [Add(HANDLER)] + [Add(NewReader(slot))] + [Cycle({})] + [Cycle({})]
  }

  lemma RunReading(k: Kernel, slot: Byte)
    ensures Run(k, Reading(slot)) == RunCycle(RunCycle(AddProc(AddProc(k, HANDLER), NewReader(slot)), {}), {})
  {
    hide RunCycle, AddProc;
    assert Run(k, [Add(HANDLER)]) == AddProc(k, HANDLER);
    OneMore(k, [Add(HANDLER)], Add(NewReader(slot)));
    OneMore(k, [Add(HANDLER)] + [Add(NewReader(slot))], Cycle({}));
    OneMore(k, [Add(HANDLER)] + [Add(NewReader(slot))] + [Cycle({})], Cycle({}));
  }

  lemma StartReading(k: Kernel, slot: Byte)
    requires Calm(k) && forall w :: 0 <= w < MAX_PRIORITY && w != 97 ==> k.slots[w].None?
    requires k.added == 0 && k.history.io == []
    ensures
      var k' := AddProc(AddProc(k, HANDLER), NewReader(slot));
      Desk(k', Born(NewReader(slot), 2), []) && k'.disk == k.disk && IoFree(k') == IoFree(k)
  {
    hide AddProc, Resting;
    AddSystem(k, HANDLER, 96);
    AddUser(AddProc(k, HANDLER), NewReader(slot), 79);
  }

  /** The request was accepted and consumed, the data is in the table, and the reader is about to run. */
  predicate LostOrSeen(k: Kernel, slot: Byte) {
    && ReadyAt(k, 79) && At(k, 79).vm.Some?
    && k.history.io == [HandlerStep, Accepted(ASK), HandlerStep, HandlerStep, Consumed(ASK)]
    && At(k, 79).vm.value.memory == WithData()
    && MachineToRun(k, 79).memory == if SlotExists(slot) then ReadMemory() else WithData()
  }

  /** The three cycles. */
  lemma ReadFromDesk(k: Kernel, slot: Byte)
    requires Desk(k, Born(NewReader(slot), 2), []) && IoFree(k) == 1 && k.disk == DiskState(ExampleStorage(), false)
    ensures LostOrSeen(RunRange(RunCycle(RunCycle(k, {}), {}), 99, 80, {}), slot)
  {
    hide RunCycle, RunRange, Resting, SwapOut, SwapIn, ReadTransfer, RunOperations, Desk, ReadMemory, WithData;
    FirstReadCycle(k, slot);
    SecondReadCycle(RunCycle(k, {}), slot);
    ThirdReadCycle(RunCycle(RunCycle(k, {}), {}), slot);
    AfterSwapOut(slot);
    DataArrives(SwapOut(k.disk, ReadMemory(), slot));
  }

  lemma StartsAtDesk(slot: Byte)
    ensures
      var k := AddProc(AddProc(Boot(ExampleStorage(), FILES), HANDLER), NewReader(slot));
      Desk(k, Born(NewReader(slot), 2), []) && IoFree(k) == 1 && k.disk == DiskState(ExampleStorage(), false)
  {
    var k0 := Boot(ExampleStorage(), FILES);
    assert k0.history.io == [] && k0.disk == DiskState(ExampleStorage(), false) && IoFree(k0) == 1;
    hide Boot, AddProc, Resting, Desk, ReadMemory, ExampleStorage;
    BootIsCalm();
    StartReading(k0, slot);
  }

  /**
    A completed READ that is lost, and one that is not. In the third cycle of this
    run the request has been accepted and consumed, the data is in the memory in
    the table, and the reader's turn comes. It runs with the memory it trapped
    with if its swap slot exists, and with the data, which differs, if not.
    */
  lemma ReadInRuns(slot: Byte)
    ensures LostOrSeen(RunRange(Run(Boot(ExampleStorage(), FILES), Reading(slot)), 99, 80, {}), slot)
    ensures WithData() != ReadMemory()
  {
    assert WithData()[16] != ReadMemory()[16];
    hide Boot, Run, RunCycle, RunRange, AddProc, LostOrSeen, Desk, ReadMemory, WithData, ExampleStorage;
    RunReading(Boot(ExampleStorage(), FILES), slot);
    StartsAtDesk(slot);
    ReadFromDesk(AddProc(AddProc(Boot(ExampleStorage(), FILES), HANDLER), NewReader(slot)), slot);
  }
}
