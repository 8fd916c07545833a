/**
  Runs that reach the states in which the kernel's promises end: the I/O unit is
  handed to a process that will not use it, the timer leaves a process running
  that is not current, and an 8-bit pid is 0 or names two processes.
  */
module ExampleRuns {
  import opened Words
  import opened Isa
  import opened Disk
  import opened VirtualMachine
  import opened Loader
  import opened ImageLoader
  import opened KernelModel
  import opened KernelInvariant
  import opened KernelSafety
  import opened Frames
  import opened GovernorProtocol
  import opened DispatchOrder
  import opened ContextIsolation
  import opened MachineIsolation
  import opened ContextsOfRuns
  import opened PendingRequests
  import opened IoStarvation
  import opened LoadProgress
  import opened StrayProcesses
  import opened TurnLaws

  // Passes over a nearly empty table

  lemma {:induction false} SkipRange(k: Kernel, hi: int, lo: int, fired: set<nat>)
    requires hi < MAX_PRIORITY && 0 <= lo && forall i :: lo <= i <= hi ==> !ReadyAt(k, i)
    ensures RunRange(k, hi, lo, fired) == k
    decreases hi - lo
  {
    if hi < lo {
    } else {
      SkipRange(k, hi - 1, lo, fired);
    }
  }

  /** The scheduler's own process: it has nothing to do. */
  predicate Bare(o: Slot) {
    o.Some? && o.value.procType == START_STOP && !o.value.hasEntry && o.value.vm.None? && o.value.state == READY
  }

  /** Nobody but the scheduler's own process is current. */
  predicate Calm(k: Kernel) {
    Resting(k) && Bare(k.slots[SCHEDULER_SLOT]) && k.current in {None, Some(SCHEDULER_SLOT)}
  }

  /** A cycle begins with the scheduler's own turn. */
  lemma CycleBegins(k: Kernel, fired: set<nat>)
    requires k.slots[99].None? && k.slots[98].None?
    ensures RunCycle(k, fired) == RunRange(Dispatch(k, 97, 97 in fired), 96, 0, fired)
  {
    RangesJoin(k, 99, FIRST_SYSTEM_SLOT, 0, fired);
    RangesJoin(k, 99, 98, 0, fired);
    SkipRange(k, 99, 98, fired);
  }

  lemma SchedulerTurn(k: Kernel, fired: bool)
    requires Calm(k)
    ensures
      var k' := Dispatch(k, SCHEDULER_SLOT, fired);
      && Calm(k') && SameRest(k, k') && k'.added == k.added
      && forall w :: 0 <= w < MAX_PRIORITY && w != SCHEDULER_SLOT ==> k'.slots[w] == k.slots[w]
  {
    hide RunEntry, RunVm;
    DispatchKeepsInvariant(k, SCHEDULER_SLOT, fired);
    TurnStateIs(k, SCHEDULER_SLOT);
    TurnReleases(k, SCHEDULER_SLOT, fired);
    TurnQueue(k, SCHEDULER_SLOT, fired);
    assert TakeTurn(TurnState(k, SCHEDULER_SLOT), SCHEDULER_SLOT, fired) == TurnState(k, SCHEDULER_SLOT);
  }

  /** A turn after the scheduler's own starts with everybody else as before. */
  lemma CalmTurn(k: Kernel, i: nat)
    requires Calm(k) && ReadyAt(k, i) && i != SCHEDULER_SLOT
    ensures
      var t := TurnState(k, i);
      && Bare(t.slots[SCHEDULER_SLOT]) && t.slots[i] == Some(At(k, i).(waitingResId := 0))
      && forall w :: 0 <= w < MAX_PRIORITY && w != i && w != SCHEDULER_SLOT ==> t.slots[w] == k.slots[w]
  {
    TurnStateIs(k, i);
  }

  // Two governors and one unit

  /** One instruction: READ with zero registers. */
  const READ_IMAGE: Sector := [1, 0, 0, 0, 0, 0, 0, 0xB0, 0, 0, 0, 0, 0, 0, 0, 0]

  function ExampleStorage(): Storage {
    seq<Sector>(SECTOR_COUNT, i => if i == 0 then READ_IMAGE else ZERO_SECTOR)
  }

  const FILES: seq<FileEntry> := [FileEntry(1, 0, 1)]

  function FreshVm(): Vm {
    Vm(seq<Byte>(VM_MEMORY_SIZE, i => 0), ZERO_REGISTERS, 0, 0, 0, 0, 0, 0, 0)
  }

  const HANDLER := NewProcess(true, IO_HANDLER, true, None, 0, 0, 4)

  function NewGovernor(): NewProcess {
    NewProcess(true, JOB_GOVERNOR, true, Some(FreshVm()), 1, 0, 5)
  }

  /** A new process as it appears in the table. */
  function Born(n: NewProcess, serial: nat): Process {
    Process(serial, Wrap8(97 + serial), n.sysProc, n.procType, n.hasEntry, READY, ZERO_CPU,
            n.vm, n.fileId, n.parentPid, NOT_REQUESTED, 0, false, n.swapSlot)
  }

  function LoadedVm(): Vm {
    LoadFile(FreshVm(), DiskState(ExampleStorage(), false), FILES, 1)
  }

  lemma ImageHeader()
    ensures ReadHeader(READ_IMAGE) == Header(1, 0, 0) && Le16(READ_IMAGE, 6) == 0xB000
  {
  }

  lemma FileIsRegistered()
    ensures FindFile(FILES, 1) == Some(FileEntry(1, 0, 1))
  {
    assert FindFile(FILES[..0], 1).None?;
  }

  lemma ImageOnDisk(d: DiskState)
    requires d.storage[0] == READ_IMAGE && !d.busy
    ensures LoadSucceeds(d, FILES, 1) && OnDisk(0, 0) && ImageWord(d.storage, 0, 0) == 0xB000
  {
    FileIsRegistered();
    ImageHeader();
  }

  lemma ImageInMemory(vm: Vm, d: DiskState)
    requires d.storage[0] == READ_IMAGE && !d.busy && LoadSucceeds(d, FILES, 1)
    ensures
      var vm1 := LoadFile(vm, d, FILES, 1);
      vm1.pc == 0 && vm1.r == ZERO_REGISTERS && Be16(vm1.memory, 0) == 0xB000
  {
    FileIsRegistered();
    ImageHeader();
    ImageOnDisk(d);
    VmLoaded(vm, d, FILES, 1);
  }

  lemma ReadTraps(vm: Vm)
    requires vm.pc == 0 && vm.r == ZERO_REGISTERS && Be16(vm.memory, 0) == 0xB000
    ensures RunOperations(vm).rc == RC_TRAPPED
  {
    assert Fields(0xB000).opcode == OP_READ;
    assert VmStep(ClearTrap(vm)).Stopped?;
  }

  lemma ImageTraps()
    ensures RunOperations(LoadedVm()).rc == RC_TRAPPED
  {
    var d := DiskState(ExampleStorage(), false);
    ImageOnDisk(d);
    ImageInMemory(FreshVm(), d);
    ReadTraps(LoadedVm());
  }

  /** The table of the example: the handler, two governors, and their loaders while there are any. */
  predicate Table(s: Slots, a: Slot, b: Slot, la: Slot, lb: Slot) {
    && s[96] == Some(Born(HANDLER, 1)) && s[95] == a && s[94] == b && s[93] == la && s[92] == lb
    && forall w :: 0 <= w < MAX_PRIORITY && !(92 <= w <= 97) ==> s[w].None?
  }

  predicate Scene(k: Kernel, a: Slot, b: Slot, la: Slot, lb: Slot, ph: IoPhase, q: seq<Byte>) {
    && Calm(k) && Table(k.slots, a, b, la, lb) && k.disk == DiskState(ExampleStorage(), false) && k.files == FILES
    && k.added <= MAX_ADDS && !k.history.shutDown && IoPhaseOf(k.history.io) == ph && IoQueue(k) == q
  }

  lemma SchedulerStep(k: Kernel, a: Slot, b: Slot, la: Slot, lb: Slot, ph: IoPhase, q: seq<Byte>)
    requires Scene(k, a, b, la, lb, ph, q)
    ensures Scene(Dispatch(k, 97, false), a, b, la, lb, ph, q)
    ensures IoFree(Dispatch(k, 97, false)) == IoFree(k) && Dispatch(k, 97, false).added == k.added
  {
    SchedulerTurn(k, false);
  }

  /** A handler step that completes nothing. */
  lemma HandlerStepOn(k: Kernel, a: Slot, b: Slot, ph: IoPhase, q: seq<Byte>)
    requires Scene(k, a, b, None, None, ph, q) && (ph == IoIdle || ph.IoFirst?)
    ensures Scene(Dispatch(k, 96, false), a, b, None, None, if ph == IoIdle then IoIdle else IoSecond(ph.ask), q)
    ensures IoFree(Dispatch(k, 96, false)) == IoFree(k) && Dispatch(k, 96, false).added == k.added
  {
    hide Dispatch, TurnState, TakeTurn, Good, IoPhaseOf, IoQueue, IoFree;
    var t := TurnState(k, 96);
    DispatchKeepsInvariant(k, 96, false);
    OwnerIsInRing(k, 2, 1, 1);
    CalmTurn(k, 96);
    TurnStateIs(k, 96);
    HandlerDispatchShape(k, 96, false);
    HandlerMovesPhase(k);
    WaitingHandler(t, 96);
    TurnReleases(k, 96, false);
  }

  lemma WaitingHandler(t: Kernel, i: nat)
    requires Occupied(t, i) && IsHandler(At(t, i)) && !Due(t) && At(t, i).state == READY
    ensures
      var t' := TakeTurn(t, i, false);
      t'.slots == t.slots && t'.current == None && t'.disk == t.disk && t'.files == t.files && t'.added == t.added
  {
    assert IoHandler(t).slots == t.slots;
    assert t.slots[i := t.slots[i]] == t.slots;
  }

  /** A governor that has asked for its image. */
  function Waits(p: Process): Process {
    p.(loaded := LOADING, state := BLOCKED, waitingResId := 0)
  }

  predicate Asks(p: Process) {
    p.state == READY && IsGovernor(p) && p.vm.Some? && p.loaded == NOT_REQUESTED
  }

  lemma RequestStep(k: Kernel, g: nat, fired: bool)
    requires Calm(k) && ReadyAt(k, g) && g != SCHEDULER_SLOT && Asks(At(k, g))
    requires PlaceFor(k, true).Some? && PlaceFor(k, true).value != SCHEDULER_SLOT
    ensures
      var l := PlaceFor(k, true).value;
      var k' := Dispatch(k, g, fired);
      && Calm(k') && SameRest(k, k') && k'.added == k.added + 1 && l != g
      && k'.slots[l] == Some(LoaderProcess(k, At(k, g))) && k'.slots[g] == Some(Waits(At(k, g)))
      && forall w :: 0 <= w < MAX_PRIORITY && w != g && w != l && w != SCHEDULER_SLOT ==> k'.slots[w] == k.slots[w]
  {
    DispatchKeepsInvariant(k, g, fired);
    CalmTurn(k, g);
    RequestDispatch(k, g, fired);
    TurnStateIs(k, g);
    RequestTurn(TurnState(k, g), g, fired);
    SameRestThroughDispatch(k, g, fired);
  }

  lemma RequestInScene(k: Kernel, g: nat, a: Slot, b: Slot, la: Slot, ph: IoPhase, q: seq<Byte>)
    requires Scene(k, a, b, la, None, ph, q) && g in {95, 94} && ReadyAt(k, g) && Asks(At(k, g)) && k.added < MAX_ADDS
    requires a.Some? && b.Some? && (g == 95 <==> la.None?)
    ensures
      var l := Some(LoaderProcess(k, At(k, g)));
      var w := Some(Waits(At(k, g)));
      var k' := Dispatch(k, g, false);
      && (if g == 95 then Scene(k', w, b, l, None, ph, q) else Scene(k', a, w, la, l, ph, q))
      && IoFree(k') == IoFree(k) && k'.added == k.added + 1
  {
    hide Dispatch, Asks, LoaderProcess;
    assert PlaceFor(k, true) == Some(if g == 95 then 93 else 92);
    RequestStep(k, g, false);
  }

  // The loaders

  lemma LoaderRest(k: Kernel, i: nat, fired: bool)
    requires Good(k, 2, 0, 1) && Occupied(k, i) && IsLoader(At(k, i))
    ensures SameRest(k, TakeTurn(k, i, fired)) && TakeTurn(k, i, fired).added == k.added
  {
    hide TakeTurn, LowestSlot;
    LoaderTurnIs(k, i, fired);
    var parent := LowestSlot(k.slots, HasPid(At(k, i).parentPid));
    if parent.Some? && At(k, parent.value).vm.Some? {
      LoadRest(k, i, parent.value);
    }
  }

  lemma MemRest(k: Kernel, i: nat)
    requires Good(k, 2, 0, 1) && Occupied(k, i)
    ensures SameRest(k, AfterRequest(k, RES_MEM, i)) && AfterRequest(k, RES_MEM, i).added == k.added
  {
    RequestMem(k, i);
    FindCore(k.res, 2, 0, 1);
  }

  lemma MemBackRest(k: Kernel)
    requires Good(k, 1, 0, 1)
    ensures SameRest(k, ReleaseRes(k, RES_MEM)) && ReleaseRes(k, RES_MEM).added == k.added
  {
    FindCore(k.res, 1, 0, 1);
  }

  lemma LoadRest(k: Kernel, i: nat, j: nat)
    requires Good(k, 2, 0, 1) && Occupied(k, i) && Occupied(k, j) && At(k, j).vm.Some?
    ensures SameRest(k, LoadFor(k, i, j).k) && LoadFor(k, i, j).k.added == k.added
  {
    RequestMemFrame(k, i, j);
    MemRest(k, i);
    var k1 := AfterRequest(k, RES_MEM, i);
    LoadIntoGood(k1, j, At(k, i).fileId);
    MemBackRest(LoadInto(k1, j, At(k, i).fileId));
    LoadIntoRest(k1, j, At(k, i).fileId);
  }

  lemma LoadIntoRest(k: Kernel, j: nat, fileId: Word)
    requires Occupied(k, j) && At(k, j).vm.Some?
    ensures SameRest(k, LoadInto(k, j, fileId)) && LoadInto(k, j, fileId).added == k.added
  {
  }

  lemma LoaderStep(k: Kernel, i: nat, g: nat)
    requires Calm(k) && k.added <= MAX_ADDS && ReadyAt(k, i) && Occupied(k, g) && i != g
    requires i != SCHEDULER_SLOT && g != SCHEDULER_SLOT
    requires IsLoader(At(k, i)) && At(k, i).parentPid == At(k, g).pid && At(k, g).vm.Some?
    ensures
      var k' := Dispatch(k, i, false);
      && Calm(k') && SameRest(k, k') && k'.added == k.added && k'.slots[i] == None
      && k'.slots[g] == Some(Filled(At(k, g), k.disk, k.files, At(k, i).fileId))
      && forall w :: 0 <= w < MAX_PRIORITY && w != i && w != g && w != SCHEDULER_SLOT ==> k'.slots[w] == k.slots[w]
  {
    hide Dispatch, TurnState, TakeTurn, Good, SameRest, Filled;
    DispatchKeepsInvariant(k, i, false);
    CalmTurn(k, i);
    TurnStateIs(k, i);
    FilledStays(TurnState(k, i), i, false, g);
    LoaderRest(TurnState(k, i), i, false);
    SameRestThroughDispatch(k, i, false);
    TurnReleases(k, i, false);
  }

  /** The loader of the process `g`. */
  predicate LoadsFor(l: Process, g: Process) {
    IsLoader(l) && l.state == READY && l.parentPid == g.pid && l.fileId == 1 && g.vm == Some(FreshVm())
  }

  function WithImage(p: Process): Process
    requires p.vm == Some(FreshVm())
  {
    p.(vm := Some(LoadedVm()), state := READY, loaded := LOADED)
  }

  lemma ExampleImage()
    ensures ExampleStorage()[0] == READ_IMAGE
  {
  }

  lemma LoaderInScene(k: Kernel, i: nat, a: Slot, b: Slot, la: Slot, lb: Slot, ph: IoPhase, q: seq<Byte>)
    requires Scene(k, a, b, la, lb, ph, q) && i in {93, 92} && ReadyAt(k, i) && a.Some? && b.Some?
    requires LoadsFor(At(k, i), if i == 93 then a.value else b.value)
    ensures
      var k' := Dispatch(k, i, false);
      && (if i == 93 then Scene(k', Some(WithImage(a.value)), b, None, lb, ph, q)
          else Scene(k', a, Some(WithImage(b.value)), la, None, ph, q))
      && IoFree(k') == IoFree(k) && k'.added == k.added
  {
    hide Dispatch, Good, LoadFile, LoadSucceeds, FreshVm, ExampleStorage;
    var d := DiskState(ExampleStorage(), false);
    ExampleImage();
    ImageOnDisk(d);
    LoaderStep(k, i, if i == 93 then 95 else 94);
  }

  // The traps

  predicate TrapsNext(p: Process) {
    p.state == READY && IsGovernor(p) && p.vm == Some(LoadedVm()) && p.loaded == LOADED
  }

  lemma TrapStep(k: Kernel, i: nat)
    requires Calm(k) && ReadyAt(k, i) && i != SCHEDULER_SLOT && TrapsNext(At(k, i))
    ensures
      var k' := Dispatch(k, i, false);
      var p := At(k, i).(waitingResId := 0);
      && Calm(k') && k'.slots[i] == Some(Trapped(p)) && k'.disk == k.disk && k'.files == k.files && k'.added == k.added
      && k'.history.shutDown == k.history.shutDown
      && (forall w :: 0 <= w < MAX_PRIORITY && w != i && w != SCHEDULER_SLOT ==> k'.slots[w] == k.slots[w])
      && (if IoFree(k) > 0
          then k'.history.io == k.history.io + [Accepted(TrapOf(Trapped(p)).value)] && IoQueue(k') == []
          else k'.history.io == k.history.io && IoQueue(k') == Joined(IoQueue(k), p.pid))
  {
    ImageTraps();
    DispatchKeepsInvariant(k, i, false);
    CalmTurn(k, i);
    TurnStateIs(k, i);
    var t := TurnState(k, i);
    FindCore(t.res, 2, 0, 1);
    TrapTurn(t, i, false);
    TurnQueue(k, i, false);
    TurnReleases(k, i, false);
  }

  lemma TrapInScene(k: Kernel, i: nat, a: Slot, b: Slot, ph: IoPhase, q: seq<Byte>)
    requires Scene(k, a, b, None, None, ph, q) && i in {95, 94} && ReadyAt(k, i) && TrapsNext(At(k, i))
    requires At(k, i).waitingResId == 0 && |q| < 31 && IoFree(k) >= 0 && (IoFree(k) > 0 ==> ph == IoIdle)
    ensures
      var t := Trapped(At(k, i));
      var k' := Dispatch(k, i, false);
      var ph' := if IoFree(k) > 0 then IoFirst(TrapOf(t).value) else ph;
      var q' := if IoFree(k) > 0 then [] else q + [t.pid];
      && (if i == 95 then Scene(k', Some(t), b, None, None, ph', q') else Scene(k', a, Some(t), None, None, ph', q'))
      && k'.added == k.added
  {
    TrapStep(k, i);
    IoPhaseStep(k.history.io, Accepted(TrapOf(Trapped(At(k, i))).value));
  }

  // The cycles

  lemma OneSlot(k: Kernel, hi: nat)
    requires hi < MAX_PRIORITY
    ensures RunRange(k, hi, 0, {}) == RunRange(Dispatch(k, hi, false), hi - 1, 0, {})
  {
  }

  /** The turns of the scheduler and of the handler. */
  function Begun(k: Kernel): Kernel {
    Dispatch(Dispatch(k, 97, false), 96, false)
  }

  lemma Beginning(k: Kernel, a: Slot, b: Slot, ph: IoPhase, q: seq<Byte>)
    requires Scene(k, a, b, None, None, ph, q) && (ph == IoIdle || ph.IoFirst?)
    ensures Scene(Begun(k), a, b, None, None, if ph == IoIdle then IoIdle else IoSecond(ph.ask), q)
    ensures IoFree(Begun(k)) == IoFree(k) && Begun(k).added == k.added
  {
    SchedulerStep(k, a, b, None, None, ph, q);
    HandlerStepOn(Dispatch(k, 97, false), a, b, ph, q);
  }

  /** What the governors and the loaders do in the rest of the cycle. */
  function FourTurns(k: Kernel): Kernel {
    Dispatch(Dispatch(Dispatch(Dispatch(k, 95, false), 94, false), 93, false), 92, false)
  }

  lemma CycleInTurns(k: Kernel)
    requires k.slots[99].None? && k.slots[98].None? && forall w :: 0 <= w < 92 ==> FourTurns(Begun(k)).slots[w].None?
    ensures RunCycle(k, {}) == FourTurns(Begun(k))
  {
    var k2 := Begun(k);
    var k3 := Dispatch(k2, 95, false);
    var k4 := Dispatch(k3, 94, false);
    var k5 := Dispatch(k4, 93, false);
    CycleBegins(k, {});
    OneSlot(Dispatch(k, 97, false), 96);
    OneSlot(k2, 95);
    OneSlot(k3, 94);
    OneSlot(k4, 93);
    OneSlot(k5, 92);
    SkipRange(FourTurns(k2), 91, 0, {});
  }

  /** A governor of the example that has not asked yet. */
  predicate Newborn(p: Process) {
    Asks(p) && p.fileId == 1 && p.vm == Some(FreshVm()) && p.pid != 0
  }

  lemma LoaderIsReady(k: Kernel, p: Process)
    requires Newborn(p)
    ensures LoadsFor(LoaderProcess(k, p), Waits(p)) && LoaderProcess(k, p).state == READY
  {
  }

  lemma BothAsk(k: Kernel, a: Process, b: Process) returns (la: Process, lb: Process)
    requires Scene(k, Some(a), Some(b), None, None, IoIdle, []) && Newborn(a) && Newborn(b) && k.added + 2 <= MAX_ADDS
    ensures
      var k' := Dispatch(Dispatch(k, 95, false), 94, false);
      && Scene(k', Some(Waits(a)), Some(Waits(b)), Some(la), Some(lb), IoIdle, [])
      && LoadsFor(la, Waits(a)) && LoadsFor(lb, Waits(b))
      && IoFree(k') == IoFree(k) && k'.added == k.added + 2
  {
    hide Dispatch;
    LoaderIsReady(k, a);
    la := LoaderProcess(k, a);
    RequestInScene(k, 95, Some(a), Some(b), None, IoIdle, []);
    var k1 := Dispatch(k, 95, false);
    LoaderIsReady(k1, b);
    lb := LoaderProcess(k1, b);
    RequestInScene(k1, 94, Some(Waits(a)), Some(b), Some(la), IoIdle, []);
  }

  lemma BothLoad(k: Kernel, a: Process, b: Process, la: Process, lb: Process)
    requires Scene(k, Some(a), Some(b), Some(la), Some(lb), IoIdle, []) && LoadsFor(la, a) && LoadsFor(lb, b)
    ensures
      var k' := Dispatch(Dispatch(k, 93, false), 92, false);
      && Scene(k', Some(WithImage(a)), Some(WithImage(b)), None, None, IoIdle, [])
      && IoFree(k') == IoFree(k) && k'.added == k.added
  {
    hide Dispatch, WithImage;
    LoaderInScene(k, 93, Some(a), Some(b), Some(la), Some(lb), IoIdle, []);
    LoaderInScene(Dispatch(k, 93, false), 92, Some(WithImage(a)), Some(b), None, Some(lb), IoIdle, []);
  }

  /** In the first cycle both governors ask for their images, and both images arrive. */
  lemma FirstCycle(k: Kernel, a: Process, b: Process)
    requires Scene(k, Some(a), Some(b), None, None, IoIdle, []) && Newborn(a) && Newborn(b) && k.added + 2 <= MAX_ADDS
    ensures
      var k' := RunCycle(k, {});
      && Scene(k', Some(WithImage(Waits(a))), Some(WithImage(Waits(b))), None, None, IoIdle, [])
      && IoFree(k') == IoFree(k) && k'.added == k.added + 2
  {
    Beginning(k, Some(a), Some(b), IoIdle, []);
    var la, lb := BothAsk(Begun(k), a, b);
    BothLoad(Dispatch(Dispatch(Begun(k), 95, false), 94, false), Waits(a), Waits(b), la, lb);
    CycleInTurns(k);
  }

  lemma NotThere(k: Kernel, a: Slot, b: Slot, ph: IoPhase, q: seq<Byte>)
    requires Scene(k, a, b, None, None, ph, q)
    ensures Dispatch(Dispatch(k, 93, false), 92, false) == k
  {
  }

  lemma BothTrap(k: Kernel, a: Process, b: Process)
    requires Scene(k, Some(a), Some(b), None, None, IoIdle, []) && IoFree(k) == 1
    requires TrapsNext(a) && a.waitingResId == 0 && TrapsNext(b) && b.waitingResId == 0
    ensures
      Scene(Dispatch(Dispatch(k, 95, false), 94, false), Some(Trapped(a)), Some(Trapped(b)), None, None,
            IoFirst(TrapOf(Trapped(a)).value), [b.pid])
  {
    hide Dispatch;
    TrapInScene(k, 95, Some(a), Some(b), IoIdle, []);
    NothingFree(Dispatch(k, 95, false));
    TrapInScene(Dispatch(k, 95, false), 94, Some(Trapped(a)), Some(b), IoFirst(TrapOf(Trapped(a)).value), []);
  }

  /** In the second cycle both machines trap: the first request is accepted, the second denied. */
  lemma SecondCycle(k: Kernel, a: Process, b: Process)
    requires Scene(k, Some(a), Some(b), None, None, IoIdle, []) && IoFree(k) == 1
    requires TrapsNext(a) && a.waitingResId == 0 && TrapsNext(b) && b.waitingResId == 0
    ensures Scene(RunCycle(k, {}), Some(Trapped(a)), Some(Trapped(b)), None, None,
                  IoFirst(TrapOf(Trapped(a)).value), [b.pid])
  {
    Beginning(k, Some(a), Some(b), IoIdle, []);
    BothTrap(Begun(k), a, b);
    NotThere(Dispatch(Dispatch(Begun(k), 95, false), 94, false), Some(Trapped(a)), Some(Trapped(b)),
             IoFirst(TrapOf(Trapped(a)).value), [b.pid]);
    CycleInTurns(k);
  }

  lemma NothingFree(k: Kernel)
    requires Resting(k) && IoPhaseOf(k.history.io) != IoIdle
    ensures IoFree(k) == 0
  {
    OwnerIsInRing(k, 2, 1, 1);
  }

  /** In the third cycle only the handler works: the request is now due, and the other governor waits for the unit. */
  lemma ThirdCycle(k: Kernel, a: Process, b: Process, ask: Ask, q: seq<Byte>)
    requires Scene(k, Some(a), Some(b), None, None, IoFirst(ask), q) && a.state == BLOCKED && b.state == BLOCKED
    ensures Scene(RunCycle(k, {}), Some(a), Some(b), None, None, IoSecond(ask), q)
  {
    Beginning(k, Some(a), Some(b), IoFirst(ask), q);
    NobodyElse(Begun(k), a, b, IoSecond(ask), q);
    CycleInTurns(k);
  }

  lemma NobodyElse(k: Kernel, a: Process, b: Process, ph: IoPhase, q: seq<Byte>)
    requires Scene(k, Some(a), Some(b), None, None, ph, q) && a.state == BLOCKED && b.state == BLOCKED
    ensures FourTurns(k) == k
  {
    assert Dispatch(k, 95, false) == k && Dispatch(k, 94, false) == k;
    NotThere(k, Some(a), Some(b), ph, q);
  }

  /** The process was created and placed in slot `i`; nothing else in the table changed. */
  predicate AddedAt(k: Kernel, k': Kernel, n: NewProcess, i: nat)
    requires i < MAX_PRIORITY
  {
    && Resting(k') && k'.slots == k.slots[i := Some(Born(n, k.added + 1))] && k'.added == k.added + 1
    && k' == k.(slots := k'.slots, added := k'.added, lastPid := k'.lastPid, prioMin := k'.prioMin)
  }

  /** A system process goes to the highest free slot. */
  lemma AddSystem(k: Kernel, n: NewProcess, i: nat)
    requires Resting(k) && n.sysProc && FIRST_SYSTEM_SLOT <= i <= SCHEDULER_SLOT && k.slots[i].None?
    requires forall j :: i < j <= SCHEDULER_SLOT ==> k.slots[j].Some?
    ensures AddedAt(k, AddProc(k, n), n, i)
  {
    AddProcGood(k, n, 2, 1, 1);
    WrappedPids(k.added);
    assert PlaceFor(k, true) == Some(i);
  }

  /** A user process goes to the highest free user slot. */
  lemma AddUser(k: Kernel, n: NewProcess, i: nat)
    requires Resting(k) && !n.sysProc && 1 <= i < FIRST_SYSTEM_SLOT && k.slots[i].None?
    requires forall j :: i < j < FIRST_SYSTEM_SLOT ==> k.slots[j].Some?
    ensures AddedAt(k, AddProc(k, n), n, i)
  {
    AddProcGood(k, n, 2, 1, 1);
    WrappedPids(k.added);
    assert PlaceFor(k, false) == Some(i);
  }

  function Start(): seq<Action> {
    [Add(HANDLER), Add(NewGovernor()), Add(NewGovernor())]
  }

  lemma RunStart(k: Kernel)
    ensures Run(k, Start()) == AddProc(AddProc(AddProc(k, HANDLER), NewGovernor()), NewGovernor())
  {
    assert Start()[..2] == [Add(HANDLER), Add(NewGovernor())];
    assert Start()[..2][..1] == [Add(HANDLER)];
    assert Run(k, [Add(HANDLER)]) == AddProc(k, HANDLER);
  }

  function StartSlots(s: Slots): Slots {
    s[96 := Some(Born(HANDLER, 1))][95 := Some(Born(NewGovernor(), 2))][94 := Some(Born(NewGovernor(), 3))]
  }

  lemma TwoGovernors(k: Kernel) returns (k1: Kernel)
    requires Resting(k) && k.slots[97].Some? && k.slots[96].Some? && k.slots[95].None? && k.slots[94].None?
    ensures AddedAt(k, k1, NewGovernor(), 95)
    ensures AddedAt(k1, AddProc(AddProc(k, NewGovernor()), NewGovernor()), NewGovernor(), 94)
  {
    k1 := AddProc(k, NewGovernor());
    AddSystem(k, NewGovernor(), 95);
    AddSystem(k1, NewGovernor(), 94);
  }

  lemma ThreeAdded(k: Kernel)
    requires Resting(k) && k.added == 0 && k.slots[97].Some?
    requires k.slots[96].None? && k.slots[95].None? && k.slots[94].None?
    ensures
      var k' := Run(k, Start());
      && Resting(k') && k'.slots == StartSlots(k.slots) && k'.added == 3
      && k' == k.(slots := k'.slots, added := 3, lastPid := k'.lastPid, prioMin := k'.prioMin)
  {
    hide Good, AddProc, Run;
    RunStart(k);
    AddSystem(k, HANDLER, 96);
    var k1 := AddProc(k, HANDLER);
    var k2 := TwoGovernors(k1);
    ChainOfThree(k, k1, k2, Run(k, Start()));
  }

  lemma ChainOfThree(k: Kernel, k1: Kernel, k2: Kernel, k3: Kernel)
    requires k.added == 0
    requires AddedAt(k, k1, HANDLER, 96) && AddedAt(k1, k2, NewGovernor(), 95) && AddedAt(k2, k3, NewGovernor(), 94)
    ensures Resting(k3) && k3.slots == StartSlots(k.slots) && k3.added == 3
    ensures k3 == k.(slots := k3.slots, added := 3, lastPid := k3.lastPid, prioMin := k3.prioMin)
  {
  }

  lemma StartScene()
    ensures
      var k := Run(Boot(ExampleStorage(), FILES), Start());
      && Scene(k, Some(Born(NewGovernor(), 2)), Some(Born(NewGovernor(), 3)), None, None, IoIdle, [])
      && k.added == 3 && IoFree(k) == 1 && Newborn(Born(NewGovernor(), 2)) && Newborn(Born(NewGovernor(), 3))
  {
    hide Run;
    var k0 := Boot(ExampleStorage(), FILES);
    BootResting(ExampleStorage(), FILES);
    ThreeAdded(k0);
    StartTable(k0);
  }

  lemma StartTable(k0: Kernel)
    requires k0 == Boot(ExampleStorage(), FILES)
    ensures Table(StartSlots(k0.slots), Some(Born(NewGovernor(), 2)), Some(Born(NewGovernor(), 3)), None, None)
    ensures Bare(StartSlots(k0.slots)[SCHEDULER_SLOT]) && IoFree(k0) == 1 && IoQueue(k0) == []
  {
  }

  /** The run of the example: two governors on a one-instruction image, and three cycles without a timer expiry. */
  function TwoReaders(): seq<Action> {
    Start() + [Cycle({})] + [Cycle({})] + [Cycle({})]
  }

  lemma OneMore(k: Kernel, acts: seq<Action>, a: Action)
    ensures Run(k, acts + [a]) == Act(Run(k, acts), a)
  {
    assert (acts + [a])[..|acts|] == acts;
  }

  lemma RunTwoReaders(k: Kernel)
    ensures Run(k, TwoReaders()) == RunCycle(RunCycle(RunCycle(Run(k, Start()), {}), {}), {})
  {
    OneMore(k, Start(), Cycle({}));
    OneMore(k, Start() + [Cycle({})], Cycle({}));
    OneMore(k, Start() + [Cycle({})] + [Cycle({})], Cycle({}));
  }

  lemma ThreeCycles(k: Kernel, a: Process, b: Process)
    requires Scene(k, Some(a), Some(b), None, None, IoIdle, []) && Newborn(a) && Newborn(b)
    requires k.added + 2 <= MAX_ADDS && IoFree(k) == 1
    ensures
      var a', b' := Trapped(WithImage(Waits(a))), Trapped(WithImage(Waits(b)));
      Scene(RunCycle(RunCycle(RunCycle(k, {}), {}), {}), Some(a'), Some(b'), None, None,
            IoSecond(TrapOf(a').value), [b.pid])
  {
    FirstCycle(k, a, b);
    SecondCycle(RunCycle(k, {}), WithImage(Waits(a)), WithImage(Waits(b)));
    var a', b' := Trapped(WithImage(Waits(a))), Trapped(WithImage(Waits(b)));
    ThirdCycle(RunCycle(RunCycle(k, {}), {}), a', b', TrapOf(a').value, [b.pid]);
  }

  /** A request of the process in slot 95 is about to be completed, and the governor in slot 94 waits for the unit. */
  predicate WaiterWaits(k: Kernel) {
    && Calm(k) && k.added <= MAX_ADDS && !k.history.shutDown && Due(k)
    && Requester(k, k.pending[k.ioHead]) == Some(95)
    && Occupied(k, 94) && IsGovernor(At(k, 94)) && IoQueue(k) == [At(k, 94).pid]
    && ReadyAt(k, 96) && IsHandler(At(k, 96)) && k.slots[99].None? && k.slots[98].None?
  }

  lemma DueInScene(k: Kernel, a: Process, b: Process)
    requires a.vm.Some? && Scene(k, Some(a), Some(b), None, None, IoSecond(TrapOf(a).value), [b.pid]) && IsGovernor(b)
    ensures WaiterWaits(k)
  {
    OwnerIsInRing(k, 2, 1, 1);
    RequesterIs(k, 95);
  }

  lemma ReadersWait(k: Kernel, a: Process, b: Process)
    requires Scene(k, Some(a), Some(b), None, None, IoIdle, []) && Newborn(a) && Newborn(b)
    requires k.added + 2 <= MAX_ADDS && IoFree(k) == 1
    ensures WaiterWaits(RunCycle(RunCycle(RunCycle(k, {}), {}), {}))
  {
    ThreeCycles(k, a, b);
    DueInScene(RunCycle(RunCycle(RunCycle(k, {}), {}), {}), Trapped(WithImage(Waits(a))), Trapped(WithImage(Waits(b))));
  }

  /**
    A reachable state in which a request is about to be completed while another
    governor waits for the unit.
    */
  lemma WaiterAtCompletion()
    ensures WaiterWaits(Run(Boot(ExampleStorage(), FILES), TwoReaders()))
  {
    StartScene();
    FromStart(Boot(ExampleStorage(), FILES), Born(NewGovernor(), 2), Born(NewGovernor(), 3));
  }

  lemma FromStart(k: Kernel, a: Process, b: Process)
    requires Scene(Run(k, Start()), Some(a), Some(b), None, None, IoIdle, []) && Newborn(a) && Newborn(b)
    requires Run(k, Start()).added + 2 <= MAX_ADDS && IoFree(Run(k, Start())) == 1
    ensures WaiterWaits(Run(k, TwoReaders()))
  {
    RunTwoReaders(k);
    ReadersWait(Run(k, Start()), a, b);
  }

  /** A completing handler's turn with somebody in the queue loses the unit. */
  lemma HandlerLosesUnit(k: Kernel, i: nat)
    requires Resting(k) && ReadyAt(k, i) && IsHandler(At(k, i)) && Due(k) && IoQueue(k) != []
    ensures Resting(Dispatch(k, i, false)) && Starved(Dispatch(k, i, false))
  {
    var t := TurnState(k, i);
    DispatchKeepsInvariant(k, i, false);
    TurnStateIs(k, i);
    TurnQueue(k, i, false);
    StepLosesUnitExactly(t, 2, 0, 1);
    HandlerTurnRing(t, i, false);
    TurnReleases(k, i, false);
  }

  /** In the next cycle the unit is lost, and from then on no request of any process is ever accepted. */
  lemma UnitLostInRuns(acts: seq<Action>)
    ensures
      var k := Run(Boot(ExampleStorage(), FILES), TwoReaders() + [Cycle({})]);
      Starved(k) && StarvedSince(k, Run(k, acts)) && !AcceptsIo(Run(k, acts))
  {
    WaiterAtCompletion();
    var k0 := Boot(ExampleStorage(), FILES);
    var k := Run(k0, TwoReaders());
    OneMore(k0, TwoReaders(), Cycle({}));
    LostInCycle(k);
    StarvedForEver(RunCycle(k, {}), acts);
  }

  lemma LostInCycle(k: Kernel)
    requires Calm(k) && Due(k) && IoQueue(k) != [] && ReadyAt(k, 96) && IsHandler(At(k, 96))
    requires k.slots[99].None? && k.slots[98].None?
    ensures Resting(RunCycle(k, {})) && Starved(RunCycle(k, {}))
  {
    hide Good, Dispatch;
    var k1 := Dispatch(k, 97, false);
    SchedulerTurn(k, false);
    SchedulerKeepsDue(k);
    HandlerLosesUnit(k1, 96);
    CycleBegins(k, {});
    OneSlot(k1, 96);
    RangeStaysStarved(Dispatch(k1, 96, false), 95, 0, {});
  }

  lemma SchedulerKeepsDue(k: Kernel)
    requires Calm(k) && Due(k)
    ensures Due(Dispatch(k, 97, false))
  {
    SchedulerTurn(k, false);
    OwnerIsInRing(k, 2, 1, 1);
    OwnerIsInRing(Dispatch(k, 97, false), 2, 1, 1);
  }

  // Preemption

  const INTERRUPTS := NewProcess(true, INTERRUPT_HANDLER, true, None, 0, 0, 3)

  /** The interrupt handler in slot `h`, and one machine, that of a ready process in the lower slot `m`. */
  predicate OneMachine(k: Kernel, h: nat, m: nat) {
    && Calm(k) && m < h < SCHEDULER_SLOT && ReadyAt(k, h) && IsInterruptHandler(At(k, h))
    && ReadyAt(k, m) && At(k, m).vm.Some?
    && forall w :: 0 <= w < MAX_PRIORITY && w != m && k.slots[w].Some? ==> k.slots[w].value.vm.None?
  }

  /** The process in slot `m` runs, nobody is current, and everybody but the handler and the scheduler is as before. */
  predicate Preempted(k: Kernel, k': Kernel, h: nat, m: nat)
    requires Occupied(k, m)
  {
    && Calm(k') && k'.current == None && k'.slots[m] == Some(At(k, m).(state := RUNNING))
    && Occupied(k, h) && k'.slots[h] == Some(At(k, h).(waitingResId := 0))
    && forall w :: 0 <= w < MAX_PRIORITY && w != h && w != m && w != SCHEDULER_SLOT ==> k'.slots[w] == k.slots[w]
  }

  /** The timer goes off at the handler's turn: the machine's process is running, and nobody is current. */
  lemma PreemptionTurn(k: Kernel, h: nat, m: nat)
    requires OneMachine(k, h, m)
    ensures Preempted(k, Dispatch(k, h, true), h, m)
    ensures IoStill(k, Dispatch(k, h, true), At(k, h).pid)
    ensures Dispatch(k, h, true).history.governors == k.history.governors
  {
    hide TurnState, Dispatch, TakeTurn, Good, Resting;
    DispatchKeepsInvariant(k, h, true);
    CalmTurn(k, h);
    TurnStateIs(k, h);
    OnlyOneIsNext(TurnState(k, h), m);
    PreemptionLeavesRunning(TurnState(k, h), h, true);
    PreemptionKeepsLives(TurnState(k, h), h, true);
    TurnReleases(k, h, true);
    QuietDispatch(k, h, true);
  }

  lemma PreemptionKeepsLives(k: Kernel, h: nat, fired: bool)
    requires Good(k, 2, 0, 1) && k.current == Some(h) && ReadyAt(k, h) && IsInterruptHandler(At(k, h))
    ensures TakeTurn(k, h, fired).history.governors == k.history.governors
  {
    hide TakeTurn, Good;
    TurnUndisturbed(k, h, fired);
  }

  lemma OnlyOneIsNext(k: Kernel, m: nat)
    requires Good(k, 2, 0, 1) && ReadyAt(k, m) && At(k, m).vm.Some?
    requires forall w :: 0 <= w < MAX_PRIORITY && w != m && k.slots[w].Some? ==> k.slots[w].value.vm.None?
    ensures NextRunnable(k) == Some(m)
  {
    assert Runnable()(k.slots[m]);
    assert ProcessOk(m, At(k, m), k.prioMin, k.added);
  }

  /** No request is in flight, and nobody waits for the unit. */
  predicate NoIo(k: Kernel) {
    IoPhaseOf(k.history.io) == IoIdle && IoQueue(k) == []
  }

  /** Nobody else is in the table but the handler, the machine's process, and the scheduler's own. */
  predicate Alone(k: Kernel, h: nat, m: nat) {
    forall w :: 0 <= w < MAX_PRIORITY && w != h && w != m && w != SCHEDULER_SLOT ==> k.slots[w].None?
  }

  lemma SchedulerFirst(k: Kernel, h: nat, m: nat)
    requires OneMachine(k, h, m)
    ensures
      var k' := Dispatch(k, SCHEDULER_SLOT, false);
      && OneMachine(k', h, m) && At(k', m) == At(k, m) && At(k', h) == At(k, h)
      && (NoIo(k) ==> NoIo(k')) && (Alone(k, h, m) ==> Alone(k', h, m))
  {
    hide Dispatch, Resting;
    SchedulerTurn(k, false);
  }

  /** One pass over such a table: the state after the handler's turn is the state at the end. */
  lemma PreemptionCycle(k: Kernel)
    requires OneMachine(k, 96, 95) && Alone(k, 96, 95) && NoIo(k) && At(k, 96).pid != At(k, 95).pid
    ensures
      var k' := RunCycle(k, {96});
      && Occupied(k', 95) && At(k', 95) == At(k, 95).(state := RUNNING) && k'.current == None
      && IoPhaseOf(k'.history.io) == IoIdle && At(k', 95).pid !in IoQueue(k')
  {
    hide Dispatch, Resting;
    var k1 := Dispatch(k, 97, false);
    var k2 := Dispatch(k1, 96, true);
    SchedulerFirst(k, 96, 95);
    PreemptionTurn(k1, 96, 95);
    CycleBegins(k, {96});
    FiresAt(k1, 96);
    SkipRange(k2, 95, 0, {96});
  }

  /** The pass goes on from the slot at whose turn the timer goes off. */
  lemma FiresAt(k: Kernel, h: nat)
    requires h < MAX_PRIORITY
    ensures RunRange(k, h, 0, {h}) == RunRange(Dispatch(k, h, true), h - 1, 0, {h})
  {
    hide Dispatch;
  }

  function WithTimer(): seq<Action> {
    [Add(INTERRUPTS)] + [Add(NewGovernor())] + [Cycle({96})]
  }

  lemma RunWithTimer(k: Kernel)
    ensures Run(k, WithTimer()) == RunCycle(AddProc(AddProc(k, INTERRUPTS), NewGovernor()), {96})
  {
    assert Run(k, [Add(INTERRUPTS)]) == AddProc(k, INTERRUPTS);
    OneMore(k, [Add(INTERRUPTS)], Add(NewGovernor()));
    OneMore(k, [Add(INTERRUPTS)] + [Add(NewGovernor())], Cycle({96}));
  }

  lemma StartWithTimer(k: Kernel)
    requires Calm(k) && forall w :: 0 <= w < MAX_PRIORITY && w != 97 ==> k.slots[w].None?
    requires k.added == 0 && NoIo(k)
    ensures
      var k' := AddProc(AddProc(k, INTERRUPTS), NewGovernor());
      && OneMachine(k', 96, 95) && Alone(k', 96, 95) && NoIo(k')
      && At(k', 96) == Born(INTERRUPTS, 1) && At(k', 95) == Born(NewGovernor(), 2)
  {
    hide AddProc, Resting;
    AddSystem(k, INTERRUPTS, 96);
    AddSystem(AddProc(k, INTERRUPTS), NewGovernor(), 95);
  }

  lemma BootIsCalm()
    ensures
      var k := Boot(ExampleStorage(), FILES);
      && Calm(k) && k.added == 0 && NoIo(k)
      && forall w :: 0 <= w < MAX_PRIORITY && w != SCHEDULER_SLOT ==> k.slots[w].None?
  {
    BootResting(ExampleStorage(), FILES);
  }

  /** A run that leaves a process running while nobody is current: one governor, and one timer expiry. */
  lemma RunningButNotCurrent()
    ensures
      var k := Run(Boot(ExampleStorage(), FILES), WithTimer());
      && k.current == None && Occupied(k, 95) && At(k, 95) == Born(NewGovernor(), 2).(state := RUNNING)
      && !OnlyCurrentRuns(k) && Stray(k, 95)
  {
    var k0 := Boot(ExampleStorage(), FILES);
    hide Boot, Run, RunCycle, AddProc, Resting;
    BootIsCalm();
    RunWithTimer(k0);
    StartWithTimer(k0);
    PreemptionCycle(AddProc(AddProc(k0, INTERRUPTS), NewGovernor()));
  }

  /**
    In every run that goes on from there, until a shutdown, the governor is just
    as the timer left it, and has had no turn.
    */
  lemma StrayInRuns(acts: seq<Action>)
    requires
      var k' := Run(Run(Boot(ExampleStorage(), FILES), WithTimer()), acts);
      k'.added <= MAX_ADDS && !k'.history.shutDown
    ensures
      var k := Run(Boot(ExampleStorage(), FILES), WithTimer());
      var k' := Run(k, acts);
      && k'.slots[95] == Some(Born(NewGovernor(), 2).(state := RUNNING)) && k'.current != Some(95)
      && NoTurn(k.history.turns, k'.history.turns, 2)
  {
    var k := Run(Boot(ExampleStorage(), FILES), WithTimer());
    hide Run, Boot, Stray, Protocol;
    RunningButNotCurrent();
    HandshakeOverRuns(ExampleStorage(), FILES, WithTimer());
    StrayForEver(k, acts, 95);
  }

  // A shutdown that leaves work behind

  const STOPPER := NewProcess(true, START_STOP, true, None, 0, 0, 1)

  /** Start-stop, the interrupt handler and a governor, in that order, and nobody else but the scheduler's process. */
  predicate Trio(k: Kernel) {
    && Calm(k) && !k.history.shutDown && k.history.governors == []
    && ReadyAt(k, 96) && IsStartStop(At(k, 96)) && At(k, 96).vm.None?
    && Occupied(k, 95) && At(k, 95).procType == INTERRUPT_HANDLER
    && Occupied(k, 94) && At(k, 94).procType == JOB_GOVERNOR
    && forall w :: 0 <= w < MAX_PRIORITY && !(94 <= w <= 97) ==> k.slots[w].None?
  }

  /** Start-stop's turn while there is work. */
  lemma StopperWaits(k: Kernel)
    requires Trio(k) && OneMachine(k, 95, 94)
    ensures
      var k' := Dispatch(k, 96, false);
      Trio(k') && OneMachine(k', 95, 94) && At(k', 94) == At(k, 94)
  {
    hide Dispatch, TurnState, TakeTurn, Resting, Good;
    DispatchKeepsInvariant(k, 96, false);
    CalmTurn(k, 96);
    TurnStateIs(k, 96);
    assert !NoWork(TurnState(k, 96).slots) by { assert TurnState(k, 96).slots[94] == k.slots[94]; }
    StartStopTurn(TurnState(k, 96), 96, false);
    TurnReleases(k, 96, false);
  }

  lemma TrioScheduler(k: Kernel)
    requires Trio(k)
    ensures Trio(Dispatch(k, 97, false)) && At(Dispatch(k, 97, false), 94) == At(k, 94)
  {
    hide Dispatch, Resting;
    SchedulerTurn(k, false);
    SchedulerLives(k);
  }

  lemma SchedulerLives(k: Kernel)
    requires Calm(k)
    ensures Dispatch(k, 97, false).history.governors == k.history.governors
  {
    hide Resting, Good;
    TurnStateIs(k, SCHEDULER_SLOT);
    TurnReleases(k, SCHEDULER_SLOT, false);
  }

  /** In the first cycle the timer goes off, and the governor is left running. */
  lemma TrioPreempted(k: Kernel)
    requires Trio(k) && OneMachine(k, 95, 94)
    ensures
      var k' := RunCycle(k, {95});
      Trio(k') && At(k', 94) == At(k, 94).(state := RUNNING)
  {
    hide Dispatch, Resting, IoQueue;
    var k1 := Dispatch(k, 97, false);
    var k2 := Dispatch(k1, 96, false);
    var k3 := Dispatch(k2, 95, true);
    TrioScheduler(k);
    SchedulerFirst(k, 95, 94);
    StopperWaits(k1);
    PreemptionTurn(k2, 95, 94);
    CycleBegins(k, {95});
    assert 97 !in {95} && 96 !in {95};
    assert RunRange(k1, 96, 0, {95}) == RunRange(k2, 95, 0, {95});
    FiresAt(k2, 95);
    SkipRange(k3, 94, 0, {95});
  }

  /** In the second cycle start-stop sees no work, and the governor is cleared away. */
  lemma TrioShutDown(k: Kernel)
    requires Trio(k) && At(k, 94).state == RUNNING
    ensures
      var k' := RunCycle(k, {});
      k'.history.shutDown && k'.slots[94].None? && k'.history.governors == []
  {
    hide Dispatch, Resting, TurnState;
    var k1 := Dispatch(k, 97, false);
    var k2 := Dispatch(k1, 96, false);
    TrioScheduler(k);
    StopperStops(k1);
    CycleBegins(k, {});
    OneSlot(k1, 96);
    SkipRange(k2, 95, 0, {});
  }

  lemma StopperStops(k: Kernel)
    requires Trio(k) && At(k, 94).state == RUNNING
    ensures
      var k' := Dispatch(k, 96, false);
      && k'.history.shutDown && k'.history.governors == []
      && forall w :: 0 <= w < 96 ==> k'.slots[w].None?
  {
    hide Dispatch, TurnState, Resting, TakeTurn;
    CalmTurn(k, 96);
    var t := TurnState(k, 96);
    assert forall w :: 0 <= w < 96 ==> t.slots[w] == k.slots[w];
    ShutdownIgnoresRunning(k, 96, false);
  }

  /** Start-stop, the interrupt handler and a governor, and one cycle in which the timer goes off. */
  function Abandoning(): seq<Action> {
    [Add(STOPPER)] + [Add(INTERRUPTS)] + [Add(NewGovernor())] + [Cycle({95})]
  }

  lemma RunAbandoning(k: Kernel)
    ensures Run(k, Abandoning()) == RunCycle(AddProc(AddProc(AddProc(k, STOPPER), INTERRUPTS), NewGovernor()), {95})
    ensures Run(k, Abandoning() + [Cycle({})]) == RunCycle(Run(k, Abandoning()), {})
  {
    hide RunCycle, AddProc;
    assert Run(k, [Add(STOPPER)]) == AddProc(k, STOPPER);
    OneMore(k, [Add(STOPPER)], Add(INTERRUPTS));
    OneMore(k, [Add(STOPPER)] + [Add(INTERRUPTS)], Add(NewGovernor()));
    OneMore(k, [Add(STOPPER)] + [Add(INTERRUPTS)] + [Add(NewGovernor())], Cycle({95}));
    OneMore(k, Abandoning(), Cycle({}));
  }

  lemma StartTrio(k: Kernel)
    requires Calm(k) && forall w :: 0 <= w < MAX_PRIORITY && w != 97 ==> k.slots[w].None?
    requires k.added == 0 && !k.history.shutDown && k.history.governors == []
    ensures
      var k' := AddProc(AddProc(AddProc(k, STOPPER), INTERRUPTS), NewGovernor());
      Trio(k') && OneMachine(k', 95, 94) && At(k', 94) == Born(NewGovernor(), 3)
  {
    hide AddProc, Resting;
    AddSystem(k, STOPPER, 96);
    AddSystem(AddProc(k, STOPPER), INTERRUPTS, 95);
    AddSystem(AddProc(AddProc(k, STOPPER), INTERRUPTS), NewGovernor(), 94);
  }

  /**
    A run that shuts the system down with work undone. The timer leaves the only
    governor running, which has not even asked for its image; one cycle later
    start-stop finds no work and clears the table.
    */
  lemma UnfinishedAtShutdown()
    ensures
      var k := Run(Boot(ExampleStorage(), FILES), Abandoning());
      k.slots[94] == Some(Born(NewGovernor(), 3).(state := RUNNING)) && !k.history.shutDown
    ensures
      var k' := Run(Boot(ExampleStorage(), FILES), Abandoning() + [Cycle({})]);
      k'.history.shutDown && k'.slots[94].None? && k'.history.governors == []
  {
    var k0 := Boot(ExampleStorage(), FILES);
    assert !k0.history.shutDown && k0.history.governors == [];
    hide Boot, RunCycle, Run, AddProc, Resting;
    BootIsCalm();
    RunAbandoning(k0);
    StartTrio(k0);
    TrioPreempted(AddProc(AddProc(AddProc(k0, STOPPER), INTERRUPTS), NewGovernor()));
    TrioShutDown(Run(k0, Abandoning()));
  }

  // The save of a left-over process

  /** The processor at boot: supervisor mode, and the page table at 240. */
  const BOOT_CPU := ZERO_CPU.(mode := 1, ptr := 240)

  lemma OneProcess(k: Kernel)
    requires Calm(k) && forall w :: 0 <= w < MAX_PRIORITY && w != 97 ==> k.slots[w].None?
    requires k.added == 0 && k.current == None && k.cpu == BOOT_CPU && k.history.saves == []
    ensures
      var k' := AddProc(k, FILLER);
      && Calm(k') && k'.slots == k.slots[96 := Some(Born(FILLER, 1))] && k'.current == None
      && k'.cpu == BOOT_CPU && k'.history.saves == []
  {
    hide AddProc, Resting;
    AddSystem(k, FILLER, 96);
  }

  /** The scheduler's process has its turn and stays current. */
  lemma SchedulerStaysCurrent(k: Kernel)
    requires Calm(k) && k.current == None
    ensures
      var k' := Dispatch(k, 97, false);
      && Calm(k') && k'.current == Some(97) && k'.cpu == k.cpu && k'.history.saves == k.history.saves
      && forall w :: 0 <= w < MAX_PRIORITY && w != 97 ==> k'.slots[w] == k.slots[w]
  {
    hide Dispatch, Resting, TurnState;
    SchedulerTurn(k, false);
    BareRests(k, 97, false);
    LeftOverIsSaved(k, 97, false);
    TurnStateIs(k, 97);
    TurnReleases(k, 97, false);
    assert TakeTurn(TurnState(k, 97), 97, false) == TurnState(k, 97);
  }

  lemma SaveCycle(k: Kernel)
    requires Calm(k) && k.current == None && k.cpu == BOOT_CPU && k.history.saves == [] && k.slots[97].value.serial == 0
    requires k.slots[96] == Some(Born(FILLER, 1))
    requires forall w :: 0 <= w < MAX_PRIORITY && w != 96 && w != 97 ==> k.slots[w].None?
    ensures
      var k' := RunCycle(k, {});
      && Occupied(k', 97) && At(k', 97).context == BOOT_CPU && At(k', 97).state == READY
      && k'.history.saves == [Save(0, BOOT_CPU)]
  {
    hide Dispatch, Resting;
    var k1 := Dispatch(k, 97, false);
    var k2 := Dispatch(k1, 96, false);
    SchedulerStaysCurrent(k);
    SchedulerSerial(k);
    IdleRests(k1, 96, false);
    LeftOverIsSaved(k1, 96, false);
    CycleBegins(k, {});
    OneSlot(k1, 96);
    SkipRange(k2, 95, 0, {});
  }

  lemma SchedulerSerial(k: Kernel)
    requires Calm(k)
    ensures At(Dispatch(k, 97, false), 97).serial == At(k, 97).serial
  {
    hide Dispatch, Resting;
    BareRests(k, 97, false);
  }

  /**
    A run in which the loop saves a left-over process: the scheduler's own stays
    current after its turn, and when the idle process is reached it gets the
    processor's state, supervisor mode and page table, as its context.
    */
  lemma LeftOverInRuns()
    ensures
      var k := Run(Boot(ExampleStorage(), FILES), [Add(FILLER)] + [Cycle({})]);
      && Occupied(k, 97) && At(k, 97).context == BOOT_CPU && At(k, 97).state == READY
      && k.history.saves == [Save(0, BOOT_CPU)]
  {
    var k0 := Boot(ExampleStorage(), FILES);
    assert k0.cpu == BOOT_CPU && k0.history.saves == [] && k0.current == None && k0.slots[97].value.serial == 0;
    assert Run(k0, [Add(FILLER)]) == AddProc(k0, FILLER);
    hide Boot, RunCycle, Run, AddProc, Resting;
    BootIsCalm();
    OneMore(k0, [Add(FILLER)], Cycle({}));
    OneProcess(k0);
    SaveCycle(AddProc(k0, FILLER));
  }

  // Pids that wrap

  /** A user process with a machine that halts at once. */
  function NewUser(): NewProcess {
    NewProcess(false, IDLE, false, Some(FreshVm()), 0, 0, 9)
  }

  const FILLER := NewProcess(true, IDLE, true, None, 0, 0, 2)

  function Fillers(n: nat): seq<Action> {
    seq<Action>(n, i => Add(FILLER))
  }

  /** So many processes were created, and no user slot changed. */
  predicate FillersAdded(k: Kernel, k': Kernel, n: nat) {
    && Resting(k') && k'.added == k.added + n
    && forall w :: 0 <= w < FIRST_SYSTEM_SLOT ==> k'.slots[w] == k.slots[w]
  }

  /** System processes never take a user slot, but each takes a pid. */
  lemma {:induction false} AddFillers(k: Kernel, n: nat)
    requires Resting(k)
    ensures FillersAdded(k, Run(k, Fillers(n)), n)
    decreases n
  {
    hide Resting, AddProc;
    if n == 0 {
    } else {
      AddFillers(k, n - 1);
      assert Fillers(n) == Fillers(n - 1) + [Add(FILLER)];
      OneMore(k, Fillers(n - 1), Add(FILLER));
      FillerAdded(Run(k, Fillers(n - 1)));
    }
  }

  lemma FillerAdded(k: Kernel)
    requires Resting(k)
    ensures FillersAdded(k, AddProc(k, FILLER), 1)
  {
    AddProcGood(k, FILLER, 2, 1, 1);
  }

  lemma {:induction false} RunJoins(k: Kernel, front: seq<Action>, back: seq<Action>)
    ensures Run(k, front + back) == Run(Run(k, front), back)
    decreases |back|
  {
    if back == [] {
      assert front + back == front;
    } else {
      var init, last := back[..|back| - 1], back[|back| - 1];
      RunJoins(k, front, init);
      assert front + back == (front + init) + [last];
      OneMore(k, front + init, last);
    }
  }

  function WrappingToZero(): seq<Action> {
    Fillers(158) + [Add(NewUser())]
  }

  lemma ZeroTable(k: Kernel, k1: Kernel, k2: Kernel)
    requires k.added == 0 && FillersAdded(k, k1, 158) && AddedAt(k1, k2, NewUser(), 79)
    ensures ReadyAt(k2, 79) && At(k2, 79) == Born(NewUser(), 159) && At(k2, 79).pid == 0 && RemovalMisses(k2, 79)
  {
  }

  /** A reachable state in which a ready user process has pid 0: the 159th process created. */
  lemma PidZeroInRuns()
    ensures
      var k := Run(Boot(ExampleStorage(), FILES), WrappingToZero());
      && Resting(k) && ReadyAt(k, 79) && At(k, 79) == Born(NewUser(), 159) && At(k, 79).pid == 0 && RemovalMisses(k, 79)
  {
    var k0 := Boot(ExampleStorage(), FILES);
    BootResting(ExampleStorage(), FILES);
    var k1 := Run(k0, Fillers(158));
    AddFillers(k0, 158);
    AddUser(k1, NewUser(), 79);
    OneMore(k0, Fillers(158), Add(NewUser()));
    ZeroTable(k0, k1, AddProc(k1, NewUser()));
  }

  function Colliding(): seq<Action> {
    [Add(NewUser())] + Fillers(255) + [Add(NewUser())]
  }

  lemma RunColliding(k: Kernel)
    ensures Run(k, Colliding()) == AddProc(Run(AddProc(k, NewUser()), Fillers(255)), NewUser())
  {
    assert Run(k, [Add(NewUser())]) == AddProc(k, NewUser());
    RunJoins(k, [Add(NewUser())], Fillers(255));
    OneMore(k, [Add(NewUser())] + Fillers(255), Add(NewUser()));
  }

  /** The first process and the 257th have the same pid. */
  predicate Share(k: Kernel) {
    && Resting(k) && k.slots[79] == Some(Born(NewUser(), 1)) && k.slots[78] == Some(Born(NewUser(), 257))
    && At(k, 79).pid == At(k, 78).pid && RemovalMisses(k, 79)
    && forall w :: 0 <= w < 78 ==> k.slots[w].None?
  }

  lemma CollidingTable(k: Kernel, k1: Kernel, k2: Kernel, k3: Kernel)
    requires k.added == 0 && forall w :: 0 <= w < FIRST_SYSTEM_SLOT ==> k.slots[w].None?
    requires AddedAt(k, k1, NewUser(), 79) && FillersAdded(k1, k2, 255) && AddedAt(k2, k3, NewUser(), 78)
    ensures Share(k3)
  {
    assert HasPid(98)(k3.slots[78]);
  }

  lemma CollidingLater(k: Kernel, k1: Kernel)
    requires k.added == 0 && forall w :: 0 <= w < FIRST_SYSTEM_SLOT ==> k.slots[w].None?
    requires AddedAt(k, k1, NewUser(), 79)
    ensures Share(AddProc(Run(k1, Fillers(255)), NewUser()))
  {
    hide AddProc, Fillers, Run;
    var k2 := Run(k1, Fillers(255));
    AddFillers(k1, 255);
    AddUser(k2, NewUser(), 78);
    CollidingTable(k, k1, k2, AddProc(k2, NewUser()));
  }

  lemma CollidingRun(k: Kernel)
    requires Resting(k) && k.added == 0 && forall w :: 0 <= w < FIRST_SYSTEM_SLOT ==> k.slots[w].None?
    ensures Share(Run(k, Colliding()))
  {
    RunColliding(k);
    AddUser(k, NewUser(), 79);
    CollidingLater(k, AddProc(k, NewUser()));
  }

  /** A reachable state in which two processes share a pid, and removing one by its pid removes the other. */
  lemma SharedPidInRuns()
    ensures
      var k := Run(Boot(ExampleStorage(), FILES), Colliding());
      && Share(k) && RemoveProc(k, At(k, 79).pid).slots[79] == k.slots[79]
      && RemoveProc(k, At(k, 79).pid).slots[78] == None
  {
    var k0 := Boot(ExampleStorage(), FILES);
    BootResting(ExampleStorage(), FILES);
    CollidingRun(k0);
    RemovesTheOther(Run(k0, Colliding()));
  }

  lemma RemovesTheOther(k: Kernel)
    requires Share(k)
    ensures RemoveProc(k, At(k, 79).pid) == Clear(k, 78)
  {
    assert HasPid(At(k, 79).pid)(k.slots[78]);
  }

  /** A machine without a governor that ends, and whose process removal passes by, stays in the table, running. */
  lemma EndedMachineStays(k: Kernel, i: nat, fired: bool)
    requires Resting(k) && ReadyAt(k, i) && !At(k, i).hasEntry && At(k, i).vm.Some?
    requires Occupied(TurnState(k, i), i) && MachineEnds(TurnState(k, i), i) && RemovalMisses(TurnState(k, i), i)
    ensures
      var k' := Dispatch(k, i, fired);
      Occupied(k', i) && At(k', i).serial == At(k, i).serial && At(k', i).state == RUNNING && k'.current == None
  {
    TurnStateIs(k, i);
    MachineTurnEnds(TurnState(k, i), i);
    RunVmUndisturbed(TurnState(k, i), i);
    TurnReleases(k, i, fired);
  }

  /** A governor whose machine ends, and which removal passes by, stays in the table without its machine. */
  lemma EndedGovernorStays(k: Kernel, i: nat, fired: bool)
    requires Good(k, 2, 0, 1) && k.current == Some(i) && Occupied(k, i) && IsGovernor(At(k, i))
    requires At(k, i).vm.Some? && At(k, i).loaded == LOADED && RunOperations(At(k, i).vm.value).rc != RC_TRAPPED
    requires RemovalMisses(k, i)
    ensures TakeTurn(k, i, fired).slots[i] == Some(At(k, i).(vm := None, loaded := DONE))
  {
    var k1 := RunGovernorVm(k, i).k;
    SameMisses(k, k1, i);
    RemovesExactly(k1, i);
  }

  lemma HaltsAtOnce(vm: Vm)
    requires vm.pc == 0 && Be16(vm.memory, 0) == 0
    ensures RunOperations(vm).rc == RC_HALTED
  {
    assert Fields(0).opcode == OP_HALT;
    assert VmStep(ClearTrap(vm)).Stopped?;
  }

  /** In the state of `PidZeroInRuns` the machine halts at its turn, and its process is still there afterwards. */
  lemma PidZeroStays(k: Kernel, fired: bool)
    requires Resting(k) && ReadyAt(k, 79) && At(k, 79) == Born(NewUser(), 159)
    ensures
      var k' := Dispatch(k, 79, fired);
      Occupied(k', 79) && At(k', 79).serial == 159 && At(k', 79).state == RUNNING && k'.current == None
  {
    TurnStateIs(k, 79);
    HaltsAtOnce(FreshVm());
    EndedMachineStays(k, 79, fired);
  }
}
