/**
  Isolation of processes from one another: during the turn of one process, the
  machine, the identity and, for a sleeping process, the whole entry of every
  other process stay as they are. The exceptions are exactly three: a loader
  fills its parent's machine, the I/O handler serves the requester it completes,
  and start-stop shuts everything down.
  */
module MachineIsolation {
  import opened Words
  import opened Disk
  import opened VirtualMachine
  import opened Loader
  import opened Swapper
  import opened KernelModel
  import opened KernelInvariant
  import opened KernelSafety
  import opened Frames
  import opened GovernorProtocol
  import opened IoSafety

  predicate Asleep(k: Kernel, w: nat) {
    Occupied(k, w) && At(k, w).state in {BLOCKED, SUSP_BLOCKED} && k.current != Some(w)
  }

  /** Neither ready to take a turn nor current. */
  predicate Dormant(k: Kernel, w: nat) {
    Occupied(k, w) && At(k, w).state != READY && k.current != Some(w)
  }

  predicate Awake(p: Process) {
    p.state in {READY, RUNNING}
  }

  /**
    The process in slot `w` keeps its place, its machine and its load. One that
    is neither ready nor current keeps everything; one that is awake stays awake,
    and stays ready if it has no machine.
    */
  predicate Left(k: Kernel, k': Kernel, w: nat) {
    && Occupied(k, w) && Occupied(k', w)
    && At(k', w).vm == At(k, w).vm && SameIdentity(At(k, w), At(k', w)) && At(k', w).loaded == At(k, w).loaded
    && (Dormant(k, w) ==> k'.slots[w] == k.slots[w] && k'.current != Some(w))
    && (Awake(At(k, w)) ==> Awake(At(k', w)))
    && (At(k, w).state == READY && At(k, w).vm.None? ==> At(k', w).state == READY)
  }

  lemma LeftTrans(k: Kernel, k1: Kernel, k2: Kernel, w: nat)
    requires Left(k, k1, w) && Left(k1, k2, w)
    ensures Left(k, k2, w)
  {
  }

  // The operations, one by one

  lemma EnqueueLeft(k: Kernel, i: nat, code: Word, r0: Word, r1: Word, r2: Word, w: nat)
    requires Occupied(k, i) && Occupied(k, w) && i != w
    ensures Left(k, EnqueueIo(k, i, code, r0, r1, r2), w) && Occupied(EnqueueIo(k, i, code, r0, r1, r2), i)
  {
    EnqueueIoFrame(k, i, code, r0, r1, r2);
  }

  lemma AddLeft(k: Kernel, n: NewProcess, w: nat)
    requires Occupied(k, w)
    ensures Left(k, AddProc(k, n), w) && AddProc(k, n).slots[w] == k.slots[w]
  {
  }

  lemma RemoveLeft(k: Kernel, pid: Byte, w: nat)
    requires Occupied(k, w) && At(k, w).pid != pid
    ensures Left(k, RemoveProc(k, pid).(current := None), w)
  {
  }

  lemma SwitchLeft(k: Kernel, w: nat)
    requires Occupied(k, w)
    ensures Left(k, ContextSwitch(k), w)
  {
    var k1 := SwitchOut(k);
    assert Left(k, k1, w);
    assert Left(k1, ContextSwitch(k), w);
  }

  lemma HandleInterruptsLeft(k: Kernel, fired: bool, w: nat)
    requires LatchesQuiet(k) && Occupied(k, w)
    ensures Left(k, KernelHandleInterrupts(k, fired), w)
  {
    OnlyTheTimer(k, fired);
    SwitchLeft(TimerTaken(k), w);
  }

  lemma InterruptHandlerLeft(k: Kernel, fired: bool, i: nat, w: nat)
    requires Good(k, 2, 0, 1) && k.current == Some(i) && Occupied(k, w) && i != w
    ensures Left(k, InterruptHandler(k, fired), w)
  {
    RequestTmr(k, i);
    var k0 := AfterRequest(k, RES_TMR, i);
    assert Left(k, k0, w);
    HandleInterruptsLeft(k0, fired, w);
    LeftTrans(k, k0, KernelHandleInterrupts(k0, fired), w);
    HandlerWithTimer(k, i, fired);
  }

  lemma RunGovernorVmLeft(k: Kernel, i: nat, w: nat)
    requires Occupied(k, i) && At(k, i).vm.Some? && Occupied(k, w) && i != w
    ensures Left(k, RunGovernorVm(k, i).k, w)
  {
    var p := At(k, i);
    var o := RunOperations(p.vm.value).vm;
    var k1 := Put(Log(k, VmRan(p.serial)), i, p.(vm := Some(o)));
    EnqueueLeft(k1, i, o.trapCode, o.trapR0, o.trapR1, o.trapR2, w);
  }

  lemma GovernorLeft(k: Kernel, i: nat, w: nat)
    requires Occupied(k, i) && Occupied(k, w) && i != w
    ensures Left(k, JobGovernor(k, i).k, w)
  {
    var p := At(k, i);
    if p.vm.Some? && p.loaded == LOADED {
      RunGovernorVmLeft(k, i, w);
    } else if p.vm.Some? && p.loaded == NOT_REQUESTED {
      AddLeft(k, LoaderFor(p), w);
    }
  }

  lemma LoadIntoLeft(k: Kernel, j: nat, fileId: Word, w: nat)
    requires Occupied(k, j) && At(k, j).vm.Some? && Occupied(k, w) && j != w && At(k, w).pid != At(k, j).pid
    ensures Left(k, LoadInto(k, j, fileId), w)
  {
  }

  lemma LoadForLeft(k: Kernel, i: nat, j: nat, w: nat)
    requires Good(k, 2, 0, 1) && Occupied(k, i) && Occupied(k, j) && At(k, j).vm.Some?
    requires Occupied(k, w) && i != w && j != w && At(k, w).pid != At(k, j).pid
    ensures Left(k, LoadFor(k, i, j).k, w)
  {
    var fileId := At(k, i).fileId;
    RequestMemFrame(k, i, j);
    var k1 := AfterRequest(k, RES_MEM, i);
    LoadIntoGood(k1, j, fileId);
    LoadIntoLeft(k1, j, fileId, w);
    ReleaseMem(LoadInto(k1, j, fileId));
    LoadedLeft(k, k1, LoadInto(k1, j, fileId), j, w);
  }

  lemma LoadedLeft(k: Kernel, k1: Kernel, k2: Kernel, j: nat, w: nat)
    requires Left(k, k1, w) && Left(k1, k2, w) && Occupied(k2, j) && j != w
    requires ReleaseRes(k2, RES_MEM).slots == k2.slots
    ensures Left(k, ReleaseRes(k2, RES_MEM), w)
    ensures Left(k, FinishLoad(ReleaseRes(k2, RES_MEM), j), w)
  {
    LeftTrans(k, k1, k2, w);
  }

  /** A loader leaves alone every process but itself and its parent. */
  lemma LoaderLeft(k: Kernel, i: nat, w: nat)
    requires Good(k, 2, 0, 1) && Occupied(k, i) && Occupied(k, w) && i != w && At(k, i).parentPid != At(k, w).pid
    ensures Left(k, RunLoader(k, i).k, w)
  {
    var parent := LowestSlot(k.slots, HasPid(At(k, i).parentPid));
    if parent.Some? && At(k, parent.value).vm.Some? {
      LoadForLeft(k, i, parent.value, w);
    }
  }

  lemma SuspendLeft(k: Kernel, i: nat, w: nat)
    requires Occupied(k, i) && At(k, i).vm.Some? && Occupied(k, w) && i != w
    ensures Left(k, SuspendVm(k, i), w)
  {
    var vm := At(k, i).vm.value;
    EnqueueLeft(k, i, vm.trapCode, vm.trapR0, vm.trapR1, vm.trapR2, w);
  }

  lemma ExecuteLeft(k: Kernel, i: nat, w: nat)
    requires Occupied(k, i) && At(k, i).vm.Some? && Occupied(k, w) && i != w && At(k, w).pid != At(k, i).pid
    ensures Left(k, ExecuteVm(k, i), w)
  {
    var p := At(k, i);
    var o := RunOperations(p.vm.value);
    var k1 := Put(k, i, p.(vm := Some(o.vm))).(lastTrapPid := p.pid);
    assert Left(k, k1, w);
    if o.rc == RC_TRAPPED {
      SuspendLeft(k1, i, w);
      LeftTrans(k, k1, SuspendVm(k1, i), w);
    } else {
      RemoveLeft(k1, p.pid, w);
    }
  }

  lemma ExecuteThenRelease(k: Kernel, k1: Kernel, i: nat, w: nat)
    requires Good(k1, 1, 0, 1) && Occupied(k1, i) && At(k1, i).vm.Some? && Left(k, k1, w)
    requires i != w && At(k1, w).pid != At(k1, i).pid
    ensures Left(k, ReleaseRes(ExecuteVm(k1, i), RES_MEM), w)
  {
    ExecuteVmGood(k1, i);
    ExecuteLeft(k1, i, w);
    ReleaseMem(ExecuteVm(k1, i));
    LeftTrans(k, k1, ExecuteVm(k1, i), w);
  }

  lemma ParkThenRelease(k: Kernel, k1: Kernel, i: nat, st: ProcState, w: nat)
    requires Good(k1, 1, 0, 1) && Occupied(k1, i) && Left(k, k1, w) && i != w
    ensures Left(k, ReleaseRes(SetState(k1, i, st), RES_MEM), w)
  {
    PutGood(k1, i, At(k1, i).(state := st), 1, 0, 1);
    ReleaseMem(SetState(k1, i, st));
  }

  /** A machine about to run: its context loaded and the memory unit held. */
  lemma MemoryHeld(k: Kernel, i: nat, w: nat)
    requires Good(k, 2, 0, 1) && k.current == Some(i) && Occupied(k, i) && Occupied(k, w) && i != w
    ensures
      var k2 := AfterRequest(LoadContext(k, i), RES_MEM, i);
      && Grants(LoadContext(k, i), RES_MEM) && Good(k2, 1, 0, 1) && Left(k, k2, w) && Occupied(k2, i)
      && SameIdentity(At(k, i), At(k2, i)) && At(k2, i).vm == At(k, i).vm
      && At(k2, i).swapped == At(k, i).swapped && At(k2, i).swapSlot == At(k, i).swapSlot
      && k2.disk == k.disk && k2.history == k.history
  {
    LoadContextGood(k, i, 2, 0, 1);
    RequestMem(LoadContext(k, i), i);
  }

  lemma SwappedInGood(k: Kernel, i: nat, w: nat)
    requires Good(k, 1, 0, 1) && Occupied(k, i) && At(k, i).vm.Some? && Occupied(k, w) && i != w
    ensures Good(SwapInFirst(k, i), 1, 0, 1) && Left(k, SwapInFirst(k, i), w)
  {
    PutGood(k, i, At(SwapInFirst(k, i), i), 1, 0, 1);
  }

  lemma RunVmLeft(k: Kernel, i: nat, w: nat)
    requires Good(k, 2, 0, 1) && k.current == Some(i) && Occupied(k, i) && At(k, i).vm.Some?
    requires Occupied(k, w) && i != w && At(k, w).pid != At(k, i).pid
    ensures Left(k, RunVm(k, i), w)
  {
    hide Good, ExecuteVm;
    MemoryHeld(k, i, w);
    var k2 := AfterRequest(LoadContext(k, i), RES_MEM, i);
    if !At(k2, i).swapped {
      ExecuteThenRelease(k, k2, i, w);
    } else if CanSwap(k.disk, At(k2, i).swapSlot) {
      SwappedInGood(k2, i, w);
      LeftTrans(k, k2, SwapInFirst(k2, i), w);
      ExecuteThenRelease(k, SwapInFirst(k2, i), i, w);
    } else {
      ParkThenRelease(k, k2, i, SUSP_BLOCKED, w);
    }
  }

  lemma AfterEntryLeft(r: Return, i: nat, pid: Byte, w: nat)
    requires Occupied(r.k, w) && At(r.k, w).pid != pid && i != w
    ensures Left(r.k, AfterEntry(r, i, pid), w)
  {
    RemoveLeft(r.k, pid, w);
  }

  // The I/O handler

  /** The process keeps its machine, and at most is woken. */
  predicate MachineKept(k: Kernel, k': Kernel, w: nat) {
    && Occupied(k, w) && Occupied(k', w) && At(k', w).vm == At(k, w).vm && SameIdentity(At(k, w), At(k', w))
    && (At(k', w).state == READY || At(k', w).state == At(k, w).state)
  }

  lemma ReleaseKeepsMachine(k: Kernel, id: int, w: nat)
    requires Occupied(k, w)
    ensures MachineKept(k, ReleaseRes(k, id), w)
  {
  }

  lemma TransferKeepsMachine(k: Kernel, i: nat, req: IoRequest, w: nat)
    requires Occupied(k, i) && At(k, i).vm.Some? && Occupied(k, w) && i != w
    ensures MachineKept(k, Transfer(k, i, req), w) && Occupied(Transfer(k, i, req), i)
  {
  }

  /** Completing a request changes no machine but the requester's. */
  lemma CompletionKeepsMachine(k: Kernel, req: IoRequest, w: nat)
    requires Occupied(k, w) && Requester(k, req) != Some(w)
    ensures MachineKept(k, CompleteIo(k, req), w)
  {
    var i := Requester(k, req);
    if i.Some? {
      TransferKeepsMachine(k, i.value, req, w);
      ReleaseKeepsMachine(Transfer(k, i.value, req), RES_IO, w);
    }
  }

  /**
    A handler step changes no machine but that of the requester it completes;
    before the request is due it changes no slot.
    */
  lemma HandlerKeepsMachine(k: Kernel, w: nat, mem: int, cpu: int, tmr: int)
    requires Good(k, mem, cpu, tmr) && Occupied(k, w)
    requires !(Due(k) && Requester(k, k.pending[k.ioHead]) == Some(w))
    ensures MachineKept(k, IoHandler(k), w)
    ensures !Due(k) ==> IoHandler(k).slots == k.slots
  {
    if Due(k) {
      CompletionKeepsMachine(k, k.pending[k.ioHead], w);
    }
  }

  // Every dispatch

  predicate IsHandler(p: Process) {
    p.procType == IO_HANDLER && p.hasEntry
  }

  predicate IsStartStop(p: Process) {
    p.procType == START_STOP && p.hasEntry
  }

  predicate ShutsDown(k: Kernel, i: nat)
    requires Occupied(k, i)
  {
    IsStartStop(At(k, i)) && LowestSlot(k.slots, HasWork()).None?
  }

  /** The three ways in which the turn of slot `i` may reach the process in slot `w`. */
  predicate Reaches(k: Kernel, i: nat, w: nat)
    requires Occupied(k, i) && Occupied(k, w)
  {
    || (IsLoader(At(k, i)) && At(k, i).parentPid == At(k, w).pid)
    || (IsHandler(At(k, i)) && Due(k))
    || ShutsDown(k, i)
  }

  lemma EntryLeft(k: Kernel, i: nat, fired: bool, w: nat)
    requires Good(k, 2, 0, 1) && k.current == Some(i) && Occupied(k, i) && Occupied(k, w) && i != w
    requires At(k, i).hasEntry && !Reaches(k, i, w)
    ensures Left(k, RunEntry(k, i, fired).k, w)
  {
    match At(k, i).procType
    case START_STOP =>
    case IDLE =>
    case JOB_GOVERNOR => GovernorLeft(k, i, w);
    case LOADER => LoaderLeft(k, i, w);
    case IO_HANDLER =>
    case INTERRUPT_HANDLER => InterruptHandlerLeft(k, fired, i, w);
  }

  lemma TurnLeft(k: Kernel, i: nat, fired: bool, w: nat)
    requires Good(k, 2, 0, 1) && k.current == Some(i) && Occupied(k, i) && Occupied(k, w) && i != w
    requires k.added <= MAX_ADDS && !Reaches(k, i, w)
    ensures Left(k, TakeTurn(k, i, fired), w)
  {
    PidsDistinct(k, i, w);
    var p := At(k, i);
    if p.hasEntry {
      var r := RunEntry(k, i, fired);
      EntryLeft(k, i, fired, w);
      AfterEntryLeft(r, i, p.pid, w);
      LeftTrans(k, r.k, AfterEntry(r, i, p.pid), w);
    } else if p.vm.Some? {
      RunVmLeft(k, i, w);
    }
  }

  /** The state in which slot `i` takes its turn: prepared, and holding the CPU. */
  function TurnState(k: Kernel, i: nat): Kernel
    requires Occupied(k, i)
  {
    AfterRequest(Prologue(k, i), RES_CPU, i)
  }

  predicate TurnReaches(k: Kernel, i: nat, w: nat)
    requires Occupied(k, i)
  {
    var t := TurnState(k, i);
    Occupied(t, i) && Occupied(t, w) && Reaches(t, i, w)
  }

  /** A turn starts with the CPU unit held, and nothing else changed but a left-over current process. */
  lemma TurnStateIs(k: Kernel, i: nat)
    requires Resting(k) && Occupied(k, i)
    ensures
      var t := TurnState(k, i);
      && Grants(Prologue(k, i), RES_CPU) && Good(t, 2, 0, 1) && t.current == Some(i)
      && t.slots[i] == Some(At(k, i).(waitingResId := 0))
      && t.disk == k.disk && t.files == k.files && t.added == k.added && t.cpu == k.cpu
      && t.pending == k.pending && t.ioHead == k.ioHead && t.ioTail == k.ioTail
      && t.history == k.history.(turns := t.history.turns, saves := t.history.saves)
  {
    hide Good;
    PrologueGood(k, i);
    RequestCpu(Prologue(k, i), i);
  }

  lemma TurnStateLeft(k: Kernel, i: nat, w: nat)
    requires Resting(k) && Occupied(k, i) && Occupied(k, w) && i != w
    ensures
      var t := TurnState(k, i);
      && Grants(Prologue(k, i), RES_CPU) && Good(t, 2, 0, 1) && t.current == Some(i)
      && t.slots[i] == Some(At(k, i).(waitingResId := 0)) && Left(k, t, w)
      && t.disk == k.disk && t.files == k.files && t.added == k.added
      && t.pending == k.pending && t.ioHead == k.ioHead && t.ioTail == k.ioTail
      && t.history == k.history.(turns := t.history.turns, saves := t.history.saves)
  {
    TurnStateIs(k, i);
    PrologueLeft(k, i, w);
    LeftTrans(k, Prologue(k, i), TurnState(k, i), w);
  }

  lemma PrologueLeft(k: Kernel, i: nat, w: nat)
    requires Occupied(k, i) && Occupied(k, w) && i != w
    ensures Left(k, Prologue(k, i), w)
  {
  }

  lemma TurnReleases(k: Kernel, i: nat, fired: bool)
    requires Resting(k) && ReadyAt(k, i)
    ensures
      var t := TurnState(k, i);
      && Dispatch(k, i, fired).slots == TakeTurn(t, i, fired).slots
      && Dispatch(k, i, fired).current == TakeTurn(t, i, fired).current
      && Dispatch(k, i, fired).cpu == TakeTurn(t, i, fired).cpu
      && Dispatch(k, i, fired).disk == TakeTurn(t, i, fired).disk
      && Dispatch(k, i, fired).history == TakeTurn(t, i, fired).history
      && Dispatch(k, i, fired).added == TakeTurn(t, i, fired).added
      && Dispatch(k, i, fired).files == TakeTurn(t, i, fired).files
      && Dispatch(k, i, fired).ioHead == TakeTurn(t, i, fired).ioHead
      && Dispatch(k, i, fired).ioTail == TakeTurn(t, i, fired).ioTail
  {
    hide TakeTurn, Prologue;
    PrologueGood(k, i);
    RequestCpu(Prologue(k, i), i);
    TakeTurnGood(TurnState(k, i), i, fired);
    ReleaseCpu(TakeTurn(TurnState(k, i), i, fired));
  }

  /**
    Isolation: one iteration of the scheduler's loop leaves alone every process
    but the one whose turn it is, unless that one is the loader working for it,
    the I/O handler completing a request, or start-stop shutting down.
    */
  lemma DispatchLeaves(k: Kernel, i: nat, fired: bool, w: nat)
    requires Resting(k) && k.added <= MAX_ADDS && ReadyAt(k, i) && Occupied(k, w) && i != w
    requires !TurnReaches(k, i, w)
    ensures Left(k, Dispatch(k, i, fired), w)
  {
    var t := TurnState(k, i);
    TurnStateLeft(k, i, w);
    TurnLeft(t, i, fired, w);
    LeftTrans(k, t, TakeTurn(t, i, fired), w);
    TurnReleases(k, i, fired);
  }

  // What the three exceptions do

  /** What a loader makes of its parent. */
  function Filled(parent: Process, d: DiskState, files: seq<FileEntry>, fileId: Word): Process
    requires parent.vm.Some?
  {
    var p := parent.(vm := Some(LoadFile(parent.vm.value, d, files, fileId)));
    if LoadSucceeds(d, files, fileId) then p.(state := READY, loaded := LOADED) else p
  }

  /** A loader changes the table only by its own entry and its parent's. */
  lemma LoaderFills(k: Kernel, i: nat, w: nat)
    requires Good(k, 2, 0, 1) && Occupied(k, i) && Occupied(k, w) && i != w && k.added <= MAX_ADDS
    requires At(k, i).parentPid == At(k, w).pid && At(k, w).vm.Some?
    ensures
      var r := RunLoader(k, i);
      && r.rc == 0
      && r.k.slots == k.slots[i := Some(At(k, i).(waitingResId := 0))]
                      [w := Some(Filled(At(k, w), k.disk, k.files, At(k, i).fileId))]
  {
    var parent := LowestSlot(k.slots, HasPid(At(k, i).parentPid));
    assert HasPid(At(k, i).parentPid)(k.slots[w]);
    PidsDistinct(k, parent.value, w);
    LoadFills(k, i, w);
  }

  lemma LoadFills(k: Kernel, i: nat, w: nat)
    requires Good(k, 2, 0, 1) && Occupied(k, i) && Occupied(k, w) && i != w && k.added <= MAX_ADDS
    requires At(k, w).vm.Some?
    ensures
      var r := LoadFor(k, i, w);
      && r.rc == 0
      && r.k.slots == k.slots[i := Some(At(k, i).(waitingResId := 0))]
                      [w := Some(Filled(At(k, w), k.disk, k.files, At(k, i).fileId))]
  {
    hide Good, ReleaseRes;
    var fileId := At(k, i).fileId;
    RequestMem(k, i);
    var k1 := AfterRequest(k, RES_MEM, i);
    LoadIntoGood(k1, w, fileId);
    LoadIntoFills(k1, w, fileId);
    ReleaseMem(LoadInto(k1, w, fileId));
  }

  lemma LoadIntoFills(k: Kernel, w: nat, fileId: Word)
    requires Good(k, 1, 0, 1) && k.added <= MAX_ADDS && Occupied(k, w) && At(k, w).vm.Some?
    ensures
      var filled := Filled(At(k, w), k.disk, k.files, fileId);
      LoadInto(k, w, fileId).slots == k.slots[w := Some(filled.(loaded := At(k, w).loaded))]
  {
    var parent := At(k, w);
    var k1 := Put(k, w, parent.(vm := Some(LoadFile(parent.vm.value, k.disk, k.files, fileId))));
    PutGood(k, w, At(k1, w), 1, 0, 1);
    var found := LowestSlot(k1.slots, HasPid(parent.pid));
    assert HasPid(parent.pid)(k1.slots[w]);
    PidsDistinct(k1, found.value, w);
  }

  /** The table after a loader's turn: the parent filled, the loader gone, everybody else as before. */
  lemma FilledStays(k: Kernel, i: nat, fired: bool, w: nat)
    requires Good(k, 2, 0, 1) && k.added <= MAX_ADDS && Occupied(k, i) && Occupied(k, w) && i != w && At(k, w).vm.Some?
    requires IsLoader(At(k, i)) && At(k, i).parentPid == At(k, w).pid
    ensures TakeTurn(k, i, fired).slots ==
            k.slots[w := Some(Filled(At(k, w), k.disk, k.files, At(k, i).fileId))][i := None]
    ensures TakeTurn(k, i, fired).current == None
  {
    LoaderFills(k, i, w);
    LoaderTurnIs(k, i, fired);
    RunLoaderGood(k, i);
    LoaderStaysYoung(k, i);
    LoaderRemoved(k.slots, RunLoader(k, i).k, i, At(k, i).(waitingResId := 0), w,
                  Filled(At(k, w), k.disk, k.files, At(k, i).fileId));
  }

  lemma LoaderRemoved(s: Slots, k: Kernel, i: nat, l: Process, w: nat, p: Process)
    requires Good(k, 2, 0, 1) && k.added <= MAX_ADDS && i < MAX_PRIORITY && w < MAX_PRIORITY && i != w
    requires k.slots == s[i := Some(l)][w := Some(p)]
    ensures RemoveProc(k, l.pid).slots == s[w := Some(p)][i := None]
  {
    RemovesWhileDistinct(k, i, 2, 0, 1);
    assert s[i := Some(l)][w := Some(p)][i := None] == s[w := Some(p)][i := None];
  }

  lemma LoaderStaysYoung(k: Kernel, i: nat)
    requires Good(k, 2, 0, 1) && Occupied(k, i)
    ensures RunLoader(k, i).k.added == k.added
  {
    var parent := LowestSlot(k.slots, HasPid(At(k, i).parentPid));
    if parent.Some? && At(k, parent.value).vm.Some? {
      LoadingUndisturbed(k, i, parent.value);
    }
  }

  lemma LoaderTurnIs(k: Kernel, i: nat, fired: bool)
    requires Occupied(k, i) && IsLoader(At(k, i)) && RunLoader(k, i).rc == 0
    ensures TakeTurn(k, i, fired) == RemoveProc(RunLoader(k, i).k, At(k, i).pid).(current := None)
  {
  }

  /** A loader's turn: its parent gets exactly the image of the loader's file, or what fits of it, and nothing else. */
  lemma LoaderFillsParent(k: Kernel, i: nat, fired: bool, w: nat)
    requires Resting(k) && k.added <= MAX_ADDS && ReadyAt(k, i) && Occupied(k, w) && i != w && At(k, w).vm.Some?
    requires IsLoader(At(k, i)) && At(k, i).parentPid == At(k, w).pid
    ensures
      var k' := Dispatch(k, i, fired);
      var fileId := At(k, i).fileId;
      && Occupied(k', w) && At(k', w).vm == Some(LoadFile(At(k, w).vm.value, k.disk, k.files, fileId))
      && (LoadSucceeds(k.disk, k.files, fileId) ==> At(k', w).loaded == LOADED && At(k', w).state == READY)
      && (!LoadSucceeds(k.disk, k.files, fileId) ==> At(k', w).loaded == At(k, w).loaded)
  {
    hide Good, AfterRequest;
    TurnStateLeft(k, i, w);
    FilledStays(TurnState(k, i), i, fired, w);
    TurnReleases(k, i, fired);
  }

  predicate Completes(k: Kernel, w: nat) {
    Due(k) && Requester(k, k.pending[k.ioHead]) == Some(w)
  }

  lemma HandlerTurnIs(k: Kernel, i: nat, fired: bool, w: nat)
    requires Occupied(k, i) && IsHandler(At(k, i)) && i != w && w < MAX_PRIORITY
    ensures TakeTurn(k, i, fired).slots[w] == IoHandler(k).slots[w] && TakeTurn(k, i, fired).disk == IoHandler(k).disk
  {
  }

  /** A completed request: the requester is served as it asked, and is ready again. */
  predicate ServedAt(k: Kernel, k': Kernel, w: nat)
    requires Completes(k, w)
  {
    && Occupied(k', w) && At(k', w).vm.Some? && At(k', w).state == READY
    && Served(At(k, w).vm.value.memory, At(k', w).vm.value.memory, k.pending[k.ioHead], k.disk, k'.disk)
  }

  lemma HandlerTurnServes(k: Kernel, i: nat, fired: bool, w: nat)
    requires Good(k, 2, 0, 1) && Occupied(k, i) && IsHandler(At(k, i)) && i != w && Completes(k, w)
    ensures ServedAt(k, TakeTurn(k, i, fired), w)
  {
    CompletionServes(k, w, 2, 0, 1);
    HandlerTurnIs(k, i, fired, w);
  }

  lemma HandlerTurnKeeps(k: Kernel, i: nat, fired: bool, w: nat)
    requires Good(k, 2, 0, 1) && Occupied(k, i) && IsHandler(At(k, i)) && Occupied(k, w) && i != w && !Completes(k, w)
    ensures Occupied(TakeTurn(k, i, fired), w) && At(TakeTurn(k, i, fired), w).vm == At(k, w).vm
  {
    HandlerKeepsMachine(k, w, 2, 0, 1);
    HandlerTurnIs(k, i, fired, w);
  }

  /**
    The I/O handler's turn: only the machine of the requester it completes
    changes, and that one exactly as the request says.
    */
  lemma HandlerServesOnly(k: Kernel, i: nat, fired: bool, w: nat)
    requires Resting(k) && ReadyAt(k, i) && Occupied(k, w) && i != w && IsHandler(At(k, i))
    ensures Completes(k, w) ==> ServedAt(k, Dispatch(k, i, fired), w)
    ensures !Completes(k, w) ==> Occupied(Dispatch(k, i, fired), w) && At(Dispatch(k, i, fired), w).vm == At(k, w).vm
  {
    var t := TurnState(k, i);
    TurnStateLeft(k, i, w);
    RequesterStays(k, i, w);
    if Completes(k, w) {
      HandlerTurnServes(t, i, fired, w);
    } else {
      HandlerTurnKeeps(t, i, fired, w);
    }
    TurnReleases(k, i, fired);
  }

  /** Preparing a turn does not change whose request it is. */
  lemma RequesterStays(k: Kernel, i: nat, w: nat)
    requires Resting(k) && Occupied(k, i) && Occupied(k, w) && i != w
    ensures Completes(TurnState(k, i), w) <==> Completes(k, w)
  {
    var t := TurnState(k, i);
    TurnStateLeft(k, i, w);
    if Due(k) {
      RequesterIs(k, w);
      RequesterIs(t, w);
    }
  }

  /** In a well-formed table the requester is the one process with that serial number. */
  lemma RequesterIs(k: Kernel, w: nat)
    requires TableOk(k.slots, k.prioMin, k.prioMax, k.lastPid, k.added) && Occupied(k, w) && Due(k)
    ensures Requester(k, k.pending[k.ioHead]) == Some(w) <==>
            At(k, w).serial == k.pending[k.ioHead].proc.value && At(k, w).vm.Some?
  {
    var n := k.pending[k.ioHead].proc.value;
    var found := LowestSlot(k.slots, HasSerial(n));
    if At(k, w).serial == n {
      assert HasSerial(n)(k.slots[w]);
      SerialUnique(k, w);
    }
  }
}
