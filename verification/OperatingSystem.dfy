/**
  The kernel in the source's own form: global tables updated in place by loops
  and assignments. Every method is proved to do exactly what the corresponding
  function of `KernelModel` says.
  */
module OperatingSystem {
  import opened Words
  import opened Isa
  import opened Disk
  import opened RealMachine
  import opened VirtualMachine
  import opened Loader
  import opened Swapper
  import opened DiskTraffic
  import opened Resources
  import opened KernelModel

  class Os {
    const schedule: array<Slot>
    var current: Option<nat>
    var prioMin: int
    var prioMax: int
    var lastPid: Byte
    var added: nat
    var realCpu: Cpu
    var disk: DiskState
    var files: seq<FileEntry>
    var res: seq<Resource>
    const pendingIo: array<IoRequest>
    var ioHead: nat
    var ioTail: nat
    var lastVm: Option<nat>
    var lastTrapPid: Word
    var lastPi: Word
    var lastSi: Word
    var lastTi: Word
    ghost var history: History

    ghost predicate Valid()
      reads this
    {
      schedule.Length == MAX_PRIORITY && pendingIo.Length == RING_SIZE && ioHead < RING_SIZE && ioTail < RING_SIZE
    }

    ghost function State(): Kernel
      reads this, schedule, pendingIo
      requires Valid()
    {
      Kernel(schedule[..], current, prioMin, prioMax, lastPid, added, realCpu, disk, files, res,
             pendingIo[..], ioHead, ioTail, lastVm, lastTrapPid, lastPi, lastSi, lastTi, history)
    }

    constructor (storage: Storage, files: seq<FileEntry>)
      ensures Valid() && fresh(schedule) && fresh(pendingIo) && State() == Boot(storage, files)
    {
      schedule := new Slot[MAX_PRIORITY](i => if i == SCHEDULER_SLOT then Some(SCHEDULER_PROCESS) else None);
      pendingIo := new IoRequest[RING_SIZE](i => IoRequest(None, 0, 0, 0, 0, 0));
      current, prioMin, prioMax, lastPid, added := None, SCHEDULER_SLOT, SCHEDULER_SLOT, 97, 0;
      realCpu := ZERO_CPU.(mode := MODE_SUPERVISOR, ptr := 240);
      disk, this.files, res := DiskState(storage, false), files, BootResources();
      ioHead, ioTail := 0, 0;
      lastVm, lastTrapPid, lastPi, lastSi, lastTi := None, 0, 0, 0, 0;
      history := History([], [], [], [], [], [], false);
      new;
      assert schedule[..] == BootSlots();
    }

    // Scans

    method ScanUp(test: Slot -> bool) returns (r: Option<nat>)
      requires Valid()
      ensures r == LowestSlot(State().slots, test)
    {
      for i := 0 to MAX_PRIORITY
        invariant LowestSlot(State().slots, test) == LowestSlot(State().slots, test, i)
      {
        if test(schedule[i]) { return Some(i); }
      }
      return None;
    }

    method ScanDown(test: Slot -> bool, hi: int, lo: int) returns (r: Option<nat>)
      requires Valid() && hi < MAX_PRIORITY && 0 <= lo
      ensures r == HighestSlot(State().slots, test, hi, lo)
    {
      var i := hi;
      while i >= lo
        invariant i <= hi
        invariant HighestSlot(State().slots, test, hi, lo) == HighestSlot(State().slots, test, i, lo)
      {
        if test(schedule[i]) { return Some(i); }
        i := i - 1;
      }
      return None;
    }

    // Processes

    method FindPlace(sysProc: bool) returns (place: Option<nat>)
      requires Valid()
      ensures place == PlaceFor(State(), sysProc)
    {
      place := None;
      if !sysProc {
        place := ScanDown(IsFree(), FIRST_SYSTEM_SLOT - 1, 1);
      } else if prioMax < MAX_PRIORITY {
        place := ScanDown(IsFree(), prioMax, FIRST_SYSTEM_SLOT);
      }
    }

    /** Puts a process into a slot and widens the priority bounds. */
    method Insert(i: nat, p: Process)
      requires Valid() && i < MAX_PRIORITY
      modifies this`prioMin, this`prioMax, schedule
      ensures State() == old(Put(State(), i, p).(prioMin := if i < prioMin then i else prioMin,
                                                 prioMax := if p.sysProc && i > prioMax then i else prioMax))
    {
      schedule[i] := Some(p);
      prioMax := if p.sysProc && i > prioMax then i else prioMax;
      prioMin := if i < prioMin then i else prioMin;
    }

    method AddProcess(n: NewProcess)
      requires Valid()
      modifies this`lastPid, this`added, this`prioMin, this`prioMax, schedule
      ensures State() == old(AddProc(State(), n))
    {
      var place := FindPlace(n.sysProc);
      lastPid := Wrap8(lastPid + 1);
      added := added + 1;
      if place.Some? {
        Insert(place.value, Process(added, lastPid, n.sysProc, n.procType, n.hasEntry, READY, ZERO_CPU,
                                    n.vm, n.fileId, n.parentPid, NOT_REQUESTED, 0, false, n.swapSlot));
      }
    }

    method RemoveProcess(pid: Byte)
      requires Valid()
      modifies schedule
      ensures State() == old(RemoveProc(State(), pid))
    {
      if pid == 0 { return; }
      var i := ScanUp(HasPid(pid));
      if i.Some? {
        schedule[i.value] := None;
      }
    }

    method ChangeState(i: nat, st: ProcState)
      requires Valid() && Occupied(State(), i)
      modifies schedule
      ensures State() == old(SetState(State(), i, st))
    {
      schedule[i] := Some(schedule[i].value.(state := st));
    }

    method BlockTheCurrent()
      requires Valid()
      modifies this`current, schedule
      ensures State() == old(BlockCurrent(State()))
    {
      if current.Some? && current.value < MAX_PRIORITY && schedule[current.value].Some? {
        ChangeState(current.value, BLOCKED);
        current := None;
      }
    }

    method Unblock(pid: Byte)
      requires Valid()
      modifies schedule
      ensures State() == old(UnblockProcess(State(), pid))
    {
      var i := ScanUp(HasPid(pid));
      if i.Some? { ChangeState(i.value, READY); }
    }

    method WakeProcessByType(t: ProcType)
      requires Valid()
      modifies schedule
      ensures State() == old(WakeByType(State(), t))
    {
      var i := ScanUp(BlockedOfType(t));
      if i.Some? { ChangeState(i.value, READY); }
    }

    // Context switching

    method Save(i: nat)
      requires Valid() && Occupied(State(), i)
      modifies this`history, schedule
      ensures State() == old(SaveContext(State(), i))
    {
      history := history.(saves := history.saves + [KernelModel.Save(schedule[i].value.serial, realCpu)]);
      schedule[i] := Some(schedule[i].value.(context := realCpu, state := READY));
    }

    method Restore(i: nat)
      requires Valid() && Occupied(State(), i)
      modifies this`realCpu, schedule
      ensures State() == old(LoadContext(State(), i))
    {
      realCpu := schedule[i].value.context;
      schedule[i] := Some(schedule[i].value.(state := RUNNING));
    }

    method SaveRunning()
      requires Valid()
      modifies this`history, schedule
      ensures State() == old(SwitchOut(State()))
    {
      if current.Some? && current.value < MAX_PRIORITY && schedule[current.value].Some?
         && schedule[current.value].value.state == RUNNING {
        Save(current.value);
      }
    }

    method SwitchContext()
      requires Valid()
      modifies this`realCpu, this`current, this`history, schedule
      ensures State() == old(ContextSwitch(State()))
    {
      SaveRunning();
      if prioMax < MAX_PRIORITY && 0 <= prioMin {
        var next := ScanDown(Runnable(), prioMax, prioMin);
        if next.Some? {
          Restore(next.value);
          current := next;
        }
      }
    }

    // Resources

    method RequestResource(id: int, i: nat) returns (granted: bool)
      requires Valid() && Occupied(State(), i)
      modifies this`res, this`history, schedule
      ensures granted == old(Grants(State(), id)) && State() == old(AfterRequest(State(), id, i))
    {
      var p := schedule[i].value;
      var (rs, answer) := RequestUnit(res, id, p.pid);
      res := rs;
      granted := answer == Granted;
      if answer == Granted {
        schedule[i] := Some(p.(waitingResId := 0));
      } else if answer != Missing {
        schedule[i] := Some(p.(waitingResId := Wrap8(id), state := SUSP_BLOCKED));
        history := history.(denied := history.denied + [id]);
      }
    }

    method ReleaseResource(id: int)
      requires Valid()
      modifies this`res, schedule
      ensures State() == old(ReleaseRes(State(), id))
    {
      var (rs, woken) := ReleaseUnit(res, id);
      res := rs;
      if woken.Some? {
        var i := ScanUp(HasPid(woken.value));
        if i.Some? {
          schedule[i.value] := Some(schedule[i.value].value.(state := READY, waitingResId := 0));
        }
      }
    }

    // The I/O ring

    method EnqueueIoRequest(i: nat, code: Word, r0: Word, r1: Word, r2: Word) returns (queued: bool)
      requires Valid() && Occupied(State(), i)
      modifies this`res, this`history, this`ioTail, schedule, pendingIo
      ensures Valid()
      ensures queued == old(AcceptsIo(State())) && State() == old(EnqueueIo(State(), i, code, r0, r1, r2))
    {
      var p := schedule[i].value;
      var granted := RequestResource(RES_IO, i);
      if !granted { return false; }
      var next := (ioTail + 1) % RING_SIZE;
      if next == ioHead {
        res := ReleaseUnit(res, RES_IO).0;
        return false;
      }
      AppendRequest(i, p, IoRequest(Some(p.serial), code, r0, r1, r2, 1));
      return true;
    }

    /** Puts a request into the ring and its requester to sleep. */
    method AppendRequest(i: nat, p: Process, req: IoRequest)
      requires Valid() && i < MAX_PRIORITY && req.proc.Some?
      modifies this`ioTail, this`history, schedule, pendingIo
      ensures Valid()
      ensures State() == old(Put(State(), i, p.(state := BLOCKED, waitingResId := RES_IO)).(
                                 pending := State().pending[ioTail := req], ioTail := NextIndex(ioTail),
                                 history := history.(io := history.io + [Accepted(AskOf(req))])))
    {
      pendingIo[ioTail] := req;
      ioTail := (ioTail + 1) % RING_SIZE;
      schedule[i] := Some(p.(state := BLOCKED, waitingResId := RES_IO));
      history := history.(io := history.io + [Accepted(AskOf(req))]);
    }

    method PerformTransfer(i: nat, req: IoRequest)
      requires Valid() && Occupied(State(), i) && At(State(), i).vm.Some?
      modifies this`disk, schedule
      ensures State() == old(Transfer(State(), i, req))
    {
      var p := schedule[i].value;
      var vm := p.vm.value;
      if req.code == SI_READ {
        schedule[i] := Some(p.(vm := Some(vm.(memory := ReadTransfer(vm.memory, disk, req.r0, req.r1, req.r2)))));
      } else if req.code == SI_WRITE {
        disk := WriteTransfer(disk, vm.memory, req.r0, req.r1, req.r2);
      }
    }

    method CompleteRequest(req: IoRequest)
      requires Valid()
      modifies this`disk, this`res, schedule
      ensures State() == old(CompleteIo(State(), req))
    {
      if req.proc.None? { return; }
      var i := ScanUp(HasSerial(req.proc.value));
      if i.None? || schedule[i.value].value.vm.None? { return; }
      PerformTransfer(i.value, req);
      ReleaseResource(RES_IO);
      if schedule[i.value].Some? {
        schedule[i.value] := Some(schedule[i.value].value.(state := READY, waitingResId := 0));
      }
    }

    /** Completes the request at the head of the ring and takes it off. */
    method FinishRequest(req: IoRequest)
      requires Valid()
      modifies this`disk, this`res, this`ioHead, schedule, pendingIo
      ensures Valid()
      ensures State() == old(CompleteIo(State(), req).(
                                 pending := State().pending[ioHead := req.(proc := None, code := 0)],
                                 ioHead := NextIndex(ioHead)))
    {
      CompleteRequest(req);
      pendingIo[ioHead] := req.(proc := None, code := 0);
      ioHead := (ioHead + 1) % RING_SIZE;
    }

    method StepRing()
      requires Valid()
      modifies this`disk, this`res, this`ioHead, schedule, pendingIo
      ensures Valid() && State() == old(StepIo(State()))
    {
      if ioHead != ioTail {
        var req := pendingIo[ioHead];
        if req.proc.None? || req.code == 0 {
          ioHead := (ioHead + 1) % RING_SIZE;
        } else if req.ticks > 0 {
          pendingIo[ioHead] := req.(ticks := req.ticks - 1);
        } else {
          FinishRequest(req);
        }
      }
    }

    method IoHandlerEntry()
      requires Valid()
      modifies this`disk, this`res, this`ioHead, this`history, schedule, pendingIo
      ensures Valid() && State() == old(IoHandler(State()))
    {
      ghost var events := HandlerEvents(State());
      StepRing();
      history := history.(io := history.io + events);
    }

    // Interrupts

    method CurrentMayBlock() returns (yes: bool)
      requires Valid()
      ensures yes == CurrentCanBlock(State())
    {
      yes := current.Some? && current.value < MAX_PRIORITY && schedule[current.value].Some?
      && schedule[current.value].value.procType != INTERRUPT_HANDLER;
    }

    method BlockIfAllowed()
      requires Valid()
      modifies this`current, schedule
      ensures State() == old(BlockIfPossible(State()))
    {
      var canBlock := CurrentMayBlock();
      if canBlock { BlockTheCurrent(); }
    }

    method BlockTheRequester(c: nat, canBlock: bool)
      requires Valid()
      modifies this`current, schedule
      ensures State() == old(BlockRequester(State(), c, canBlock))
    {
      if canBlock && c < MAX_PRIORITY && schedule[c].Some? && schedule[c].value.state != SUSP_BLOCKED {
        BlockTheCurrent();
      }
    }

    method SystemRequest()
      requires Valid()
      modifies this`lastSi, this`realCpu, this`res, this`history, this`ioTail, this`current, schedule, pendingIo
      ensures Valid() && State() == old(HandleSystemRequest(State()))
    {
      var canBlock := CurrentMayBlock();
      lastSi := realCpu.si;
      realCpu := realCpu.(si := SI_NONE);
      if current.Some? && current.value < MAX_PRIORITY && schedule[current.value].Some? {
        var c := current.value;
        var _ := EnqueueIoRequest(c, lastSi, realCpu.r[0], realCpu.r[1], realCpu.r[2]);
        BlockTheRequester(c, canBlock);
        WakeProcessByType(IO_HANDLER);
      }
    }

    method TimerBranch()
      requires Valid()
      modifies this`realCpu, this`lastTi, this`current, this`history, schedule
      ensures State() == old(HandleTimer(State()))
    {
      lastTi := realCpu.ti;
      if realCpu.ti == TI_EXPIRED {
        realCpu := realCpu.(ti := TI_NONE);
        SwitchContext();
      } else if realCpu.ti != TI_NONE {
        realCpu := realCpu.(ti := TI_NONE);
      }
    }

    method Latch(fired: bool)
      requires Valid()
      modifies this`lastTrapPid, this`realCpu
      ensures State() == old(LatchTimer(State(), fired))
    {
      if current.Some? && current.value < MAX_PRIORITY && schedule[current.value].Some? {
        lastTrapPid := schedule[current.value].value.pid;
      }
      if fired { realCpu := realCpu.(ti := TI_EXPIRED); }
    }

    method KernelHandle(fired: bool)
      requires Valid()
      modifies this, schedule, pendingIo
      ensures Valid() && State() == old(KernelHandleInterrupts(State(), fired))
    {
      Latch(fired);
      HandleByPriority();
    }

    method HandleByPriority()
      requires Valid()
      modifies this, schedule, pendingIo
      ensures Valid() && State() == old(HandleLatched(State()))
    {
      hide BlockIfPossible, HandleSystemRequest, HandleTimer;
      if realCpu.pi != PI_NONE {
        lastPi := realCpu.pi;
        realCpu := realCpu.(pi := PI_NONE);
        BlockIfAllowed();
      } else if realCpu.si == SI_HALT {
        lastSi := realCpu.si;
        realCpu := realCpu.(si := SI_NONE);
        BlockIfAllowed();
      } else if realCpu.si == SI_READ || realCpu.si == SI_WRITE || realCpu.si == SI_SYS {
        SystemRequest();
      } else {
        if realCpu.si == SI_NONE { lastSi := SI_NONE; }
        TimerBranch();
      }
    }

    method FindVmOwner() returns (owner: Option<nat>)
      requires Valid()
      ensures owner == VmOwner(State()) && (owner.Some? ==> Occupied(State(), owner.value))
    {
      if lastVm.Some? {
        owner := ScanUp(HasSerial(lastVm.value));
      } else if lastTrapPid != 0 {
        owner := ScanUp(HasPid(Wrap8(lastTrapPid)));
      } else {
        owner := None;
      }
    }

    method Retire(i: nat)
      requires Valid() && Occupied(State(), i)
      modifies schedule
      ensures State() == old(RetireVm(State(), i))
    {
      var p := schedule[i].value;
      schedule[i] := Some(p.(vm := None, loaded := DONE, state := READY));
      if p.parentPid != 0 { Unblock(p.parentPid); }
    }

    method HandleSi()
      requires Valid()
      modifies schedule
      ensures State() == old(ReactToSi(State()))
    {
      if lastSi == SI_READ || lastSi == SI_WRITE { WakeProcessByType(IO_HANDLER); }
      if lastSi == SI_HALT {
        var owner := FindVmOwner();
        if owner.Some? { Retire(owner.value); }
      }
    }

    method HandlePi()
      requires Valid()
      modifies schedule
      ensures State() == old(ReactToPi(State()))
    {
      hide WakeByType, RetireVm, VmOwner;
      if lastPi != PI_NONE {
        WakeProcessByType(JOB_GOVERNOR);
        var owner := FindVmOwner();
        if owner.Some? && schedule[owner.value].value.vm.Some? { Retire(owner.value); }
      }
    }

    method AskForTimer() returns (held: bool)
      requires Valid()
      modifies this`res, this`history, schedule
      ensures held == old(TimerGranted(State())) && State() == old(ClaimTimer(State()))
    {
      held := false;
      if current.Some? && current.value < MAX_PRIORITY && schedule[current.value].Some? {
        held := RequestResource(RES_TMR, current.value);
      }
    }

    method ReactAndClear()
      requires Valid()
      modifies this`lastPi, this`lastSi, this`lastTi, schedule
      ensures State() == old(React(State()))
    {
      HandleSi();
      HandlePi();
      lastPi, lastSi, lastTi := 0, 0, 0;
    }

    method ServiceInterrupts(fired: bool)
      requires Valid()
      modifies this, schedule, pendingIo
      ensures Valid() && State() == old(Service(State(), fired))
    {
      KernelHandle(fired);
      ReactAndClear();
    }

    method InterruptHandlerEntry(fired: bool)
      requires Valid()
      modifies this, schedule, pendingIo
      ensures Valid() && State() == old(InterruptHandler(State(), fired))
    {
      var held := AskForTimer();
      ServiceInterrupts(fired);
      if held { ReleaseResource(RES_TMR); }
    }

    // Process entries

    ghost method Record(e: GovernorEvent)
      requires Valid()
      modifies this`history
      ensures State() == old(Log(State(), e))
    {
      history := history.(governors := history.governors + [e]);
    }

    method RunGovernor(i: nat) returns (rc: int)
      requires Valid() && Occupied(State(), i) && At(State(), i).vm.Some?
      modifies this, schedule, pendingIo
      ensures Valid() && Return(State(), rc) == old(RunGovernorVm(State(), i))
    {
      var p := schedule[i].value;
      var o := RunOperations(p.vm.value);
      Record(VmRan(p.serial));
      if o.rc == RC_TRAPPED {
        schedule[i] := Some(p.(vm := Some(o.vm)));
        var _ := EnqueueIoRequest(i, o.vm.trapCode, o.vm.trapR0, o.vm.trapR1, o.vm.trapR2);
        if schedule[i].Some? {
          ChangeState(i, BLOCKED);
          current := None;
        }
        return -1;
      }
      schedule[i] := Some(p.(vm := None, loaded := DONE));
      Record(Finished(p.serial));
      return 0;
    }

    method JobGovernorEntry(i: nat) returns (rc: int)
      requires Valid() && Occupied(State(), i)
      modifies this, schedule, pendingIo
      ensures Valid() && Return(State(), rc) == old(JobGovernor(State(), i))
    {
      var p := schedule[i].value;
      if p.vm.None? { return 0; }
      if p.loaded == NOT_REQUESTED {
        AddProcess(LoaderFor(p));
        Record(LoadRequested(p.serial));
        schedule[i] := Some(p.(loaded := LOADING, state := BLOCKED));
        current := None;
        return -1;
      }
      if p.loaded == LOADING {
        ChangeState(i, BLOCKED);
        current := None;
        return -1;
      }
      if p.loaded == LOADED {
        rc := RunGovernor(i);
        return rc;
      }
      return 0;
    }

    method LoadParent(j: nat, fileId: Word) returns (ok: bool)
      requires Valid() && Occupied(State(), j) && At(State(), j).vm.Some?
      modifies schedule
      ensures ok == LoadSucceeds(disk, files, fileId) && State() == old(LoadInto(State(), j, fileId))
    {
      var parent := schedule[j].value;
      schedule[j] := Some(parent.(vm := Some(LoadFile(parent.vm.value, disk, files, fileId))));
      ok := LoadSucceeds(disk, files, fileId);
      if ok { Unblock(parent.pid); }
    }

    method MarkLoaded(j: nat)
      requires Valid() && Occupied(State(), j)
      modifies this`history, schedule
      ensures State() == old(FinishLoad(State(), j))
    {
      var g := schedule[j].value;
      schedule[j] := Some(g.(loaded := LOADED, state := READY));
      Record(ImageLoaded(g.serial));
    }

    method LoadForParent(i: nat, j: nat) returns (rc: int)
      requires Valid() && Occupied(State(), i) && Occupied(State(), j) && At(State(), j).vm.Some?
      modifies this`res, this`history, schedule
      ensures Return(State(), rc) == old(LoadFor(State(), i, j))
    {
      var fileId := schedule[i].value.fileId;
      var granted := RequestResource(RES_MEM, i);
      if !granted {
        ChangeState(i, BLOCKED);
        return 0;
      }
      var ok := LoadParent(j, fileId);
      ReleaseResource(RES_MEM);
      if ok && schedule[j].Some? { MarkLoaded(j); }
      return 0;
    }

    method LoaderEntry(i: nat) returns (rc: int)
      requires Valid() && Occupied(State(), i)
      modifies this`res, this`history, schedule
      ensures Return(State(), rc) == old(RunLoader(State(), i))
    {
      var parent := ScanUp(HasPid(schedule[i].value.parentPid));
      if parent.None? || schedule[parent.value].value.vm.None? { return 0; }
      rc := LoadForParent(i, parent.value);
    }

    /** Clears every slot that does not hold a start-stop process. */
    method ClearTable()
      requires Valid()
      modifies schedule
      ensures schedule[..] == Shutdown(old(schedule[..]))
    {
      for p := 0 to MAX_PRIORITY
        invariant forall q :: 0 <= q < p ==> schedule[q] == Survivor(old(schedule[q]))
        invariant forall q :: p <= q < MAX_PRIORITY ==> schedule[q] == old(schedule[q])
      {
        if schedule[p].Some? && schedule[p].value.procType != START_STOP {
          schedule[p] := None;
        }
      }
    }

    method StartStopEntry() returns (rc: int)
      requires Valid()
      modifies this`history, schedule
      ensures Return(State(), rc) == old(StartStop(State()))
    {
      var work := ScanUp(HasWork());
      if work.Some? { return 1; }
      ClearTable();
      history := history.(shutDown := true);
      return 0;
    }

    method CallEntry(i: nat, fired: bool) returns (rc: int)
      requires Valid() && Occupied(State(), i)
      modifies this, schedule, pendingIo
      ensures Valid() && Return(State(), rc) == old(RunEntry(State(), i, fired))
    {
      match schedule[i].value.procType {
        case START_STOP => rc := StartStopEntry();
        case IDLE => rc := 1;
        case JOB_GOVERNOR => rc := JobGovernorEntry(i);
        case LOADER => rc := LoaderEntry(i);
        case IO_HANDLER =>
          IoHandlerEntry();
          rc := 1;
        case INTERRUPT_HANDLER =>
          InterruptHandlerEntry(fired);
          rc := 1;
      }
    }

    // Dispatching

    method FinishEntry(i: nat, pid: Byte, rc: int)
      requires Valid() && i < MAX_PRIORITY
      modifies this`current, schedule
      ensures State() == old(AfterEntry(Return(State(), rc), i, pid))
    {
      if rc == 0 {
        RemoveProcess(pid);
      } else if schedule[i].Some? {
        ChangeState(i, if rc < 0 then BLOCKED else READY);
      }
      current := None;
    }

    method Suspend(i: nat)
      requires Valid() && Occupied(State(), i) && At(State(), i).vm.Some?
      modifies this, schedule, pendingIo
      ensures Valid() && State() == old(SuspendVm(State(), i))
    {
      hide EnqueueIo, CanSwap, SwapOut;
      var vm := schedule[i].value.vm.value;
      var queued := EnqueueIoRequest(i, vm.trapCode, vm.trapR0, vm.trapR1, vm.trapR2);
      if schedule[i].Some? {
        var p := schedule[i].value;
        if queued && !p.swapped && CanSwap(disk, p.swapSlot) {
          disk := SwapOut(disk, vm.memory, p.swapSlot);
          p := p.(swapped := true);
          history := history.(swaps := history.swaps + [p.swapSlot]);
        }
        schedule[i] := Some(p.(state := SUSP_BLOCKED));
        current := None;
      }
    }

    method Execute(i: nat)
      requires Valid() && Occupied(State(), i) && At(State(), i).vm.Some?
      modifies this, schedule, pendingIo
      ensures Valid() && State() == old(ExecuteVm(State(), i))
    {
      var p := schedule[i].value;
      var o := RunOperations(p.vm.value);
      schedule[i] := Some(p.(vm := Some(o.vm)));
      lastTrapPid := p.pid;
      if o.rc == RC_TRAPPED {
        Suspend(i);
      } else {
        RemoveProcess(p.pid);
        current := None;
      }
    }

    method RunDirect(i: nat)
      requires Valid() && Occupied(State(), i) && At(State(), i).vm.Some?
      modifies this, schedule, pendingIo
      ensures Valid() && State() == old(RunVm(State(), i))
    {
      hide ExecuteVm;
      Restore(i);
      var granted := RequestResource(RES_MEM, i);
      if !granted {
        ChangeState(i, BLOCKED);
        current := None;
        return;
      }
      var p := schedule[i].value;
      if p.swapped {
        if !CanSwap(disk, p.swapSlot) {
          ChangeState(i, SUSP_BLOCKED);
          ReleaseResource(RES_MEM);
          return;
        }
        var vm := p.vm.value;
        schedule[i] := Some(p.(swapped := false, vm := Some(vm.(memory := SwapIn(vm.memory, disk, p.swapSlot)))));
      }
      Execute(i);
      ReleaseResource(RES_MEM);
    }

    /** The process becomes current, its turn is recorded, and the last to run a machine is remembered. */
    method Remember(i: nat, p: Process)
      requires Valid()
      modifies this`current, this`lastVm, this`lastTrapPid, this`history
      ensures State() == old(State().(current := Some(i),
                                      history := history.(turns := history.turns + [Turn(i, p.serial)]),
                                      lastVm := if p.vm.Some? then Some(p.serial) else lastVm,
                                      lastTrapPid := if p.vm.Some? then p.pid else lastTrapPid))
    {
      current := Some(i);
      history := history.(turns := history.turns + [Turn(i, p.serial)]);
      if p.vm.Some? {
        lastVm := Some(p.serial);
        lastTrapPid := p.pid;
      }
    }

    method Prepare(i: nat)
      requires Valid() && Occupied(State(), i)
      modifies this`current, this`lastVm, this`lastTrapPid, this`history, schedule
      ensures State() == old(Prologue(State(), i))
    {
      hide SaveContext;
      var p := schedule[i].value;
      if current.Some? && current.value != i && current.value < MAX_PRIORITY && schedule[current.value].Some? {
        Save(current.value);
      }
      Remember(i, p);
    }

    method GiveTurn(i: nat, fired: bool)
      requires Valid() && Occupied(State(), i)
      modifies this, schedule, pendingIo
      ensures Valid() && State() == old(TakeTurn(State(), i, fired))
    {
      var p := schedule[i].value;
      if p.hasEntry {
        var rc := CallEntry(i, fired);
        FinishEntry(i, p.pid, rc);
      } else if p.vm.Some? {
        RunDirect(i);
      }
    }

    method RunWithCpu(i: nat, fired: bool)
      requires Valid() && Occupied(State(), i)
      modifies this, schedule, pendingIo
      ensures Valid() && State() == old(WithCpu(State(), i, fired))
    {
      var granted := RequestResource(RES_CPU, i);
      if !granted {
        ChangeState(i, BLOCKED);
        current := None;
        return;
      }
      GiveTurn(i, fired);
      ReleaseResource(RES_CPU);
    }

    method DispatchSlot(i: nat, fired: bool)
      requires Valid() && i < MAX_PRIORITY
      modifies this, schedule, pendingIo
      ensures Valid() && State() == old(Dispatch(State(), i, fired))
    {
      if schedule[i].None? || schedule[i].value.state != READY { return; }
      Prepare(i);
      RunWithCpu(i, fired);
    }

    method RunSlots(hi: int, lo: int, fired: set<nat>)
      requires Valid() && hi < MAX_PRIORITY && 0 <= lo
      modifies this, schedule, pendingIo
      ensures Valid() && State() == old(RunRange(State(), hi, lo, fired))
    {
      hide Dispatch;
      var i := hi;
      while i >= lo
        invariant Valid() && i <= hi
        invariant old(RunRange(State(), hi, lo, fired)) == RunRange(State(), i, lo, fired)
      {
        DispatchSlot(i, i in fired);
        i := i - 1;
      }
    }

    /** One scheduler cycle: the system half of the table, then the user half. */
    method Cycle(fired: set<nat>)
      requires Valid()
      modifies this, schedule, pendingIo
      ensures Valid() && State() == old(RunCycle(State(), fired))
    {
      RunSlots(MAX_PRIORITY - 1, FIRST_SYSTEM_SLOT, fired);
      RunSlots(FIRST_SYSTEM_SLOT - 1, 0, fired);
    }
  }
}
