/**
  The kernel: a 100-slot process table, counted resources, one I/O ring, and the
  pass over the table that dispatches every ready process.

  A process is a value in its slot. `current` is the slot the scheduler's
  pointer designates; the I/O ring and `lastVm` designate a process by its
  serial number, which, unlike the 8-bit pid, is never reused. `History` records
  what the kernel did and is never read by it.
  */
module KernelModel {
  import opened Words
  import opened Isa
  import opened Disk
  import opened RealMachine
  import opened VirtualMachine
  import opened Loader
  import opened Swapper
  import opened DiskTraffic
  import opened Resources

  const MAX_PRIORITY := 100
  const FIRST_SYSTEM_SLOT := 80
  const SCHEDULER_SLOT := 97
  const RING_SIZE := 8

  const RES_IO := 1
  const RES_MEM := 2
  const RES_CPU := 3
  const RES_TMR := 4

  const NOT_REQUESTED: Byte := 0
  const LOADED: Byte := 1
  const LOADING: Byte := 2
  const DONE: Byte := 3

  datatype ProcType = START_STOP | IDLE | JOB_GOVERNOR | LOADER | IO_HANDLER | INTERRUPT_HANDLER

  datatype ProcState = READY | RUNNING | BLOCKED | SUSP_READY | SUSP_BLOCKED

  /** `hasEntry` says whether the process has the entry function of its type; without one it is bare or runs its VM. */
  datatype Process = Process(
    serial: nat, pid: Byte, sysProc: bool, procType: ProcType, hasEntry: bool, state: ProcState, context: Cpu,
    vm: Option<Vm>, fileId: Word, parentPid: Byte, loaded: Byte, waitingResId: Byte, swapped: bool, swapSlot: Word)

  type Slot = Option<Process>

  type Slots = s: seq<Slot> | |s| == MAX_PRIORITY witness seq<Slot>(MAX_PRIORITY, i => None)

  datatype IoRequest = IoRequest(proc: Option<nat>, code: Word, r0: Word, r1: Word, r2: Word, ticks: nat)

  type Ring8 = s: seq<IoRequest> | |s| == RING_SIZE
    witness seq<IoRequest>(RING_SIZE, i => IoRequest(None, 0, 0, 0, 0, 0))

  /** Steps of a job governor's life, by the governor's serial number. */
  datatype GovernorEvent =
    | LoadRequested(serial: nat)
    | ImageLoaded(serial: nat)
    | VmRan(serial: nat)
    | Finished(serial: nat)

  /** Who asked for a transfer, and for which. */
  datatype Ask = Ask(serial: nat, code: Word, r0: Word, r1: Word, r2: Word)

  /** Steps of the I/O protocol; `HandlerStep` is one call of the I/O handler. */
  datatype IoEvent = Accepted(ask: Ask) | HandlerStep | Consumed(ask: Ask)

  datatype Turn = Turn(slot: nat, serial: nat)

  /** A process's context was overwritten with the processor's state. */
  datatype Save = Save(serial: nat, cpu: Cpu)

  /** `swaps` are the slots machines were swapped out to. */
  datatype History = History(
    turns: seq<Turn>, governors: seq<GovernorEvent>, io: seq<IoEvent>, saves: seq<Save>, swaps: seq<Word>,
    denied: seq<int>, shutDown: bool)

  datatype Kernel = Kernel(
    slots: Slots, current: Option<nat>, prioMin: int, prioMax: int, lastPid: Byte, added: nat,
    cpu: Cpu, disk: DiskState, files: seq<FileEntry>, res: seq<Resource>,
    pending: Ring8, ioHead: nat, ioTail: nat,
    lastVm: Option<nat>, lastTrapPid: Word, lastPi: Word, lastSi: Word, lastTi: Word,
    history: History)

  const ZERO_CPU := Cpu(0, ZERO_REGISTERS, 0, 0, PI_NONE, SI_NONE, TI_NONE, 0)

  // Scanning the table

  function IsFree(): Slot -> bool {
    (o: Slot) => o.None?
  }

  function HasPid(pid: Byte): Slot -> bool {
    (o: Slot) => o.Some? && o.value.pid == pid
  }

  function HasSerial(n: nat): Slot -> bool {
    (o: Slot) => o.Some? && o.value.serial == n
  }

  function BlockedOfType(t: ProcType): Slot -> bool {
    (o: Slot) => o.Some? && o.value.procType == t && o.value.state == BLOCKED
  }

  /** What the context switcher looks for: a ready process with a virtual machine. */
  function Runnable(): Slot -> bool {
    (o: Slot) => o.Some? && o.value.state == READY && o.value.vm.Some?
  }

  /** The lowest slot from `i` on that the test accepts. */
  function LowestSlot(s: Slots, test: Slot -> bool, i: nat := 0): (res: Option<nat>)
    requires i <= MAX_PRIORITY
    ensures res.Some? ==> i <= res.value < MAX_PRIORITY && test(s[res.value])
    ensures res.Some? ==> forall j :: i <= j < res.value ==> !test(s[j])
    ensures res.None? ==> forall j :: i <= j < MAX_PRIORITY ==> !test(s[j])
    decreases MAX_PRIORITY - i
  {
    if i == MAX_PRIORITY then None else if test(s[i]) then Some(i) else LowestSlot(s, test, i + 1)
  }

  /** The highest slot between `hi` and `lo` that the test accepts. */
  function HighestSlot(s: Slots, test: Slot -> bool, hi: int, lo: int): (res: Option<nat>)
    requires hi < MAX_PRIORITY && 0 <= lo
    ensures res.Some? ==> lo <= res.value <= hi && test(s[res.value])
    ensures res.Some? ==> forall j :: res.value < j <= hi ==> !test(s[j])
    ensures res.None? ==> forall j :: lo <= j <= hi ==> !test(s[j])
    decreases hi - lo
  {
    if hi < lo then None else if test(s[hi]) then Some(hi) else HighestSlot(s, test, hi - 1, lo)
  }

  predicate Occupied(k: Kernel, i: nat) {
    i < MAX_PRIORITY && k.slots[i].Some?
  }

  function At(k: Kernel, i: nat): Process
    requires Occupied(k, i)
  {
    k.slots[i].value
  }

  function Put(k: Kernel, i: nat, p: Process): Kernel
    requires i < MAX_PRIORITY
  {
    k.(slots := k.slots[i := Some(p)])
  }

  function Clear(k: Kernel, i: nat): Kernel
    requires i < MAX_PRIORITY
  {
    k.(slots := k.slots[i := None])
  }

  function SetState(k: Kernel, i: nat, st: ProcState): Kernel
    requires Occupied(k, i)
  {
    Put(k, i, At(k, i).(state := st))
  }

  // Processes

  /** What the creator of a process decides; everything else starts at zero, and the process is ready. */
  datatype NewProcess = NewProcess(sysProc: bool, procType: ProcType, hasEntry: bool, vm: Option<Vm>,
                                   fileId: Word, parentPid: Byte, swapSlot: Byte)

  function AddProc(k: Kernel, n: NewProcess): Kernel {
    var k1 := k.(lastPid := Wrap8(k.lastPid + 1), added := k.added + 1);
    var p := Process(k1.added, k1.lastPid, n.sysProc, n.procType, n.hasEntry, READY, ZERO_CPU,
                     n.vm, n.fileId, n.parentPid, NOT_REQUESTED, 0, false, n.swapSlot);
    match PlaceFor(k, n.sysProc)
    case None => k1
    case Some(i) =>
      Put(k1, i, p).(
        prioMin := if i < k.prioMin then i else k.prioMin,
        prioMax := if n.sysProc && i > k.prioMax then i else k.prioMax)
  }

  /** The highest free slot of the process's half of the table. */
  function PlaceFor(k: Kernel, sysProc: bool): Option<nat> {
    if sysProc then
      if k.prioMax < MAX_PRIORITY then HighestSlot(k.slots, IsFree(), k.prioMax, FIRST_SYSTEM_SLOT) else None
    else HighestSlot(k.slots, IsFree(), FIRST_SYSTEM_SLOT - 1, 1)
  }

  function RemoveProc(k: Kernel, pid: Byte): Kernel {
    if pid == 0 then k
    else match LowestSlot(k.slots, HasPid(pid))
      case None => k
      case Some(i) => Clear(k, i)
  }

  function BlockCurrent(k: Kernel): Kernel {
    if k.current.Some? && Occupied(k, k.current.value) then
      SetState(k, k.current.value, BLOCKED).(current := None)
    else k
  }

  function UnblockProcess(k: Kernel, pid: Byte): Kernel {
    match LowestSlot(k.slots, HasPid(pid))
    case None => k
    case Some(i) => SetState(k, i, READY)
  }

  function WakeByType(k: Kernel, t: ProcType): Kernel {
    match LowestSlot(k.slots, BlockedOfType(t))
    case None => k
    case Some(i) => SetState(k, i, READY)
  }

  // Context switching

  function SaveContext(k: Kernel, i: nat): Kernel
    requires Occupied(k, i)
  {
    Put(k, i, At(k, i).(context := k.cpu, state := READY))
    .(history := k.history.(saves := k.history.saves + [Save(At(k, i).serial, k.cpu)]))
  }

  function LoadContext(k: Kernel, i: nat): Kernel
    requires Occupied(k, i)
  {
    Put(k, i, At(k, i).(state := RUNNING)).(cpu := At(k, i).context)
  }

  /** Whom a context switch saves: the current process, if it is running. */
  function SavedBy(k: Kernel): (c: Option<nat>)
    ensures c.Some? ==> Occupied(k, c.value)
  {
    if k.current.Some? && Occupied(k, k.current.value) && At(k, k.current.value).state == RUNNING then k.current
    else None
  }

  /** The first half of a context switch: the running process is saved and becomes ready. */
  function SwitchOut(k: Kernel): Kernel {
    match SavedBy(k)
    case None => k
    case Some(c) => SaveContext(k, c)
  }

  function NextRunnable(k: Kernel): Option<nat> {
    if k.prioMax < MAX_PRIORITY && 0 <= k.prioMin then HighestSlot(k.slots, Runnable(), k.prioMax, k.prioMin) else None
  }

  function ContextSwitch(k: Kernel): Kernel {
    var k1 := SwitchOut(k);
    match NextRunnable(k1)
    case None => k1
    case Some(j) => LoadContext(k1, j).(current := Some(j))
  }

  // Resources

  predicate Grants(k: Kernel, id: int) {
    FindRes(k.res, id).Some? && k.res[FindRes(k.res, id).value].available > 0
  }

  /** After the process in slot `i` asked for a unit: a denied process waits, suspended. */
  function AfterRequest(k: Kernel, id: int, i: nat): Kernel
    requires Occupied(k, i)
  {
    var p := At(k, i);
    var k1 := k.(res := RequestUnit(k.res, id, p.pid).0);
    if Grants(k, id) then Put(k1, i, p.(waitingResId := 0))
    else if FindRes(k.res, id).None? then k
    else
      Put(k1, i, p.(waitingResId := Wrap8(id), state := SUSP_BLOCKED))
      .(history := k.history.(denied := k.history.denied + [id]))
  }

  function WakeWaiter(k: Kernel, pid: Byte): Kernel {
    match LowestSlot(k.slots, HasPid(pid))
    case None => k
    case Some(i) => Put(k, i, At(k, i).(state := READY, waitingResId := 0))
  }

  function ReleaseRes(k: Kernel, id: int): Kernel {
    var (rs, woken) := ReleaseUnit(k.res, id);
    var k1 := k.(res := rs);
    if woken.Some? then WakeWaiter(k1, woken.value) else k1
  }

  // The I/O ring

  function NextIndex(i: nat): nat {
    (i + 1) % RING_SIZE
  }

  predicate AcceptsIo(k: Kernel) {
    Grants(k, RES_IO) && NextIndex(k.ioTail) != k.ioHead && k.ioTail < RING_SIZE
  }

  /** After the process in slot `i` asked for a transfer; it is queued exactly when `AcceptsIo`. */
  function EnqueueIo(k: Kernel, i: nat, code: Word, r0: Word, r1: Word, r2: Word): Kernel
    requires Occupied(k, i)
  {
    var k1 := AfterRequest(k, RES_IO, i);
    if !Grants(k, RES_IO) then k1
    else if !AcceptsIo(k) then k1.(res := ReleaseUnit(k1.res, RES_IO).0)
    else
      var p := At(k, i);
      Put(k1, i, p.(state := BLOCKED, waitingResId := RES_IO))
      .(pending := k.pending[k.ioTail := IoRequest(Some(p.serial), code, r0, r1, r2, 1)],
        ioTail := NextIndex(k.ioTail),
        history := k1.history.(io := k.history.io + [Accepted(Ask(p.serial, code, r0, r1, r2))]))
  }

  /** The requester's slot, if it is still in the table and still has its machine. */
  function Requester(k: Kernel, req: IoRequest): Option<nat> {
    if req.proc.None? then None
    else match LowestSlot(k.slots, HasSerial(req.proc.value))
      case None => None
      case Some(i) => if At(k, i).vm.Some? then Some(i) else None
  }

  /** The transfer itself. */
  function Transfer(k: Kernel, i: nat, req: IoRequest): Kernel
    requires Occupied(k, i) && At(k, i).vm.Some?
  {
    var vm := At(k, i).vm.value;
    if req.code == SI_READ then
      Put(k, i, At(k, i).(vm := Some(vm.(memory := ReadTransfer(vm.memory, k.disk, req.r0, req.r1, req.r2)))))
    else if req.code == SI_WRITE then
      k.(disk := WriteTransfer(k.disk, vm.memory, req.r0, req.r1, req.r2))
    else k
  }

  function CompleteIo(k: Kernel, req: IoRequest): Kernel {
    match Requester(k, req)
    case None => k
    case Some(i) =>
      var k1 := ReleaseRes(Transfer(k, i, req), RES_IO);
      if Occupied(k1, i) then Put(k1, i, At(k1, i).(state := READY, waitingResId := 0)) else k1
  }

  /** The request at the head of the ring is due: the next handler step completes it. */
  predicate Due(k: Kernel) {
    && k.ioHead != k.ioTail && k.ioHead < RING_SIZE
    && var req := k.pending[k.ioHead];
    && req.proc.Some? && req.code != 0 && req.ticks == 0
  }

  function AskOf(req: IoRequest): Ask
    requires req.proc.Some?
  {
    Ask(req.proc.value, req.code, req.r0, req.r1, req.r2)
  }

  function StepIo(k: Kernel): Kernel {
    if k.ioHead == k.ioTail || k.ioHead >= RING_SIZE then k
    else
      var req := k.pending[k.ioHead];
      if req.proc.None? || req.code == 0 then k.(ioHead := NextIndex(k.ioHead))
      else if req.ticks > 0 then k.(pending := k.pending[k.ioHead := req.(ticks := req.ticks - 1)])
      else
        CompleteIo(k, req).(
          pending := k.pending[k.ioHead := req.(proc := None, code := 0)], ioHead := NextIndex(k.ioHead))
  }

  function HandlerEvents(k: Kernel): seq<IoEvent> {
    if Due(k) then [HandlerStep, Consumed(AskOf(k.pending[k.ioHead]))] else [HandlerStep]
  }

  function IoHandler(k: Kernel): Kernel {
    StepIo(k).(history := k.history.(io := k.history.io + HandlerEvents(k)))
  }

  // Interrupts

  function SetCpu(k: Kernel, pi: Word, si: Word, ti: Word): Kernel {
    k.(cpu := k.cpu.(pi := pi, si := si, ti := ti))
  }

  predicate CurrentCanBlock(k: Kernel) {
    k.current.Some? && Occupied(k, k.current.value) && At(k, k.current.value).procType != INTERRUPT_HANDLER
  }

  function BlockIfPossible(k: Kernel): Kernel {
    if CurrentCanBlock(k) then BlockCurrent(k) else k
  }

  /** A pending system interrupt other than HALT becomes an I/O request of the current process. */
  function HandleSystemRequest(k: Kernel): Kernel {
    var code := k.cpu.si;
    var k1 := SetCpu(k, k.cpu.pi, SI_NONE, k.cpu.ti).(lastSi := code);
    if k.current.Some? && Occupied(k, k.current.value) then
      var c := k.current.value;
      var k2 := EnqueueIo(k1, c, code, k.cpu.r[0], k.cpu.r[1], k.cpu.r[2]);
      WakeByType(BlockRequester(k2, c, CurrentCanBlock(k)), IO_HANDLER)
    else k1
  }

  /** A requester that may block does, unless being denied has suspended it already. */
  function BlockRequester(k: Kernel, c: nat, canBlock: bool): Kernel {
    if canBlock && Occupied(k, c) && At(k, c).state != SUSP_BLOCKED then BlockCurrent(k) else k
  }

  function HandleTimer(k: Kernel): Kernel {
    if k.cpu.ti == TI_EXPIRED then
      ContextSwitch(SetCpu(k, k.cpu.pi, k.cpu.si, TI_NONE).(lastTi := k.cpu.ti))
    else if k.cpu.ti == TI_NONE then k.(lastTi := TI_NONE)
    else SetCpu(k, k.cpu.pi, k.cpu.si, TI_NONE).(lastTi := k.cpu.ti)
  }

  /** What the kernel sees when it starts handling: whose turn it is and whether the timer went off. */
  function LatchTimer(k: Kernel, fired: bool): Kernel {
    var k1 := if k.current.Some? && Occupied(k, k.current.value)
              then k.(lastTrapPid := At(k, k.current.value).pid) else k;
    if fired then SetCpu(k1, k.cpu.pi, k.cpu.si, TI_EXPIRED) else k1
  }

  function KernelHandleInterrupts(k: Kernel, fired: bool): Kernel {
    HandleLatched(LatchTimer(k, fired))
  }

  /** Program interrupts first, then system interrupts, then the timer. */
  function HandleLatched(k: Kernel): Kernel {
    if k.cpu.pi != PI_NONE then BlockIfPossible(SetCpu(k, PI_NONE, k.cpu.si, k.cpu.ti).(lastPi := k.cpu.pi))
    else if k.cpu.si == SI_HALT then BlockIfPossible(SetCpu(k, k.cpu.pi, SI_NONE, k.cpu.ti).(lastSi := k.cpu.si))
    else if k.cpu.si == SI_READ || k.cpu.si == SI_WRITE || k.cpu.si == SI_SYS then HandleSystemRequest(k)
    else HandleTimer(if k.cpu.si == SI_NONE then k.(lastSi := SI_NONE) else k)
  }

  /** The process the interrupt handler blames: the last VM owner, or the process that trapped last. */
  function VmOwner(k: Kernel): Option<nat> {
    if k.lastVm.Some? then LowestSlot(k.slots, HasSerial(k.lastVm.value))
    else if k.lastTrapPid != 0 then LowestSlot(k.slots, HasPid(Wrap8(k.lastTrapPid)))
    else None
  }

  /** The blamed process loses its machine and is marked done; its parent is woken. */
  function RetireVm(k: Kernel, i: nat): Kernel
    requires Occupied(k, i)
  {
    var k1 := Put(k, i, At(k, i).(vm := None, loaded := DONE, state := READY));
    if At(k, i).parentPid != 0 then UnblockProcess(k1, At(k, i).parentPid) else k1
  }

  function ReactToSi(k: Kernel): Kernel {
    if k.lastSi == SI_READ || k.lastSi == SI_WRITE then WakeByType(k, IO_HANDLER)
    else if k.lastSi == SI_HALT && VmOwner(k).Some? then RetireVm(k, VmOwner(k).value)
    else k
  }

  function ReactToPi(k: Kernel): Kernel {
    if k.lastPi == PI_NONE then k
    else
      var k1 := WakeByType(k, JOB_GOVERNOR);
      match VmOwner(k1)
      case None => k1
      case Some(i) => if At(k1, i).vm.Some? then RetireVm(k1, i) else k1
  }

  /** The handler asks for the timer on behalf of the current process, if there is one. */
  function ClaimTimer(k: Kernel): Kernel {
    if k.current.Some? && Occupied(k, k.current.value) then AfterRequest(k, RES_TMR, k.current.value) else k
  }

  predicate TimerGranted(k: Kernel) {
    k.current.Some? && Occupied(k, k.current.value) && Grants(k, RES_TMR)
  }

  /** The reactions to what the kernel latched; then the latches are cleared. */
  function React(k: Kernel): Kernel {
    ReactToPi(ReactToSi(k)).(lastPi := 0, lastSi := 0, lastTi := 0)
  }

  function Service(k: Kernel, fired: bool): Kernel {
    React(KernelHandleInterrupts(k, fired))
  }

  function InterruptHandler(k: Kernel, fired: bool): Kernel {
    var k1 := Service(ClaimTimer(k), fired);
    if TimerGranted(k) then ReleaseRes(k1, RES_TMR) else k1
  }

  // Process entries

  /** What an entry function left behind and returned: 0 finished, negative blocked, positive still ready. */
  datatype Return = Return(k: Kernel, rc: int)

  function LoaderFor(p: Process): NewProcess {
    NewProcess(true, LOADER, true, None, p.fileId, p.pid, 0)
  }

  function Log(k: Kernel, e: GovernorEvent): Kernel {
    k.(history := k.history.(governors := k.history.governors + [e]))
  }

  function BlockGovernor(k: Kernel, i: nat): Kernel
    requires Occupied(k, i)
  {
    SetState(k, i, BLOCKED).(current := None)
  }

  function RunGovernorVm(k: Kernel, i: nat): Return
    requires Occupied(k, i) && At(k, i).vm.Some?
  {
    var p := At(k, i);
    var o := RunOperations(p.vm.value);
    var k1 := Log(k, VmRan(p.serial));
    if o.rc == RC_TRAPPED then
      var k2 := EnqueueIo(Put(k1, i, p.(vm := Some(o.vm))), i, o.vm.trapCode, o.vm.trapR0, o.vm.trapR1, o.vm.trapR2);
      if Occupied(k2, i) then Return(BlockGovernor(k2, i), -1) else Return(k2, -1)
    else
      Return(Log(Put(k1, i, p.(vm := None, loaded := DONE)), Finished(p.serial)), 0)
  }

  function JobGovernor(k: Kernel, i: nat): Return
    requires Occupied(k, i)
  {
    var p := At(k, i);
    if p.vm.None? then Return(k, 0)
    else if p.loaded == NOT_REQUESTED then
      var k1 := Log(AddProc(k, LoaderFor(p)), LoadRequested(p.serial));
      Return(Put(k1, i, p.(loaded := LOADING, state := BLOCKED)).(current := None), -1)
    else if p.loaded == LOADING then Return(BlockGovernor(k, i), -1)
    else if p.loaded == LOADED then RunGovernorVm(k, i)
    else Return(k, 0)
  }

  /** The load itself, for the parent in slot `j`, with the MEM unit held. */
  function LoadInto(k: Kernel, j: nat, fileId: Word): Kernel
    requires Occupied(k, j) && At(k, j).vm.Some?
  {
    var parent := At(k, j);
    var k1 := Put(k, j, parent.(vm := Some(LoadFile(parent.vm.value, k.disk, k.files, fileId))));
    if LoadSucceeds(k.disk, k.files, fileId) then UnblockProcess(k1, parent.pid) else k1
  }

  function FinishLoad(k: Kernel, j: nat): Kernel
    requires Occupied(k, j)
  {
    Log(Put(k, j, At(k, j).(loaded := LOADED, state := READY)), ImageLoaded(At(k, j).serial))
  }

  function RunLoader(k: Kernel, i: nat): Return
    requires Occupied(k, i)
  {
    var p := At(k, i);
    match LowestSlot(k.slots, HasPid(p.parentPid))
    case None => Return(k, 0)
    case Some(j) =>
      if At(k, j).vm.None? then Return(k, 0) else LoadFor(k, i, j)
  }

  /** The loader in slot `i` loads its image for the parent in slot `j`. */
  function LoadFor(k: Kernel, i: nat, j: nat): Return
    requires Occupied(k, i) && Occupied(k, j) && At(k, j).vm.Some?
  {
    var fileId := At(k, i).fileId;
    var k1 := AfterRequest(k, RES_MEM, i);
    if !Grants(k, RES_MEM) then Return(SetState(k1, i, BLOCKED), 0)
    else
      var k2 := ReleaseRes(LoadInto(k1, j, fileId), RES_MEM);
      if LoadSucceeds(k.disk, k.files, fileId) && Occupied(k2, j) then Return(FinishLoad(k2, j), 0) else Return(k2, 0)
  }

  predicate IsDaemon(t: ProcType) {
    t != JOB_GOVERNOR
  }

  function HasWork(): Slot -> bool {
    (o: Slot) => o.Some? && !IsDaemon(o.value.procType) && (o.value.state == READY || o.value.state == BLOCKED)
  }

  /** The table with everything but start-stop processes cleared. */
  function Shutdown(s: Slots): Slots {
    seq<Slot>(MAX_PRIORITY, i requires 0 <= i < MAX_PRIORITY => Survivor(s[i]))
  }

  function Survivor(o: Slot): Slot {
    if o.Some? && o.value.procType == START_STOP then o else None
  }

  function StartStop(k: Kernel): Return {
    if LowestSlot(k.slots, HasWork()).Some? then Return(k, 1)
    else Return(k.(slots := Shutdown(k.slots), history := k.history.(shutDown := true)), 0)
  }

  // Dispatching

  function RunEntry(k: Kernel, i: nat, fired: bool): Return
    requires Occupied(k, i)
  {
    match At(k, i).procType
    case START_STOP => StartStop(k)
    case IDLE => Return(k, 1)
    case JOB_GOVERNOR => JobGovernor(k, i)
    case LOADER => RunLoader(k, i)
    case IO_HANDLER => Return(IoHandler(k), 1)
    case INTERRUPT_HANDLER => Return(InterruptHandler(k, fired), 1)
  }

  function AfterEntry(r: Return, i: nat, pid: Byte): Kernel {
    var k := r.k;
    if r.rc == 0 then RemoveProc(k, pid).(current := None)
    else if !Occupied(k, i) then k.(current := None)
    else SetState(k, i, if r.rc < 0 then BLOCKED else READY).(current := None)
  }

  /** A trapped machine without a governor: its request is queued and its memory swapped out. */
  function SuspendVm(k: Kernel, i: nat): Kernel
    requires Occupied(k, i) && At(k, i).vm.Some?
  {
    var vm := At(k, i).vm.value;
    var k1 := EnqueueIo(k, i, vm.trapCode, vm.trapR0, vm.trapR1, vm.trapR2);
    if !Occupied(k1, i) then k1
    else
      var p := At(k1, i);
      if AcceptsIo(k) && !p.swapped && CanSwap(k.disk, p.swapSlot) then
        Put(k1, i, p.(swapped := true, state := SUSP_BLOCKED))
        .(disk := SwapOut(k.disk, vm.memory, p.swapSlot), current := None,
          history := k1.history.(swaps := k1.history.swaps + [p.swapSlot]))
      else Put(k1, i, p.(state := SUSP_BLOCKED)).(current := None)
  }

  /** The machine of slot `i` runs to its next stop, with the MEM unit held. */
  function ExecuteVm(k: Kernel, i: nat): Kernel
    requires Occupied(k, i) && At(k, i).vm.Some?
  {
    var p := At(k, i);
    var o := RunOperations(p.vm.value);
    var k1 := Put(k, i, p.(vm := Some(o.vm))).(lastTrapPid := p.pid);
    if o.rc == RC_TRAPPED then SuspendVm(k1, i) else RemoveProc(k1, p.pid).(current := None)
  }

  function SwapInFirst(k: Kernel, i: nat): Kernel
    requires Occupied(k, i) && At(k, i).vm.Some?
  {
    var p := At(k, i);
    var vm := p.vm.value;
    Put(k, i, p.(swapped := false, vm := Some(vm.(memory := SwapIn(vm.memory, k.disk, p.swapSlot)))))
  }

  function RunVm(k: Kernel, i: nat): Kernel
    requires Occupied(k, i) && At(k, i).vm.Some?
  {
    var k1 := LoadContext(k, i);
    var k2 := AfterRequest(k1, RES_MEM, i);
    if !Grants(k1, RES_MEM) then SetState(k2, i, BLOCKED).(current := None)
    else if At(k, i).swapped && !CanSwap(k.disk, At(k, i).swapSlot) then
      ReleaseRes(SetState(k2, i, SUSP_BLOCKED), RES_MEM)
    else if At(k, i).swapped then ReleaseRes(ExecuteVm(SwapInFirst(k2, i), i), RES_MEM)
    else ReleaseRes(ExecuteVm(k2, i), RES_MEM)
  }

  /** What happens before the CPU is requested for the process in slot `i`. */
  function Prologue(k: Kernel, i: nat): Kernel
    requires Occupied(k, i)
  {
    var k1 := if k.current.Some? && k.current.value != i && Occupied(k, k.current.value)
              then SaveContext(k, k.current.value) else k;
    var p := At(k, i);
    var k2 := k1.(current := Some(i), history := k1.history.(turns := k1.history.turns + [Turn(i, p.serial)]));
    if p.vm.Some? then k2.(lastVm := Some(p.serial), lastTrapPid := p.pid) else k2
  }

  /** The turn of the process in slot `i`, with the CPU unit held. */
  function TakeTurn(k: Kernel, i: nat, fired: bool): Kernel
    requires Occupied(k, i)
  {
    var p := At(k, i);
    if p.hasEntry then AfterEntry(RunEntry(k, i, fired), i, p.pid)
    else if p.vm.Some? then RunVm(k, i)
    else k
  }

  predicate ReadyAt(k: Kernel, i: nat) {
    Occupied(k, i) && At(k, i).state == READY
  }

  /** The turn, bracketed by the CPU unit. */
  function WithCpu(k: Kernel, i: nat, fired: bool): Kernel
    requires Occupied(k, i)
  {
    var k1 := AfterRequest(k, RES_CPU, i);
    if !Grants(k, RES_CPU) then SetState(k1, i, BLOCKED).(current := None)
    else ReleaseRes(TakeTurn(k1, i, fired), RES_CPU)
  }

  /** One iteration of the scheduler's loop. */
  function Dispatch(k: Kernel, i: nat, fired: bool): Kernel {
    if ReadyAt(k, i) then WithCpu(Prologue(k, i), i, fired) else k
  }

  /** Slots `hi` down to `lo`; `fired` is the set of slots at whose turn the timer has gone off. */
  function RunRange(k: Kernel, hi: int, lo: int, fired: set<nat>): Kernel
    requires hi < MAX_PRIORITY && 0 <= lo
    decreases hi - lo
  {
    if hi < lo then k else RunRange(Dispatch(k, hi, hi in fired), hi - 1, lo, fired)
  }

  function RunCycle(k: Kernel, fired: set<nat>): Kernel {
    RunRange(RunRange(k, MAX_PRIORITY - 1, FIRST_SYSTEM_SLOT, fired), FIRST_SYSTEM_SLOT - 1, 0, fired)
  }

  // Whole runs

  /** The scheduler's own process: no entry, no machine, and the process type that comes first. */
  const SCHEDULER_PROCESS := Process(0, 97, true, START_STOP, false, READY, ZERO_CPU,
                                     None, 0, 0, NOT_REQUESTED, 0, false, 0)

  function BootSlots(): Slots {
    seq<Slot>(MAX_PRIORITY, i => if i == SCHEDULER_SLOT then Some(SCHEDULER_PROCESS) else None)
  }

  function BootResources(): seq<Resource> {
    [Resource(RES_IO, 1, []), Resource(RES_MEM, 2, []), Resource(RES_CPU, 1, []), Resource(RES_TMR, 1, [])]
  }

  function Boot(storage: Storage, files: seq<FileEntry>): Kernel {
    Kernel(BootSlots(), None, SCHEDULER_SLOT, SCHEDULER_SLOT, 97, 0,
           ZERO_CPU.(mode := MODE_SUPERVISOR, ptr := 240), DiskState(storage, false), files, BootResources(),
           seq<IoRequest>(RING_SIZE, i => IoRequest(None, 0, 0, 0, 0, 0)), 0, 0,
           None, 0, 0, 0, 0, History([], [], [], [], [], [], false))
  }

  /** What the main program does: create processes, and run cycles. */
  datatype Action = Add(n: NewProcess) | Cycle(fired: set<nat>)

  function Act(k: Kernel, a: Action): Kernel {
    match a
    case Add(n) => AddProc(k, n.(parentPid := 0))
    case Cycle(fired) => RunCycle(k, fired)
  }

  function Run(k: Kernel, acts: seq<Action>): Kernel
    decreases |acts|
  {
    if acts == [] then k else Act(Run(k, acts[..|acts| - 1]), acts[|acts| - 1])
  }
}
