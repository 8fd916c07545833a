/**
  The invariant every dispatch keeps: the shape of the process table, balanced
  resources, at most one I/O request in flight, and quiet interrupt latches.
  */
module KernelInvariant {
  import opened Words
  import opened Isa
  import opened RealMachine
  import opened VirtualMachine
  import opened Resources
  import opened KernelModel

  // The parts of the invariant

  /** A slot's process sits in its half of the table and has the pid its serial number determines. */
  predicate ProcessOk(i: nat, p: Process, prioMin: int, added: nat) {
    && (if p.sysProc then FIRST_SYSTEM_SLOT <= i <= SCHEDULER_SLOT else 1 <= i < FIRST_SYSTEM_SLOT)
    && prioMin <= i
    && p.serial <= added
    && p.pid == Wrap8(97 + p.serial)
  }

  predicate TableOk(s: Slots, prioMin: int, prioMax: int, lastPid: Byte, added: nat) {
    && 1 <= prioMin <= prioMax == SCHEDULER_SLOT
    && lastPid == Wrap8(97 + added)
    && (forall i :: 0 <= i < MAX_PRIORITY && s[i].Some? ==> ProcessOk(i, s[i].value, prioMin, added))
    && (forall i, j :: 0 <= i < j < MAX_PRIORITY && s[i].Some? && s[j].Some? ==> s[i].value.serial != s[j].value.serial)
  }

  predicate Quiet(c: Cpu) {
    c.pi == PI_NONE && c.si == SI_NONE && c.ti == TI_NONE
  }

  /** No process has an interrupt in its saved context. */
  predicate ContextsQuiet(s: Slots) {
    forall i :: 0 <= i < MAX_PRIORITY && s[i].Some? ==> Quiet(s[i].value.context)
  }

  predicate LatchesQuiet(k: Kernel) {
    Quiet(k.cpu) && k.lastPi == PI_NONE && k.lastSi == SI_NONE
  }

  /** Free units of the memory, CPU and timer resources, nobody waiting for them, and a well-formed I/O resource. */
  predicate ResOk(res: seq<Resource>, mem: int, cpu: int, tmr: int) {
    && |res| == 4
    && res[0].id == RES_IO && WellFormed(res[0])
    && res[1] == Resource(RES_MEM, mem, [])
    && res[2] == Resource(RES_CPU, cpu, [])
    && res[3] == Resource(RES_TMR, tmr, [])
  }

  /** The number of requests in the I/O ring. */
  function InFlight(head: nat, tail: nat): nat
    requires head < RING_SIZE && tail < RING_SIZE
  {
    if head <= tail then tail - head else tail + RING_SIZE - head
  }

  predicate RequestOk(r: IoRequest) {
    r.proc.Some? && r.code in {SI_READ, SI_WRITE, SI_SYS} && SafeTrap(r.code, r.r1, r.r2) && r.ticks <= 1
  }

  // The I/O protocol as an automaton over the recorded events

  datatype IoPhase = IoIdle | IoFirst(ask: Ask) | IoSecond(ask: Ask) | IoDue(ask: Ask) | IoBroken

  /**
    A request is accepted only when none is in flight; the next handler step
    passes it over, and the step after that consumes it at once.
    */
  function IoNext(ph: IoPhase, e: IoEvent): IoPhase {
    match (ph, e)
    case (IoIdle, HandlerStep) => IoIdle
    case (IoIdle, Accepted(n)) => IoFirst(n)
    case (IoFirst(n), HandlerStep) => IoSecond(n)
    case (IoSecond(n), HandlerStep) => IoDue(n)
    case (IoDue(n), Consumed(m)) => if n == m then IoIdle else IoBroken
    case _ => IoBroken
  }

  function IoPhaseOf(h: seq<IoEvent>): IoPhase {
    if h == [] then IoIdle else IoNext(IoPhaseOf(h[..|h| - 1]), h[|h| - 1])
  }

  /** The phase the ring itself shows. */
  function RingPhase(pending: Ring8, head: nat, tail: nat): IoPhase
    requires head < RING_SIZE && tail < RING_SIZE
  {
    if head == tail || pending[head].proc.None? then IoIdle
    else if pending[head].ticks > 0 then IoFirst(AskOf(pending[head]))
    else IoSecond(AskOf(pending[head]))
  }

  predicate RingOk(pending: Ring8, head: nat, tail: nat, available: int, h: seq<IoEvent>) {
    && head < RING_SIZE && tail < RING_SIZE
    && available + InFlight(head, tail) <= 1 && InFlight(head, tail) <= 1
    && (head != tail ==> RequestOk(pending[head]))
    && IoPhaseOf(h) == RingPhase(pending, head, tail)
  }

  /** Only requests for the I/O resource are ever denied. */
  predicate DeniedOk(denied: seq<int>) {
    forall i :: 0 <= i < |denied| ==> denied[i] == RES_IO
  }

  /** The invariant, with the given numbers of free memory, CPU and timer units. */
  predicate Good(k: Kernel, mem: int, cpu: int, tmr: int) {
    && TableOk(k.slots, k.prioMin, k.prioMax, k.lastPid, k.added)
    && ContextsQuiet(k.slots) && LatchesQuiet(k)
    && ResOk(k.res, mem, cpu, tmr)
    && RingOk(k.pending, k.ioHead, k.ioTail, k.res[0].available, k.history.io)
    && DeniedOk(k.history.denied)
    && (k.current.Some? ==> Occupied(k, k.current.value))
    && !k.disk.busy
  }

  /** Between two dispatches all three resources are free. */
  predicate Resting(k: Kernel) {
    Good(k, 2, 1, 1)
  }

  // Changing slots

  /** What never changes about a process. */
  predicate SameIdentity(p: Process, q: Process) {
    && p.serial == q.serial && p.pid == q.pid && p.sysProc == q.sysProc
    && p.procType == q.procType && p.hasEntry == q.hasEntry && p.parentPid == q.parentPid && p.fileId == q.fileId
    && p.swapSlot == q.swapSlot
  }

  /** Processes may go and change, but none appears and none changes its identity. */
  predicate Shrinks(s: Slots, s': Slots) {
    forall i :: 0 <= i < MAX_PRIORITY && s'[i].Some? ==>
                  && s[i].Some? && SameIdentity(s[i].value, s'[i].value)
                  && (Quiet(s[i].value.context) ==> Quiet(s'[i].value.context))
  }

  lemma ShrinkingIsFine(s: Slots, s': Slots, prioMin: int, prioMax: int, lastPid: Byte, added: nat)
    requires TableOk(s, prioMin, prioMax, lastPid, added) && ContextsQuiet(s) && Shrinks(s, s')
    ensures TableOk(s', prioMin, prioMax, lastPid, added) && ContextsQuiet(s')
  {
  }

  /** Everything outside the slots that a change of slots leaves alone. */
  predicate SameFrame(k: Kernel, k': Kernel) {
    k' == k.(slots := k'.slots, current := k'.current)
  }

  lemma SlotsOnly(k: Kernel, k': Kernel, mem: int, cpu: int, tmr: int)
    requires Good(k, mem, cpu, tmr) && SameFrame(k, k') && Shrinks(k.slots, k'.slots)
    requires k'.current.Some? ==> Occupied(k', k'.current.value)
    ensures Good(k', mem, cpu, tmr)
  {
    ShrinkingIsFine(k.slots, k'.slots, k.prioMin, k.prioMax, k.lastPid, k.added);
  }

  lemma PutGood(k: Kernel, i: nat, p: Process, mem: int, cpu: int, tmr: int)
    requires Good(k, mem, cpu, tmr) && Occupied(k, i) && SameIdentity(At(k, i), p) && Quiet(p.context)
    ensures Good(Put(k, i, p), mem, cpu, tmr)
  {
    SlotsOnly(k, Put(k, i, p), mem, cpu, tmr);
  }

  lemma UnblockGood(k: Kernel, pid: Byte, mem: int, cpu: int, tmr: int)
    requires Good(k, mem, cpu, tmr)
    ensures Good(UnblockProcess(k, pid), mem, cpu, tmr)
  {
    SlotsOnly(k, UnblockProcess(k, pid), mem, cpu, tmr);
  }

  lemma RemoveGood(k: Kernel, pid: Byte, mem: int, cpu: int, tmr: int)
    requires Good(k, mem, cpu, tmr)
    ensures Good(RemoveProc(k, pid).(current := None), mem, cpu, tmr)
  {
    hide Good;
    SlotsOnly(k, RemoveProc(k, pid).(current := None), mem, cpu, tmr);
  }

  lemma ShutdownGood(k: Kernel, i: nat, mem: int, cpu: int, tmr: int)
    requires Good(k, mem, cpu, tmr) && k.current == Some(i) && At(k, i).procType == START_STOP
    ensures Good(k.(slots := Shutdown(k.slots), history := k.history.(shutDown := true)), mem, cpu, tmr)
  {
    SlotsOnly(k, k.(slots := Shutdown(k.slots)), mem, cpu, tmr);
  }

  lemma SaveContextGood(k: Kernel, i: nat, mem: int, cpu: int, tmr: int)
    requires Good(k, mem, cpu, tmr) && Occupied(k, i)
    ensures Good(SaveContext(k, i), mem, cpu, tmr)
  {
    PutGood(k, i, At(k, i).(context := k.cpu, state := READY), mem, cpu, tmr);
  }

  /** Loading a context keeps the latches quiet, because the saved contexts are. */
  lemma LoadContextGood(k: Kernel, i: nat, mem: int, cpu: int, tmr: int)
    requires Good(k, mem, cpu, tmr) && Occupied(k, i)
    ensures Good(LoadContext(k, i), mem, cpu, tmr)
  {
    PutGood(k, i, At(k, i).(state := RUNNING), mem, cpu, tmr);
  }

  lemma ContextSwitchGood(k: Kernel, mem: int, cpu: int, tmr: int)
    requires Good(k, mem, cpu, tmr)
    ensures Good(ContextSwitch(k), mem, cpu, tmr)
  {
    var k1 := SwitchOut(k);
    if k1 != k {
      SaveContextGood(k, k.current.value, mem, cpu, tmr);
    }
    assert Good(k1, mem, cpu, tmr);
    var next := NextRunnable(k1);
    if next.Some? {
      LoadContextGood(k1, next.value, mem, cpu, tmr);
    }
  }

  lemma WrappedPids(a: nat)
    ensures Wrap8(Wrap8(97 + a) + 1) == Wrap8(97 + (a + 1))
  {
  }

  /** A fresh process in a free slot of its half keeps the table well formed. */
  lemma InsertTable(s: Slots, i: nat, p: Process, prioMin: int, lastPid: Byte, added: nat)
    requires TableOk(s, prioMin, SCHEDULER_SLOT, lastPid, added) && ContextsQuiet(s)
    requires i < MAX_PRIORITY && s[i].None? && Quiet(p.context)
    requires p.serial == added + 1 && p.pid == Wrap8(lastPid + 1)
    requires if p.sysProc then FIRST_SYSTEM_SLOT <= i <= SCHEDULER_SLOT else 1 <= i < FIRST_SYSTEM_SLOT
    ensures TableOk(s[i := Some(p)], Min(i, prioMin), SCHEDULER_SLOT, Wrap8(lastPid + 1), added + 1)
    ensures ContextsQuiet(s[i := Some(p)])
  {
    WrappedPids(added);
  }

  lemma PassTable(s: Slots, prioMin: int, lastPid: Byte, added: nat)
    requires TableOk(s, prioMin, SCHEDULER_SLOT, lastPid, added)
    ensures TableOk(s, prioMin, SCHEDULER_SLOT, Wrap8(lastPid + 1), added + 1)
  {
    WrappedPids(added);
  }

  lemma TableBounds(k: Kernel, mem: int, cpu: int, tmr: int)
    requires Good(k, mem, cpu, tmr)
    ensures 1 <= k.prioMin <= k.prioMax == SCHEDULER_SLOT && k.lastPid == Wrap8(97 + k.added)
  {
  }

  /** Adding a process keeps the invariant whether or not there was a place for it. */
  lemma AddProcGood(k: Kernel, n: NewProcess, mem: int, cpu: int, tmr: int)
    requires Good(k, mem, cpu, tmr)
    ensures Good(AddProc(k, n), mem, cpu, tmr)
    ensures forall i :: 0 <= i < MAX_PRIORITY && k.slots[i].Some? ==> AddProc(k, n).slots[i] == k.slots[i]
  {
    hide TableOk, ContextsQuiet, ResOk, RingOk;
    TableBounds(k, mem, cpu, tmr);
    var place := PlaceFor(k, n.sysProc);
    var k' := AddProc(k, n);
    if place.None? {
      PassTable(k.slots, k.prioMin, k.lastPid, k.added);
    } else {
      var i := place.value;
      InsertTable(k.slots, i, At(k', i), k.prioMin, k.lastPid, k.added);
    }
    assert k' == k.(slots := k'.slots, prioMin := k'.prioMin, lastPid := k'.lastPid, added := k'.added);
  }

  // Requests and releases of the three counted resources

  lemma FindCore(res: seq<Resource>, mem: int, cpu: int, tmr: int)
    requires ResOk(res, mem, cpu, tmr)
    ensures FindRes(res, RES_IO) == Some(0) && FindRes(res, RES_MEM) == Some(1)
    ensures FindRes(res, RES_CPU) == Some(2) && FindRes(res, RES_TMR) == Some(3)
  {
    assert FindRes(res, RES_TMR, 3) == Some(3);
    assert FindRes(res, RES_CPU, 2) == Some(2);
    assert FindRes(res, RES_MEM, 1) == Some(1);
    assert FindRes(res, RES_TMR, 2) == FindRes(res, RES_TMR, 1) == FindRes(res, RES_TMR, 0);
    assert FindRes(res, RES_CPU, 1) == FindRes(res, RES_CPU, 0);
  }

  lemma RequestCpu(k: Kernel, i: nat)
    requires Good(k, 2, 1, 1) && Occupied(k, i)
    ensures Grants(k, RES_CPU) && Good(AfterRequest(k, RES_CPU, i), 2, 0, 1)
  {
    FindCore(k.res, 2, 1, 1);
    PutGood(k, i, At(k, i).(waitingResId := 0), 2, 1, 1);
  }

  lemma ReleaseCpu(k: Kernel)
    requires Good(k, 2, 0, 1)
    ensures Good(ReleaseRes(k, RES_CPU), 2, 1, 1) && ReleaseRes(k, RES_CPU).slots == k.slots
  {
    FindCore(k.res, 2, 0, 1);
  }

  lemma RequestMem(k: Kernel, i: nat)
    requires Good(k, 2, 0, 1) && Occupied(k, i)
    ensures Grants(k, RES_MEM) && Good(AfterRequest(k, RES_MEM, i), 1, 0, 1)
  {
    FindCore(k.res, 2, 0, 1);
    PutGood(k, i, At(k, i).(waitingResId := 0), 2, 0, 1);
  }

  lemma ReleaseMem(k: Kernel)
    requires Good(k, 1, 0, 1)
    ensures Good(ReleaseRes(k, RES_MEM), 2, 0, 1) && ReleaseRes(k, RES_MEM).slots == k.slots
  {
    FindCore(k.res, 1, 0, 1);
  }

  lemma RequestTmr(k: Kernel, i: nat)
    requires Good(k, 2, 0, 1) && Occupied(k, i)
    ensures Grants(k, RES_TMR) && Good(AfterRequest(k, RES_TMR, i), 2, 0, 0)
  {
    FindCore(k.res, 2, 0, 1);
    PutGood(k, i, At(k, i).(waitingResId := 0), 2, 0, 1);
  }

  lemma ReleaseTmr(k: Kernel)
    requires Good(k, 2, 0, 0)
    ensures Good(ReleaseRes(k, RES_TMR), 2, 0, 1) && ReleaseRes(k, RES_TMR).slots == k.slots
  {
    FindCore(k.res, 2, 0, 0);
  }

  // The I/O ring

  /** Recording one more event moves the protocol automaton one step. */
  lemma IoPhaseStep(h: seq<IoEvent>, e: IoEvent)
    ensures IoPhaseOf(h + [e]) == IoNext(IoPhaseOf(h), e)
  {
    assert (h + [e])[..|h|] == h;
  }

  /** A queued request goes into an empty ring. */
  lemma RingAccepts(pending: Ring8, head: nat, tail: nat, h: seq<IoEvent>, ask: Ask)
    requires RingOk(pending, head, tail, 1, h)
    requires ask.code in {SI_READ, SI_WRITE, SI_SYS} && SafeTrap(ask.code, ask.r1, ask.r2)
    ensures NextIndex(tail) != head
    ensures
      var req := IoRequest(Some(ask.serial), ask.code, ask.r0, ask.r1, ask.r2, 1);
      RingOk(pending[tail := req], head, NextIndex(tail), 0, h + [Accepted(ask)])
  {
    IoPhaseStep(h, Accepted(ask));
  }

  /** A well-formed I/O resource with a free unit has exactly one, and nobody waits for it. */
  lemma RequestIo(k: Kernel, i: nat, mem: int, cpu: int, tmr: int)
    requires Good(k, mem, cpu, tmr) && Occupied(k, i)
    ensures Grants(k, RES_IO) <==> k.res[0].available > 0
    ensures Grants(k, RES_IO) ==> k.res[0].available == 1 && k.ioHead == k.ioTail && k.res[0].queue == []
    ensures Good(AfterRequest(k, RES_IO, i), mem, cpu, tmr)
    ensures
      var k' := AfterRequest(k, RES_IO, i);
      && k' == k.(slots := k'.slots, res := k'.res, history := k'.history)
      && Occupied(k', i) && k'.history.io == k.history.io
  {
    hide TableOk, Shrinks;
    FindCore(k.res, mem, cpu, tmr);
    var k' := AfterRequest(k, RES_IO, i);
    PutGood(k, i, At(k', i), mem, cpu, tmr);
  }

  lemma EnqueueIoGood(k: Kernel, i: nat, code: Word, r0: Word, r1: Word, r2: Word, mem: int, cpu: int, tmr: int)
    requires Good(k, mem, cpu, tmr) && Occupied(k, i)
    requires code in {SI_READ, SI_WRITE, SI_SYS} && SafeTrap(code, r1, r2)
    ensures Good(EnqueueIo(k, i, code, r0, r1, r2), mem, cpu, tmr)
    ensures Occupied(EnqueueIo(k, i, code, r0, r1, r2), i)
    ensures AcceptsIo(k) <==> Grants(k, RES_IO)
  {
    RequestIo(k, i, mem, cpu, tmr);
    if Grants(k, RES_IO) {
      FindCore(k.res, mem, cpu, tmr);
      RingAccepts(k.pending, k.ioHead, k.ioTail, k.history.io, Ask(At(k, i).serial, code, r0, r1, r2));
      PutGood(AfterRequest(k, RES_IO, i), i, At(k, i).(state := BLOCKED, waitingResId := RES_IO), mem, cpu, tmr);
    }
  }

  /** What completing the request in flight may change: slots (not who is in them), the I/O unit, the disk. */
  predicate IoFrame(k: Kernel, k': Kernel, mem: int, cpu: int, tmr: int) {
    && k' == k.(slots := k'.slots, res := k'.res, disk := k'.disk)
    && Shrinks(k.slots, k'.slots)
    && (forall j :: 0 <= j < MAX_PRIORITY && k.slots[j].Some? ==> k'.slots[j].Some?)
    && ResOk(k'.res, mem, cpu, tmr) && k'.res[0].available <= 1 && !k'.disk.busy
  }

  /** Waking the next waiter, or freeing the unit, while the request that held it leaves the ring. */
  lemma ReleaseIo(k: Kernel, mem: int, cpu: int, tmr: int)
    requires Good(k, mem, cpu, tmr) && k.ioHead != k.ioTail
    ensures IoFrame(k, ReleaseRes(k, RES_IO), mem, cpu, tmr)
  {
    assert |k.res| == 4 && k.res[0].available <= 0;
    hide ReleaseUnit, ResOk;
    ReleaseIoUnit(k.res, mem, cpu, tmr);
  }

  lemma ReleaseIoUnit(res: seq<Resource>, mem: int, cpu: int, tmr: int)
    requires ResOk(res, mem, cpu, tmr) && res[0].available <= 0
    ensures
      var rs := ReleaseUnit(res, RES_IO).0;
      ResOk(rs, mem, cpu, tmr) && rs[0].available <= 1
  {
    FindCore(res, mem, cpu, tmr);
  }

  lemma FrameThenPut(k: Kernel, k': Kernel, i: nat, p: Process, mem: int, cpu: int, tmr: int)
    requires IoFrame(k, k', mem, cpu, tmr) && Occupied(k', i)
    requires SameIdentity(At(k', i), p) && At(k', i).context == p.context
    ensures IoFrame(k, Put(k', i, p), mem, cpu, tmr)
  {
  }

  lemma PutThenFrame(k: Kernel, k': Kernel, k'': Kernel, mem: int, cpu: int, tmr: int)
    requires k' == k.(slots := k'.slots, disk := k'.disk) && Shrinks(k.slots, k'.slots)
    requires forall j :: 0 <= j < MAX_PRIORITY && k.slots[j].Some? ==> k'.slots[j].Some?
    requires IoFrame(k', k'', mem, cpu, tmr)
    ensures IoFrame(k, k'', mem, cpu, tmr)
  {
  }

  /** The transfer touches only the requester's machine or the disk. */
  lemma TransferFrame(k: Kernel, i: nat, req: IoRequest, mem: int, cpu: int, tmr: int)
    requires Good(k, mem, cpu, tmr) && Occupied(k, i) && At(k, i).vm.Some?
    ensures
      var k' := Transfer(k, i, req);
      && k' == k.(slots := k'.slots, disk := k'.disk) && Good(k', mem, cpu, tmr)
      && (forall j :: 0 <= j < MAX_PRIORITY && k.slots[j].Some? ==> k'.slots[j].Some?)
      && Shrinks(k.slots, k'.slots)
  {
    var k' := Transfer(k, i, req);
    assert !k'.disk.busy;
    PutGood(k, i, At(k', i), mem, cpu, tmr);
  }

  lemma CompleteIoFrame(k: Kernel, req: IoRequest, mem: int, cpu: int, tmr: int)
    requires Good(k, mem, cpu, tmr) && k.ioHead != k.ioTail
    ensures IoFrame(k, CompleteIo(k, req), mem, cpu, tmr)
  {
    var i := Requester(k, req);
    if i.Some? {
      var k1 := Transfer(k, i.value, req);
      TransferFrame(k, i.value, req, mem, cpu, tmr);
      ReleaseIo(k1, mem, cpu, tmr);
      var k2 := ReleaseRes(k1, RES_IO);
      PutThenFrame(k, k1, k2, mem, cpu, tmr);
      FrameThenPut(k, k2, i.value, At(k2, i.value).(state := READY, waitingResId := 0), mem, cpu, tmr);
    }
  }

  /** One handler step moves the single request in flight one phase on. */
  lemma RingWaits(pending: Ring8, head: nat, tail: nat, available: int, h: seq<IoEvent>)
    requires RingOk(pending, head, tail, available, h) && head != tail && pending[head].ticks > 0
    ensures
      var req := pending[head].(ticks := pending[head].ticks - 1);
      RingOk(pending[head := req], head, tail, available, h + [HandlerStep])
  {
    IoPhaseStep(h, HandlerStep);
  }

  lemma RingEmpties(pending: Ring8, head: nat, tail: nat, available: int, h: seq<IoEvent>, available': int)
    requires RingOk(pending, head, tail, available, h) && head != tail && pending[head].ticks == 0 && available' <= 1
    ensures
      var req := pending[head];
      RingOk(pending[head := req.(proc := None, code := 0)], NextIndex(head), tail, available',
             h + [HandlerStep, Consumed(AskOf(req))])
  {
    var e := Consumed(AskOf(pending[head]));
    IoPhaseStep(h, HandlerStep);
    IoPhaseStep(h + [HandlerStep], e);
    assert h + [HandlerStep, e] == h + [HandlerStep] + [e];
  }

  lemma ConsumeGood(k: Kernel, k': Kernel, mem: int, cpu: int, tmr: int)
    requires Good(k, mem, cpu, tmr) && Due(k) && IoFrame(k, k', mem, cpu, tmr)
    ensures
      var req := k.pending[k.ioHead];
      Good(k'.(pending := k.pending[k.ioHead := req.(proc := None, code := 0)], ioHead := NextIndex(k.ioHead),
               history := k.history.(io := k.history.io + HandlerEvents(k))), mem, cpu, tmr)
  {
    RingEmpties(k.pending, k.ioHead, k.ioTail, k.res[0].available, k.history.io, k'.res[0].available);
    ShrinkingIsFine(k.slots, k'.slots, k.prioMin, k.prioMax, k.lastPid, k.added);
  }

  lemma IoHandlerGood(k: Kernel, mem: int, cpu: int, tmr: int)
    requires Good(k, mem, cpu, tmr)
    ensures Good(IoHandler(k), mem, cpu, tmr)
    ensures forall j :: 0 <= j < MAX_PRIORITY && k.slots[j].Some? ==> IoHandler(k).slots[j].Some?
  {
    hide CompleteIo, IoPhaseOf;
    if Due(k) {
      var req := k.pending[k.ioHead];
      CompleteIoFrame(k, req, mem, cpu, tmr);
      ConsumeGood(k, CompleteIo(k, req), mem, cpu, tmr);
    } else if k.ioHead != k.ioTail {
      RingWaits(k.pending, k.ioHead, k.ioTail, k.res[0].available, k.history.io);
    } else {
      IoPhaseStep(k.history.io, HandlerStep);
    }
  }
}
