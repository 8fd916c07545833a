/**
  Interrupt handling with whatever the latches hold: which interrupt a call
  takes, what it does to the current process, and how the interrupt handler
  reacts to it. In the kernel's own runs only the timer is ever pending.
  */
module InterruptLaws {
  import opened Words
  import opened Isa
  import opened RealMachine
  import opened Resources
  import opened KernelModel
  import opened OperationLaws

  // The kernel's call

  /** There is a current process, and it is not an interrupt handler. */
  predicate MaySleep(k: Kernel) {
    k.current.Some? && Occupied(k, k.current.value) && At(k, k.current.value).procType != INTERRUPT_HANDLER
  }

  /** The table after the current process was put to sleep, if it may be. */
  function AfterSleep(k: Kernel): Slots {
    if MaySleep(k) then k.slots[k.current.value := Some(At(k, k.current.value).(state := BLOCKED))] else k.slots
  }

  /** The processor as the kernel sees it, the timer latched if it went off. */
  function Seen(k: Kernel, fired: bool): Cpu {
    if fired then k.cpu.(ti := 1) else k.cpu
  }

  /** Whose turn it is, for the blame. */
  function Blamed(k: Kernel): Word {
    if k.current.Some? && Occupied(k, k.current.value) then At(k, k.current.value).pid else k.lastTrapPid
  }

  /** A program interrupt is taken first: it is recorded and cleared, and the current process sleeps. The rest waits. */
  lemma ProgramFirst(k: Kernel, fired: bool)
    requires k.cpu.pi != 0
    ensures
      KernelHandleInterrupts(k, fired) ==
      k.(lastPi := k.cpu.pi, cpu := Seen(k, fired).(pi := 0), slots := AfterSleep(k),
         current := if MaySleep(k) then None else k.current, lastTrapPid := Blamed(k))
  {
  }

  /** Then a HALT, in the same way. */
  lemma HaltNext(k: Kernel, fired: bool)
    requires k.cpu.pi == 0 && k.cpu.si == 3
    ensures
      KernelHandleInterrupts(k, fired) ==
      k.(lastSi := 3, cpu := Seen(k, fired).(si := 0), slots := AfterSleep(k),
         current := if MaySleep(k) then None else k.current, lastTrapPid := Blamed(k))
  {
  }

  /**
    Then a READ, WRITE or SYS of the current process, with a unit free and room in
    the ring: the request goes to the tail with the first three registers, the
    process sleeps and is no longer current unless it is an interrupt handler,
    the latch is cleared, and the timer waits.
    */
  lemma RequestAccepted(k: Kernel, fired: bool, j: nat)
    requires k.cpu.pi == 0 && k.cpu.si in {1, 2, 4}
    requires k.current.Some? && Occupied(k, k.current.value) && k.ioTail < 8 && (k.ioTail + 1) % 8 != k.ioHead
    requires FirstRes(k.res, j, 1) && k.res[j].available > 0
    ensures
      var p := At(k, k.current.value);
      var k' := KernelHandleInterrupts(k, fired);
      && k'.pending == k.pending[k.ioTail := IoRequest(Some(p.serial), k.cpu.si, k.cpu.r[0], k.cpu.r[1], k.cpu.r[2], 1)]
      && k'.ioTail == (k.ioTail + 1) % 8 && k'.res == k.res[j := k.res[j].(available := k.res[j].available - 1)]
      && k'.lastSi == k.cpu.si && k'.cpu == Seen(k, fired).(si := 0)
      && k'.current == if MaySleep(k) then None else k.current
    ensures
      WakesHandler(k.slots[k.current.value := Some(At(k, k.current.value).(state := BLOCKED, waitingResId := 1))],
                   KernelHandleInterrupts(k, fired).slots)
  {
    hide EnqueueIo, WakeByType, AfterRequest, WakesHandler, FirstRes;
    var c := k.current.value;
    var k1 := LatchTimer(k, fired);
    var k2 := SetCpu(k1, k1.cpu.pi, SI_NONE, k1.cpu.ti).(lastSi := k.cpu.si);
    var ask := Ask(At(k, c).serial, k.cpu.si, k.cpu.r[0], k.cpu.r[1], k.cpu.r[2]);
    QueuedExactly(k2, c, j, ask);
    var k3 := EnqueueIo(k2, c, ask.code, ask.r0, ask.r1, ask.r2);
    QueueFrame(k2, c, ask.code, ask.r0, ask.r1, ask.r2);
    SleepsAlready(k3, c, CurrentCanBlock(k1));
    WokenHandler(BlockRequester(k3, c, CurrentCanBlock(k1)));
  }

  /** The lowest blocked I/O handler, if there is one, is ready, and nobody else changed. */
  predicate WakesHandler(s: Slots, s': Slots) {
    && (forall i :: 0 <= i < MAX_PRIORITY && LowestBlocked(s, i, IO_HANDLER) ==>
          s' == s[i := Some(s[i].value.(state := READY))])
    && (NobodyBlocked(s, IO_HANDLER) ==> s' == s)
  }

  lemma WokenHandler(k: Kernel)
    ensures WakesHandler(k.slots, WakeByType(k, IO_HANDLER).slots)
    ensures WakeByType(k, IO_HANDLER) == k.(slots := WakeByType(k, IO_HANDLER).slots)
  {
    forall i | 0 <= i < MAX_PRIORITY && LowestBlocked(k.slots, i, IO_HANDLER)
      ensures WakeByType(k, IO_HANDLER).slots == k.slots[i := Some(k.slots[i].value.(state := READY))]
    {
      WokenExactly(k, IO_HANDLER, i);
    }
    WokenExactly(k, IO_HANDLER, 0);
  }

  /** Queueing a request changes neither who is current nor the processor. */
  lemma QueueFrame(k: Kernel, i: nat, code: Word, r0: Word, r1: Word, r2: Word)
    requires Occupied(k, i)
    ensures
      var k' := EnqueueIo(k, i, code, r0, r1, r2);
      k'.current == k.current && k'.cpu == k.cpu && k'.lastSi == k.lastSi && k'.ioTail in {k.ioTail, (k.ioTail + 1) % 8}
  {
  }

  lemma SleepsAlready(k: Kernel, c: nat, canBlock: bool)
    requires k.current == Some(c) && Occupied(k, c) && At(k, c).state == BLOCKED
    ensures BlockRequester(k, c, canBlock) == k.(current := if canBlock then None else k.current)
  {
    assert k.slots[c := k.slots[c]] == k.slots;
  }

  /**
    With no unit free the request is not queued: the current process is suspended
    and stays current, and the I/O handler is woken all the same.
    */
  lemma RequestDenied(k: Kernel, fired: bool, j: nat)
    requires k.cpu.pi == 0 && k.cpu.si in {1, 2, 4} && k.current.Some? && Occupied(k, k.current.value)
    requires FirstRes(k.res, j, 1) && k.res[j].available <= 0 && k.ioTail < 8
    ensures
      var c := k.current.value;
      var k' := KernelHandleInterrupts(k, fired);
      && k'.pending == k.pending && k'.ioTail == k.ioTail && k'.current == k.current
      && k'.lastSi == k.cpu.si && k'.cpu == Seen(k, fired).(si := 0)
      && WakesHandler(k.slots[c := Some(At(k, c).(state := SUSP_BLOCKED, waitingResId := 1))], k'.slots)
  {
    hide EnqueueIo, WakeByType, AfterRequest, WakesHandler, FirstRes;
    var c := k.current.value;
    var k1 := LatchTimer(k, fired);
    var k2 := SetCpu(k1, k1.cpu.pi, SI_NONE, k1.cpu.ti).(lastSi := k.cpu.si);
    QueuedExactly(k2, c, j, Ask(At(k, c).serial, k.cpu.si, k.cpu.r[0], k.cpu.r[1], k.cpu.r[2]));
    RequestedExactly(k2, 1, c, j);
    WokenHandler(EnqueueIo(k2, c, k.cpu.si, k.cpu.r[0], k.cpu.r[1], k.cpu.r[2]));
  }

  /** Without a current process a system request is only recorded and cleared. */
  lemma RequestOfNobody(k: Kernel, fired: bool)
    requires k.cpu.pi == 0 && k.cpu.si in {1, 2, 4} && k.current.None?
    ensures KernelHandleInterrupts(k, fired) == k.(lastSi := k.cpu.si, cpu := Seen(k, fired).(si := 0))
  {
  }

  // A switch of contexts

  /** The table once the current process, if it is running, is saved and ready. */
  function SavedSlots(k: Kernel): Slots {
    if k.current.Some? && Occupied(k, k.current.value) && At(k, k.current.value).state == RUNNING then
      k.slots[k.current.value := Some(At(k, k.current.value).(state := READY, context := k.cpu))]
    else k.slots
  }

  /** The highest ready process with a machine between the recorded priorities. */
  predicate Next(k: Kernel, s: Slots, j: nat) {
    && 0 <= k.prioMin <= j <= k.prioMax < MAX_PRIORITY && s[j].Some? && s[j].value.state == READY && s[j].value.vm.Some?
    && forall h :: j < h <= k.prioMax && s[h].Some? ==> s[h].value.state != READY || s[h].value.vm.None?
  }

  predicate NoNext(k: Kernel, s: Slots) {
    forall h :: 0 <= h < MAX_PRIORITY && s[h].Some? ==> s[h].value.state != READY || s[h].value.vm.None?
  }

  /**
    A switch, exactly: the running current process is saved and ready; then the
    next one, which may be the one just saved, is loaded, current and running.
    With no next one only the save happens.
    */
  lemma SwitchExactly(k: Kernel, j: nat)
    ensures
      var k' := ContextSwitch(k);
      var s := SavedSlots(k);
      && (Next(k, s, j) ==>
            k'.slots == s[j := Some(s[j].value.(state := RUNNING))] && k'.current == Some(j)
            && k'.cpu == s[j].value.context)
      && (NoNext(k, s) ==> k'.slots == s && k'.current == k.current && k'.cpu == k.cpu)
  {
    hide SwitchOut, NextRunnable;
    SwitchedOut(k);
    NextFound(SwitchOut(k), j);
  }

  lemma SwitchedOut(k: Kernel)
    ensures
      var k1 := SwitchOut(k);
      && k1.slots == SavedSlots(k) && k1.current == k.current && k1.cpu == k.cpu
      && k1.prioMin == k.prioMin && k1.prioMax == k.prioMax
  {
  }

  lemma NextFound(k: Kernel, j: nat)
    ensures Next(k, k.slots, j) ==> NextRunnable(k) == Some(j)
    ensures NoNext(k, k.slots) ==> NextRunnable(k).None?
  {
    if Next(k, k.slots, j) {
      assert Runnable()(k.slots[j]);
    }
  }

  /** The state in which the timer switches: recorded, and the latch cleared. */
  function TimerSeen(k: Kernel): Kernel {
    k.(lastTrapPid := Blamed(k), lastSi := if k.cpu.si == 0 then 0 else k.lastSi, lastTi := 1, cpu := k.cpu.(ti := 0))
  }

  /** The timer comes last: expired, it switches contexts; any other latch is only cleared. */
  lemma TimerLast(k: Kernel, fired: bool)
    requires k.cpu.pi == 0 && k.cpu.si !in {1, 2, 3, 4}
    ensures
      var k' := KernelHandleInterrupts(k, fired);
      if Seen(k, fired).ti == 1 then k' == ContextSwitch(TimerSeen(k))
      else k' == TimerSeen(k).(lastTi := k.cpu.ti)
  {
    hide ContextSwitch;
  }

  /**
    Interrupts are taken one by one: with a program interrupt, a HALT and an
    expired timer all pending, and a current process that may sleep, three calls
    take them in this order, and then nothing is pending. The process sleeps from
    the first on, so the switch saves nobody.
    */
  lemma OneByOne(k: Kernel, j: nat)
    requires k.cpu.pi != 0 && k.cpu.si == 3 && k.cpu.ti == 1 && MaySleep(k)
    ensures
      var k1 := KernelHandleInterrupts(k, false);
      var k2 := KernelHandleInterrupts(k1, false);
      var k3 := KernelHandleInterrupts(k2, false);
      && k1.lastPi == k.cpu.pi && k1.cpu == k.cpu.(pi := 0) && k1.current == None
      && k2.lastSi == 3 && k2.cpu == k.cpu.(pi := 0, si := 0) && k2.slots == k1.slots == AfterSleep(k)
      && k3.lastTi == 1
      && (Next(k, AfterSleep(k), j) ==>
            k3.slots == AfterSleep(k)[j := Some(AfterSleep(k)[j].value.(state := RUNNING))] && k3.current == Some(j)
            && k3.cpu == AfterSleep(k)[j].value.context)
      && (NoNext(k, AfterSleep(k)) ==> k3.slots == AfterSleep(k) && k3.cpu == k.cpu.(pi := 0, si := 0, ti := 0))
  {
    hide KernelHandleInterrupts, ContextSwitch;
    var k1 := KernelHandleInterrupts(k, false);
    var k2 := KernelHandleInterrupts(k1, false);
    ProgramFirst(k, false);
    HaltNext(k1, false);
    TimerLast(k2, false);
    SwitchExactly(TimerSeen(k2), j);
    SwitchKeepsLatch(TimerSeen(k2));
  }

  lemma SwitchKeepsLatch(k: Kernel)
    ensures ContextSwitch(k).lastTi == k.lastTi
  {
  }

  // The interrupt handler's reactions

  /**
    The process to blame: the last one that ran a machine, if that is known and it
    is still there; if none ever ran, the lowest one with the identifier that
    trapped last.
    */
  predicate Owns(k: Kernel, i: nat) {
    && Occupied(k, i)
    && if k.lastVm.Some? then
         && At(k, i).serial == k.lastVm.value
         && forall j :: 0 <= j < i && k.slots[j].Some? ==> k.slots[j].value.serial != k.lastVm.value
       else k.lastTrapPid != 0 && LowestNamed(k.slots, i, k.lastTrapPid % 256)
  }

  predicate NobodyOwns(k: Kernel) {
    if k.lastVm.Some? then
      forall j :: 0 <= j < MAX_PRIORITY && k.slots[j].Some? ==> k.slots[j].value.serial != k.lastVm.value
    else k.lastTrapPid == 0 || NobodyNamed(k.slots, k.lastTrapPid % 256)
  }

  lemma OwnerFound(k: Kernel, i: nat)
    ensures Owns(k, i) ==> VmOwner(k) == Some(i)
    ensures NobodyOwns(k) ==> VmOwner(k).None?
  {
    if k.lastVm.Some? {
      if Owns(k, i) {
        assert HasSerial(k.lastVm.value)(k.slots[i]);
      }
    } else {
      NamedFound(k.slots, i, k.lastTrapPid % 256);
    }
  }

  /** The blamed process has lost its machine, is done, and is ready. */
  function Retired(p: Process): Process {
    p.(vm := None, loaded := 3, state := READY)
  }

  /** The table after process `i` is retired and its parent, in slot `g`, woken. */
  lemma RetiredExactly(k: Kernel, i: nat, g: nat)
    requires Occupied(k, i)
    ensures
      var s := k.slots[i := Some(Retired(At(k, i)))];
      var k' := RetireVm(k, i);
      && (At(k, i).parentPid == 0 || NobodyNamed(s, At(k, i).parentPid) ==> k' == k.(slots := s))
      && (At(k, i).parentPid != 0 && LowestNamed(s, g, At(k, i).parentPid) ==>
            k' == k.(slots := s[g := Some(s[g].value.(state := READY))]))
  {
    UnblockedExactly(Put(k, i, Retired(At(k, i))), At(k, i).parentPid, g);
  }

  /** After the reactions nothing is latched. */
  function Unlatched(k: Kernel): Kernel {
    k.(lastPi := 0, lastSi := 0, lastTi := 0)
  }

  /** A READ or WRITE wakes the I/O handler, and does nothing else. */
  lemma TransferWakesHandler(k: Kernel)
    requires k.lastPi == 0 && k.lastSi in {1, 2}
    ensures React(k) == Unlatched(k).(slots := React(k).slots) && WakesHandler(k.slots, React(k).slots)
  {
    hide WakeByType, WakesHandler;
    WokenHandler(k);
  }

  /** A HALT retires the process to blame, machine or not; with nobody to blame it does nothing. */
  lemma HaltRetires(k: Kernel, i: nat)
    requires k.lastPi == 0 && k.lastSi == 3
    ensures Owns(k, i) ==> React(k) == Unlatched(RetireVm(k, i))
    ensures NobodyOwns(k) ==> React(k) == Unlatched(k)
  {
    OwnerFound(k, i);
  }

  /**
    A program interrupt wakes the lowest blocked governor, and retires the process
    to blame if it still has a machine.
    */
  lemma FaultRetires(k: Kernel, g: nat, i: nat)
    requires k.lastPi != 0 && k.lastSi !in {1, 2, 3}
    ensures
      var k1 := k.(slots := WakeByType(k, JOB_GOVERNOR).slots);
      && (LowestBlocked(k.slots, g, JOB_GOVERNOR) ==>
            k1.slots == k.slots[g := Some(k.slots[g].value.(state := READY))])
      && (NobodyBlocked(k.slots, JOB_GOVERNOR) ==> k1.slots == k.slots)
      && (Owns(k1, i) && At(k1, i).vm.Some? ==> React(k) == Unlatched(RetireVm(k1, i)))
      && ((Owns(k1, i) && At(k1, i).vm.None?) || NobodyOwns(k1) ==> React(k) == Unlatched(k1))
  {
    hide RetireVm;
    WokenExactly(k, JOB_GOVERNOR, g);
    OwnerFound(k.(slots := WakeByType(k, JOB_GOVERNOR).slots), i);
  }

  /** A SYS, or nothing latched, has no reaction. */
  lemma NoReaction(k: Kernel)
    requires k.lastPi == 0 && k.lastSi !in {1, 2, 3}
    ensures React(k) == Unlatched(k)
  {
  }

  // The timer unit

  /** The four resources, in the order in which they are created. */
  predicate FourResources(res: seq<Resource>) {
    |res| == 4 && res[0].id == 1 && res[1].id == 2 && res[2].id == 3 && res[3].id == 4
  }

  /** At most the first resource changes. */
  predicate OnlyFirst(res: seq<Resource>, res': seq<Resource>) {
    FourResources(res) && FourResources(res') && res'[1..] == res[1..]
  }

  lemma QueueingRes(k: Kernel, i: nat, code: Word, r0: Word, r1: Word, r2: Word)
    requires Occupied(k, i) && FourResources(k.res)
    ensures OnlyFirst(k.res, EnqueueIo(k, i, code, r0, r1, r2).res)
  {
    hide Wrap8;
    FoundRes(k.res, 0, 1);
    RequestedExactly(k, 1, i, 0);
    FoundRes(AfterRequest(k, 1, i).res, 0, 1);
  }

  lemma SystemRequestRes(k: Kernel)
    requires FourResources(k.res)
    ensures OnlyFirst(k.res, HandleSystemRequest(k).res)
  {
    hide EnqueueIo, WakeByType;
    if k.current.Some? && Occupied(k, k.current.value) {
      var k1 := SetCpu(k, k.cpu.pi, SI_NONE, k.cpu.ti).(lastSi := k.cpu.si);
      QueueingRes(k1, k.current.value, k.cpu.si, k.cpu.r[0], k.cpu.r[1], k.cpu.r[2]);
      var k2 := EnqueueIo(k1, k.current.value, k.cpu.si, k.cpu.r[0], k.cpu.r[1], k.cpu.r[2]);
      WokenHandler(BlockRequester(k2, k.current.value, CurrentCanBlock(k)));
    }
  }

  lemma HandledRes(k: Kernel, fired: bool)
    requires FourResources(k.res)
    ensures OnlyFirst(k.res, KernelHandleInterrupts(k, fired).res)
  {
    hide HandleSystemRequest, ContextSwitch;
    if k.cpu.pi != 0 {
      ProgramFirst(k, fired);
    } else if k.cpu.si == 3 {
      HaltNext(k, fired);
    } else if k.cpu.si in {1, 2, 4} {
      SystemRequestRes(LatchTimer(k, fired));
    } else {
      TimerLast(k, fired);
      SwitchRes(TimerSeen(k));
    }
  }

  lemma SwitchRes(k: Kernel)
    ensures ContextSwitch(k).res == k.res
  {
  }

  /** The reactions reach only the table, and leave no latch. */
  lemma ReactionTouches(k: Kernel)
    ensures React(k) == k.(slots := React(k).slots, lastPi := 0, lastSi := 0, lastTi := 0)
  {
    hide RetireVm, WakeByType, ReactToSi;
    SiReactionTouches(k);
    var k1 := ReactToSi(k);
    WakingTouches(k1, JOB_GOVERNOR);
    var k2 := WakeByType(k1, JOB_GOVERNOR);
    if VmOwner(k2).Some? {
      RetiringTouches(k2, VmOwner(k2).value);
    }
  }

  lemma SiReactionTouches(k: Kernel)
    ensures ReactToSi(k) == k.(slots := ReactToSi(k).slots)
  {
    hide RetireVm, WakeByType;
    WakingTouches(k, IO_HANDLER);
    if VmOwner(k).Some? {
      RetiringTouches(k, VmOwner(k).value);
    }
  }

  lemma WakingTouches(k: Kernel, t: ProcType)
    ensures WakeByType(k, t) == k.(slots := WakeByType(k, t).slots)
  {
  }

  lemma RetiringTouches(k: Kernel, i: nat)
    requires Occupied(k, i)
    ensures RetireVm(k, i) == k.(slots := RetireVm(k, i).slots)
  {
  }

  /**
    The handler returns the timer unit exactly when it was granted one: whatever
    it finds latched, whoever is current, and whether or not the unit was free,
    there are as many free timer units afterwards as before.
    */
  lemma TimerUnitBalanced(k: Kernel, fired: bool)
    requires FourResources(k.res) && k.res[3].queue == []
    ensures
      var res' := InterruptHandler(k, fired).res;
      FourResources(res') && res'[3].available == k.res[3].available
  {
    hide KernelHandleInterrupts, React, AfterRequest, ReleaseRes, Wrap8;
    FoundRes(k.res, 3, 4);
    if k.current.Some? && Occupied(k, k.current.value) {
      RequestedExactly(k, 4, k.current.value, 3);
    }
    var k0 := ClaimTimer(k);
    HandledRes(k0, fired);
    ReactionTouches(KernelHandleInterrupts(k0, fired));
    ReleasedExactly(Service(k0, fired), 4, 3, 0);
  }

  /**
    The handler does its work with or without the timer unit: a pending fault is
    cleared from the processor, nothing else there changes, and no latch is left.
    */
  lemma ServesWithoutTimer(k: Kernel, fired: bool)
    requires k.cpu.pi != 0
    ensures
      var k' := InterruptHandler(k, fired);
      k'.cpu == Seen(k, fired).(pi := 0) && k'.lastPi == k'.lastSi == k'.lastTi == 0
  {
    hide KernelHandleInterrupts, React, AfterRequest, ReleaseRes;
    var k0 := ClaimTimer(k);
    if k.current.Some? && Occupied(k, k.current.value) {
      RequestTouches(k, RES_TMR, k.current.value);
    }
    ProgramFirst(k0, fired);
    ReactionTouches(KernelHandleInterrupts(k0, fired));
    ReleaseTouches(Service(k0, fired), RES_TMR);
  }
}
