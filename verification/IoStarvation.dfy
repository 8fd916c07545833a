/**
  When the I/O unit is lost, and what that means. The unit of a completed request
  goes to the longest-waiting process, but that process does not ask again: its
  machine has already moved past the trap. So the unit is held by nobody who will
  ever release it, and from then on every request is denied.
  */
module IoStarvation {
  import opened Words
  import opened VirtualMachine
  import opened Resources
  import opened KernelModel
  import opened KernelInvariant
  import opened KernelSafety
  import opened GovernorProtocol
  import opened MachineIsolation
  import opened PendingRequests

  /** No unit is free, and no request is in flight that could give one back. */
  predicate Starved(k: Kernel) {
    IoFree(k) == 0 && k.ioHead == k.ioTail
  }

  /**
    Completing a request loses the unit exactly when somebody waits for it, or
    the requester is no longer there. Otherwise the unit is free again.
    */
  lemma StepLosesUnitExactly(k: Kernel, mem: int, cpu: int, tmr: int)
    requires Good(k, mem, cpu, tmr) && Due(k)
    ensures Starved(StepIo(k)) <==> IoQueue(k) != [] || Requester(k, k.pending[k.ioHead]).None?
    ensures !Starved(StepIo(k)) ==> IoFree(StepIo(k)) == 1 && StepIo(k).ioHead == k.ioTail
  {
    DueStep(k, mem, cpu, tmr);
    CompletionRes(k, k.pending[k.ioHead]);
    ReleasedUnit(k.res, mem, cpu, tmr);
  }

  /** A due request is the only one in flight, and its step empties the ring. */
  lemma DueStep(k: Kernel, mem: int, cpu: int, tmr: int)
    requires Good(k, mem, cpu, tmr) && Due(k)
    ensures IoFree(k) == 0 && StepIo(k).ioHead == StepIo(k).ioTail == k.ioTail
    ensures StepIo(k).res == CompleteIo(k, k.pending[k.ioHead]).res
  {
    CompleteIoFrame(k, k.pending[k.ioHead], mem, cpu, tmr);
    LastInRing(k.ioHead, k.ioTail);
  }

  lemma LastInRing(head: nat, tail: nat)
    requires head < RING_SIZE && tail < RING_SIZE && head != tail && InFlight(head, tail) <= 1
    ensures NextIndex(head) == tail
  {
  }

  lemma CompletionRes(k: Kernel, req: IoRequest)
    ensures CompleteIo(k, req).res == if Requester(k, req).Some? then ReleaseUnit(k.res, RES_IO).0 else k.res
  {
    hide ReleaseUnit, ReleaseRes;
    var i := Requester(k, req);
    if i.Some? {
      ReleasedRes(Transfer(k, i.value, req), RES_IO);
    }
  }

  lemma ReleasedRes(k: Kernel, id: int)
    ensures ReleaseRes(k, id).res == ReleaseUnit(k.res, id).0
  {
    hide ReleaseUnit;
  }

  lemma ReleasedUnit(res: seq<Resource>, mem: int, cpu: int, tmr: int)
    requires ResOk(res, mem, cpu, tmr)
    ensures
      var rs := ReleaseUnit(res, RES_IO).0;
      |rs| == |res| && rs[0].available == if res[0].queue == [] then res[0].available + 1 else res[0].available
  {
    FindCore(res, mem, cpu, tmr);
  }

  // For ever

  /** Nothing but fruitless handler steps was recorded since. */
  predicate OnlySteps(h: seq<IoEvent>, h': seq<IoEvent>) {
    |h| <= |h'| && h'[..|h|] == h && forall x :: |h| <= x < |h'| ==> h'[x] == HandlerStep
  }

  /** The invariant holds, the system is starved, and nothing has been accepted or completed since `k`. */
  predicate StarvedSince(k: Kernel, k': Kernel) {
    Resting(k') && Starved(k') && OnlySteps(k.history.io, k'.history.io)
  }

  lemma ShutdownTurn(k: Kernel, i: nat, fired: bool)
    requires Occupied(k, i) && ShutsDown(k, i)
    ensures TakeTurn(k, i, fired).res == k.res && TakeTurn(k, i, fired).history.io == k.history.io
  {
  }

  lemma ShutdownStaysStarved(k: Kernel, i: nat, fired: bool)
    requires Resting(k) && ReadyAt(k, i) && Occupied(TurnState(k, i), i) && ShutsDown(TurnState(k, i), i)
    ensures IoFree(Dispatch(k, i, fired)) == IoFree(k) && Dispatch(k, i, fired).history.io == k.history.io
  {
    TurnStateIs(k, i);
    ShutdownTurn(TurnState(k, i), i, fired);
    TurnReleases(k, i, fired);
    TurnQueue(k, i, fired);
  }

  lemma DispatchStaysStarved(k: Kernel, i: nat, fired: bool)
    requires Resting(k) && Starved(k)
    ensures StarvedSince(k, Dispatch(k, i, fired))
  {
    var k' := Dispatch(k, i, fired);
    DispatchKeepsInvariant(k, i, fired);
    OwnerIsInRing(k', 2, 1, 1);
    if ReadyAt(k, i) {
      StarvedTurn(k, i, fired);
    }
  }

  /** In a starved state a turn frees no unit and records at most a handler step. */
  lemma StarvedTurn(k: Kernel, i: nat, fired: bool)
    requires Resting(k) && Starved(k) && ReadyAt(k, i)
    ensures
      var k' := Dispatch(k, i, fired);
      && IoFree(k') == 0 && OnlySteps(k.history.io, k'.history.io) && IoPhaseOf(k'.history.io) == IoIdle
  {
    hide Dispatch, TurnState, IoPhaseOf;
    OwnerIsInRing(k, 2, 1, 1);
    TurnStateIs(k, i);
    if IsHandler(At(k, i)) {
      HandlerDispatchShape(k, i, fired);
      HandlerMovesPhase(k);
    } else if ShutsDown(TurnState(k, i), i) {
      ShutdownStaysStarved(k, i, fired);
    } else {
      QuietDispatch(k, i, fired);
    }
  }

  lemma {:induction false} RangeStaysStarved(k: Kernel, hi: int, lo: int, fired: set<nat>)
    requires Resting(k) && Starved(k) && hi < MAX_PRIORITY && 0 <= lo
    ensures StarvedSince(k, RunRange(k, hi, lo, fired))
    decreases hi - lo
  {
    hide Good, Dispatch;
    if hi < lo {
    } else {
      var k1 := Dispatch(k, hi, hi in fired);
      DispatchStaysStarved(k, hi, hi in fired);
      RangeStaysStarved(k1, hi - 1, lo, fired);
      SinceTrans(k, k1, RunRange(k, hi, lo, fired));
    }
  }

  lemma SinceTrans(k: Kernel, k1: Kernel, k2: Kernel)
    requires StarvedSince(k, k1) && StarvedSince(k1, k2)
    ensures StarvedSince(k, k2)
  {
    assert k2.history.io[..|k.history.io|] == k2.history.io[..|k1.history.io|][..|k.history.io|];
  }

  lemma ActionStaysStarved(k: Kernel, a: Action)
    requires Resting(k) && Starved(k)
    ensures StarvedSince(k, Act(k, a))
  {
    match a
    case Add(n) => AddProcGood(k, n.(parentPid := 0), 2, 1, 1);
    case Cycle(fired) =>
      var k1 := RunRange(k, MAX_PRIORITY - 1, FIRST_SYSTEM_SLOT, fired);
      RangeStaysStarved(k, MAX_PRIORITY - 1, FIRST_SYSTEM_SLOT, fired);
      RangeStaysStarved(k1, FIRST_SYSTEM_SLOT - 1, 0, fired);
      SinceTrans(k, k1, RunCycle(k, fired));
  }

  /**
    Starvation is for ever: whatever processes are created and whatever cycles
    run, no unit is free again, no request is accepted, and none completes.
    */
  lemma {:induction false} StarvedForEver(k: Kernel, acts: seq<Action>)
    requires Resting(k) && Starved(k)
    ensures StarvedSince(k, Run(k, acts)) && !AcceptsIo(Run(k, acts))
    decreases |acts|
  {
    if acts == [] {
    } else {
      var front := acts[..|acts| - 1];
      StarvedForEver(k, front);
      ActionStaysStarved(Run(k, front), acts[|acts| - 1]);
      SinceTrans(k, Run(k, front), Run(k, acts));
    }
    FindCore(Run(k, acts).res, 2, 1, 1);
  }

  // What becomes of a denied request

  /** A governor whose machine trapped, after its turn: asleep, with the machine past the trap. */
  function Trapped(p: Process): Process
    requires p.vm.Some?
  {
    p.(vm := Some(RunOperations(p.vm.value).vm), state := BLOCKED, waitingResId := RES_IO)
  }

  /** The queue after a denied request. */
  function Joined(q: seq<Byte>, pid: Byte): seq<Byte> {
    if |q| < MAX_WAIT_PIDS - 1 then q + [pid] else q
  }

  /** Nothing but slot `i`, the resources, the ring and the record of requests changes. */
  predicate OnlyRequests(k: Kernel, k': Kernel, i: nat) {
    && (forall j :: 0 <= j < MAX_PRIORITY && j != i ==> k'.slots[j] == k.slots[j])
    && k'.disk == k.disk && k'.files == k.files && k'.added == k.added && k'.history.shutDown == k.history.shutDown
  }

  /** What a trap leaves of the queue and the record of requests, depending on whether a unit was free. */
  predicate RequestedBy(k: Kernel, k': Kernel, granted: bool, pid: Byte, ask: Ask) {
    if granted then k'.history.io == k.history.io + [Accepted(ask)] && IoQueue(k') == []
    else && k'.history.io == k.history.io && IoQueue(k') == Joined(IoQueue(k), pid)
         && k'.pending == k.pending && k'.ioHead == k.ioHead && k'.ioTail == k.ioTail
  }

  lemma AskedFor(k: Kernel, i: nat)
    requires Good(k, 2, 0, 1) && Occupied(k, i)
    ensures
      var k' := AfterRequest(k, RES_IO, i);
      && OnlyRequests(k, k', i) && Occupied(k', i)
      && At(k', i) == At(k, i).(state := At(k', i).state, waitingResId := At(k', i).waitingResId)
      && (!Grants(k, RES_IO) ==> At(k', i).waitingResId == RES_IO && IoQueue(k') == Joined(IoQueue(k), At(k, i).pid))
      && (Grants(k, RES_IO) ==> IoQueue(k') == [])
  {
    RequestIo(k, i, 2, 0, 1);
    FindCore(k.res, 2, 0, 1);
  }

  /** A request of the process in slot `i`, exactly. */
  predicate RequestMade(k: Kernel, k': Kernel, i: nat, ask: Ask)
    requires Occupied(k, i)
  {
    && OnlyRequests(k, k', i) && Occupied(k', i)
    && At(k', i) == At(k, i).(state := At(k', i).state, waitingResId := RES_IO)
    && RequestedBy(k, k', Grants(k, RES_IO), At(k, i).pid, ask)
  }

  lemma AcceptedExactly(k: Kernel, i: nat, ask: Ask)
    requires Good(k, 2, 0, 1) && Occupied(k, i) && AcceptsIo(k) && ask.serial == At(k, i).serial
    ensures RequestMade(k, EnqueueIo(k, i, ask.code, ask.r0, ask.r1, ask.r2), i, ask)
  {
    AskedFor(k, i);
  }

  lemma DeniedExactly(k: Kernel, i: nat, ask: Ask)
    requires Good(k, 2, 0, 1) && Occupied(k, i) && !Grants(k, RES_IO)
    ensures RequestMade(k, EnqueueIo(k, i, ask.code, ask.r0, ask.r1, ask.r2), i, ask)
  {
    AskedFor(k, i);
    RequestIo(k, i, 2, 0, 1);
    DeniedRing(k, i);
  }

  lemma DeniedRing(k: Kernel, i: nat)
    requires Occupied(k, i)
    ensures
      var k' := AfterRequest(k, RES_IO, i);
      k'.pending == k.pending && k'.ioHead == k.ioHead && k'.ioTail == k.ioTail
  {
  }

  lemma EnqueueExactly(k: Kernel, i: nat, vm: Vm)
    requires Good(k, 2, 0, 1) && Occupied(k, i) && RunOperations(vm).rc == RC_TRAPPED
    requires At(k, i).vm == Some(RunOperations(vm).vm)
    ensures
      var o := RunOperations(vm).vm;
      RequestMade(k, EnqueueIo(k, i, o.trapCode, o.trapR0, o.trapR1, o.trapR2), i, TrapOf(At(k, i)).value)
  {
    RunOperationsOutcome(vm);
    var ask := TrapOf(At(k, i)).value;
    EnqueueIoGood(k, i, ask.code, ask.r0, ask.r1, ask.r2, 2, 0, 1);
    if Grants(k, RES_IO) {
      AcceptedExactly(k, i, ask);
    } else {
      DeniedExactly(k, i, ask);
    }
  }

  /** The turn of a governor whose machine traps, exactly: what becomes of the table, the queue and the record. */
  lemma TrapTurn(k: Kernel, i: nat, fired: bool)
    requires Good(k, 2, 0, 1) && k.current == Some(i) && Occupied(k, i) && IsGovernor(At(k, i))
    requires At(k, i).vm.Some? && At(k, i).loaded == LOADED && RunOperations(At(k, i).vm.value).rc == RC_TRAPPED
    ensures
      var k' := TakeTurn(k, i, fired);
      && OnlyRequests(k, k', i) && k'.slots[i] == Some(Trapped(At(k, i))) && k'.current == None
      && RequestedBy(k, k', Grants(k, RES_IO), At(k, i).pid, TrapOf(Trapped(At(k, i))).value)
  {
    hide TakeTurn, AfterRequest, EnqueueIo, RunOperations;
    var p := At(k, i);
    var o := RunOperations(p.vm.value).vm;
    var k1 := Put(Log(k, VmRan(p.serial)), i, p.(vm := Some(o)));
    PutGood(Log(k, VmRan(p.serial)), i, p.(vm := Some(o)), 2, 0, 1);
    EnqueueExactly(k1, i, p.vm.value);
    var k2 := EnqueueIo(k1, i, o.trapCode, o.trapR0, o.trapR1, o.trapR2);
    assert RunGovernorVm(k, i) == Return(BlockGovernor(k2, i), -1);
    GovernorTurnIs(k, i, fired, BlockGovernor(k2, i));
  }

  lemma GovernorTurnIs(k: Kernel, i: nat, fired: bool, k': Kernel)
    requires Occupied(k, i) && IsGovernor(At(k, i)) && At(k, i).vm.Some? && At(k, i).loaded == LOADED
    requires RunGovernorVm(k, i) == Return(k', -1) && Occupied(k', i)
    ensures TakeTurn(k, i, fired) == SetState(k', i, BLOCKED).(current := None)
  {
  }

  /**
    A denied request is lost. A governor whose machine traps while no unit is
    free goes to sleep with its machine past the trap and its memory as it was;
    nothing is queued for the handler, the disk is not touched, and the machine
    will go on from there.
    */
  lemma DeniedRequestIsLost(k: Kernel, i: nat, fired: bool)
    requires Resting(k) && ReadyAt(k, i) && IsGovernor(At(k, i)) && At(k, i).vm.Some? && At(k, i).loaded == LOADED
    requires RunOperations(At(k, i).vm.value).rc == RC_TRAPPED && !AcceptsIo(k)
    ensures
      var vm := At(k, i).vm.value;
      var k' := Dispatch(k, i, fired);
      && Asleep(k', i) && At(k', i).vm == Some(RunOperations(vm).vm)
      && RunOperations(vm).vm.memory == vm.memory && RunOperations(vm).vm.pc >= vm.pc + 2
      && k'.disk == k.disk && k'.history.io == k.history.io
  {
    var t := TurnState(k, i);
    TurnStateIs(k, i);
    FindCore(k.res, 2, 1, 1);
    FindCore(t.res, 2, 0, 1);
    RequestIo(k, i, 2, 1, 1);
    TurnQueue(k, i, fired);
    AcceptsIffFree(k);
    TrapTurn(t, i, fired);
    TurnReleases(k, i, fired);
    TrapMovesOn(At(k, i).vm.value);
  }

  /** In a well-formed state a request is accepted exactly when a unit is free. */
  lemma AcceptsIffFree(k: Kernel)
    requires Resting(k)
    ensures AcceptsIo(k) <==> IoFree(k) > 0
  {
    FindCore(k.res, 2, 1, 1);
  }

  lemma TrapMovesOn(vm: Vm)
    requires RunOperations(vm).rc == RC_TRAPPED
    ensures RunOperations(vm).vm.memory == vm.memory && RunOperations(vm).vm.pc >= vm.pc + 2
  {
    RunOperationsOutcome(vm);
    FetchedMovesPc(ClearTrap(vm));
  }

  /** The unit of a completed request goes to the first in the queue, who is woken with its machine untouched. */
  lemma HandOffWakes(k: Kernel, i: nat, fired: bool, w: nat)
    requires Resting(k) && k.added <= MAX_ADDS && ReadyAt(k, i) && IsHandler(At(k, i)) && Due(k)
    requires Requester(k, k.pending[k.ioHead]).Some? && Requester(k, k.pending[k.ioHead]) != Some(w)
    requires IoQueue(k) != [] && Occupied(k, w) && w != i && At(k, w).pid == IoQueue(k)[0]
    ensures
      var k' := Dispatch(k, i, fired);
      Occupied(k', w) && At(k', w).vm == At(k, w).vm && At(k', w).state == READY && Starved(k')
  {
    var t := TurnState(k, i);
    TurnStateLeft(k, i, w);
    RequesterStays(k, i, w);
    TurnQueue(k, i, fired);
    TurnStateRequester(k, i);
    StepLosesUnitExactly(t, 2, 0, 1);
    HandOff(t, w);
    HandlerKeepsMachine(t, w, 2, 0, 1);
    HandlerTurnIs(t, i, fired, w);
    HandlerTurnRing(t, i, fired);
    TurnReleases(k, i, fired);
  }

  predicate SameRequesters(s: Slots, s': Slots) {
    forall j :: 0 <= j < MAX_PRIORITY ==>
      if s[j].None? then s'[j].None?
      else && s'[j].Some? && s'[j].value.serial == s[j].value.serial
           && (s'[j].value.vm.Some? <==> s[j].value.vm.Some?)
  }

  /** Who the requester is depends only on who is in the table and has a machine. */
  lemma SameRequester(k: Kernel, k': Kernel, req: IoRequest)
    requires SameRequesters(k.slots, k'.slots)
    ensures Requester(k', req) == Requester(k, req)
  {
    if req.proc.Some? {
      var test := HasSerial(req.proc.value);
      assert forall j :: 0 <= j < MAX_PRIORITY ==> test(k'.slots[j]) == test(k.slots[j]);
      assert LowestSlot(k'.slots, test) == LowestSlot(k.slots, test);
    }
  }

  lemma TurnStateRequester(k: Kernel, i: nat)
    requires Resting(k) && ReadyAt(k, i) && Due(k)
    ensures Due(TurnState(k, i))
    ensures Requester(TurnState(k, i), k.pending[k.ioHead]) == Requester(k, k.pending[k.ioHead])
  {
    TurnStateIs(k, i);
    SameRequester(k, TurnState(k, i), k.pending[k.ioHead]);
  }

  lemma HandOff(k: Kernel, w: nat)
    requires Good(k, 2, 0, 1) && k.added <= MAX_ADDS && Due(k) && Requester(k, k.pending[k.ioHead]).Some?
    requires IoQueue(k) != [] && Occupied(k, w) && At(k, w).pid == IoQueue(k)[0]
    ensures Occupied(IoHandler(k), w) && At(IoHandler(k), w).state == READY
  {
    hide Transfer, Good, ReleaseRes;
    var req := k.pending[k.ioHead];
    var i := Requester(k, req).value;
    TransferFrame(k, i, req, 2, 0, 1);
    ReleaseWakes(Transfer(k, i, req), w);
  }

  lemma ReleaseWakes(k: Kernel, w: nat)
    requires Good(k, 2, 0, 1) && k.added <= MAX_ADDS
    requires IoQueue(k) != [] && Occupied(k, w) && At(k, w).pid == IoQueue(k)[0]
    ensures Occupied(ReleaseRes(k, RES_IO), w) && At(ReleaseRes(k, RES_IO), w).state == READY
  {
    FindCore(k.res, 2, 0, 1);
    WakesByPid(k.(res := ReleaseUnit(k.res, RES_IO).0), w);
  }

  lemma WakesByPid(k: Kernel, w: nat)
    requires TableOk(k.slots, k.prioMin, k.prioMax, k.lastPid, k.added) && k.added <= MAX_ADDS && Occupied(k, w)
    ensures Occupied(WakeWaiter(k, At(k, w).pid), w) && At(WakeWaiter(k, At(k, w).pid), w).state == READY
  {
    var found := LowestSlot(k.slots, HasPid(At(k, w).pid));
    assert HasPid(At(k, w).pid)(k.slots[w]);
    PidsDistinct(k, found.value, w);
  }

  lemma HandlerTurnRing(k: Kernel, i: nat, fired: bool)
    requires Occupied(k, i) && IsHandler(At(k, i))
    ensures
      var k' := TakeTurn(k, i, fired);
      k'.res == StepIo(k).res && k'.ioHead == StepIo(k).ioHead && k'.ioTail == StepIo(k).ioTail
  {
  }
}
