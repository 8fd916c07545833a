/**
  What one iteration of the scheduler's loop does, kind of process by kind of
  process, told from the table before and after it.
  */
module TurnLaws {
  import opened Words
  import opened VirtualMachine
  import opened Loader
  import opened Swapper
  import opened KernelModel
  import opened KernelInvariant
  import opened KernelSafety
  import opened Frames
  import opened GovernorProtocol
  import opened DispatchOrder
  import opened MachineIsolation
  import opened ContextsOfRuns
  import opened PendingRequests
  import opened IoStarvation
  import opened SwappedReads
  import opened OperationLaws
  import opened InterruptLaws
  import LoadProgress

  // Before the turn

  /** A process other than the one whose turn it is was left current. */
  predicate LeftOver(k: Kernel, i: nat) {
    k.current.Some? && k.current != Some(i) && Occupied(k, k.current.value)
  }

  /** What a slot holds while another process takes its turn: a left-over current process is saved and ready. */
  function Waiting(k: Kernel, i: nat, w: nat): Slot
    requires w < MAX_PRIORITY
  {
    if LeftOver(k, i) && k.current == Some(w) then Some(At(k, w).(context := k.cpu, state := READY)) else k.slots[w]
  }

  /** Everybody but the process in slot `i`, and but a left-over current one, is as before. */
  predicate OthersWait(k: Kernel, k': Kernel, i: nat) {
    forall w :: 0 <= w < MAX_PRIORITY && w != i ==> k'.slots[w] == Waiting(k, i, w)
  }

  lemma AtTurn(k: Kernel, i: nat)
    requires Resting(k) && Occupied(k, i)
    ensures
      var t := TurnState(k, i);
      && OthersWait(k, t, i) && t.slots[i] == Some(At(k, i).(waitingResId := 0))
      && t.history.saves == k.history.saves +
                            (if LeftOver(k, i) then [Save(At(k, k.current.value).serial, k.cpu)] else [])
  {
    PrologueGood(k, i);
    RequestCpu(Prologue(k, i), i);
  }

  /** A process that is not ready gets no turn: the iteration changes nothing at all. */
  lemma OnlyReadyRun(k: Kernel, i: nat, fired: bool)
    requires i < MAX_PRIORITY && (k.slots[i].None? || k.slots[i].value.state != READY)
    ensures Dispatch(k, i, fired) == k
  {
  }

  // The save

  /**
    The loop saves exactly the left-over current process, with exactly what the
    processor holds: that save is recorded, and no other. Afterwards a process
    still in the table has the context it had before, the saved one has the
    processor's state, and a newly created one has the initial context.
    */
  lemma LeftOverIsSaved(k: Kernel, i: nat, fired: bool)
    requires Resting(k) && ReadyAt(k, i)
    ensures
      var k' := Dispatch(k, i, fired);
      && k'.history.saves == k.history.saves +
                             (if LeftOver(k, i) then [Save(At(k, k.current.value).serial, k.cpu)] else [])
      && forall w :: 0 <= w < MAX_PRIORITY && k'.slots[w].Some? ==>
           k'.slots[w].value.context ==
           if k'.slots[w].value.serial > k.added || k.slots[w].None? then ZERO_CPU
           else if LeftOver(k, i) && k.current == Some(w) then k.cpu
           else k.slots[w].value.context
  {
    hide Resting, Good, Dispatch, TurnState, TakeTurn;
    var t := TurnState(k, i);
    TurnStateIs(k, i);
    AtTurn(k, i);
    TurnOrderly(t, i, fired);
    TurnReleases(k, i, fired);
  }

  // The turns

  /** Nothing happened but that the process had its turn; it is ready, and nobody is current. */
  predicate Rested(k: Kernel, k': Kernel, i: nat)
    requires Occupied(k, i)
  {
    && k'.slots[i] == Some(At(k, i).(state := READY, waitingResId := 0)) && OthersWait(k, k', i)
    && k'.current == None && SameRest(k, k') && k'.added == k.added
  }

  /** What carries over from the turn itself to the iteration. */
  lemma Carried(k: Kernel, i: nat, fired: bool)
    requires Resting(k) && ReadyAt(k, i)
    ensures
      var t := TurnState(k, i);
      && Good(t, 2, 0, 1) && t.current == Some(i) && t.slots[i] == Some(At(k, i).(waitingResId := 0))
      && OthersWait(k, t, i) && SameRest(k, t) && t.added == k.added
      && Dispatch(k, i, fired).slots == TakeTurn(t, i, fired).slots
      && Dispatch(k, i, fired).current == TakeTurn(t, i, fired).current
      && Dispatch(k, i, fired).added == TakeTurn(t, i, fired).added
      && (SameRest(t, TakeTurn(t, i, fired)) ==> SameRest(k, Dispatch(k, i, fired)))
  {
    hide Good, Resting, Dispatch, TurnState, TakeTurn;
    TurnStateIs(k, i);
    AtTurn(k, i);
    TurnReleases(k, i, fired);
    TurnQueue(k, i, fired);
  }

  /** The idle process, and any other that returns still ready, only has its turn. */
  lemma StillReadyTurn(k: Kernel, i: nat, fired: bool)
    requires Occupied(k, i) && At(k, i).hasEntry && At(k, i).procType == IDLE
    ensures TakeTurn(k, i, fired) == k.(slots := k.slots[i := Some(At(k, i).(state := READY))], current := None)
  {
  }

  /** The idle process stays in its slot, ready, whatever the timer does. */
  lemma IdleRests(k: Kernel, i: nat, fired: bool)
    requires Resting(k) && ReadyAt(k, i) && At(k, i).hasEntry && At(k, i).procType == IDLE
    ensures Rested(k, Dispatch(k, i, fired), i)
  {
    hide Good, Resting, Dispatch, TurnState, TakeTurn;
    Carried(k, i, fired);
    StillReadyTurn(TurnState(k, i), i, fired);
  }

  /** A process with neither entry nor machine does nothing, and stays current. */
  lemma BareRests(k: Kernel, i: nat, fired: bool)
    requires Resting(k) && ReadyAt(k, i) && !At(k, i).hasEntry && At(k, i).vm.None?
    ensures
      var k' := Dispatch(k, i, fired);
      && k'.slots[i] == Some(At(k, i).(waitingResId := 0)) && OthersWait(k, k', i)
      && k'.current == Some(i) && SameRest(k, k') && k'.added == k.added
  {
    hide Good, Resting, Dispatch, TurnState;
    Carried(k, i, fired);
    assert TakeTurn(TurnState(k, i), i, fired) == TurnState(k, i);
  }

  // Handlers and start-stop

  /** Start-stop with a governor ready or blocked only has its turn. */
  lemma StopperRests(k: Kernel, i: nat, fired: bool, g: nat)
    requires Resting(k) && ReadyAt(k, i) && IsStartStop(At(k, i)) && Occupied(k, g) && g != i
    requires At(k, g).procType == JOB_GOVERNOR && At(k, g).state in {READY, BLOCKED}
    ensures Rested(k, Dispatch(k, i, fired), i)
  {
    hide Good, Resting, Dispatch, TurnState, TakeTurn;
    Carried(k, i, fired);
    StopperTurn(TurnState(k, i), i, fired, g);
  }

  lemma StopperTurn(k: Kernel, i: nat, fired: bool, g: nat)
    requires Occupied(k, i) && IsStartStop(At(k, i)) && Occupied(k, g)
    requires At(k, g).procType == JOB_GOVERNOR && At(k, g).state in {READY, BLOCKED}
    ensures TakeTurn(k, i, fired) == k.(slots := k.slots[i := Some(At(k, i).(state := READY))], current := None)
  {
    assert HasWork()(k.slots[g]);
  }

  /**
    Start-stop with no governor ready or blocked shuts down: it leaves the table
    with everybody but the other start-stop processes, unless removal passes it by.
    */
  lemma ShutdownLeaves(k: Kernel, i: nat, fired: bool)
    requires Resting(k) && ReadyAt(k, i) && IsStartStop(At(k, i)) && !RemovalMisses(k, i)
    requires forall w :: 0 <= w < MAX_PRIORITY && Waiting(k, i, w).Some? ==>
                           Waiting(k, i, w).value.procType != JOB_GOVERNOR
                           || Waiting(k, i, w).value.state !in {READY, BLOCKED}
    ensures
      var k' := Dispatch(k, i, fired);
      && k'.slots[i] == None && k'.current == None
      && forall w :: 0 <= w < MAX_PRIORITY && w != i ==>
           var o := Waiting(k, i, w);
           k'.slots[w] == if o.Some? && o.value.procType == START_STOP then o else None
  {
    hide Good, Resting, Dispatch, TurnState, TakeTurn;
    var t := TurnState(k, i);
    Carried(k, i, fired);
    StillHit(k, t, i);
    ShutdownTurn(t, i, fired);
  }

  lemma ShutdownTurn(k: Kernel, i: nat, fired: bool)
    requires Occupied(k, i) && IsStartStop(At(k, i)) && !RemovalMisses(k, i)
    requires forall w :: 0 <= w < MAX_PRIORITY && k.slots[w].Some? ==>
                           k.slots[w].value.procType != JOB_GOVERNOR || k.slots[w].value.state !in {READY, BLOCKED}
    ensures
      var k' := TakeTurn(k, i, fired);
      && k'.slots[i] == None && k'.current == None
      && forall w :: 0 <= w < MAX_PRIORITY && w != i ==>
           var o := k.slots[w];
           k'.slots[w] == if o.Some? && o.value.procType == START_STOP then o else None
  {
    hide RemoveProc;
    var k1 := StartStop(k).k;
    assert k1.slots == Shutdown(k.slots);
    FewerHits(k, k1, i);
    RemovesExactly(k1, i);
  }

  lemma FewerHits(k: Kernel, t: Kernel, i: nat)
    requires Occupied(k, i) && Occupied(t, i) && At(t, i).pid == At(k, i).pid && !RemovalMisses(k, i)
    requires forall w :: 0 <= w < MAX_PRIORITY ==> t.slots[w] == k.slots[w] || t.slots[w] == None
    ensures !RemovalMisses(t, i)
  {
  }

  /** The interrupt handler, when the timer did not go off or no machine is runnable, only has its turn. */
  lemma InterruptHandlerRests(k: Kernel, i: nat, fired: bool)
    requires Resting(k) && ReadyAt(k, i) && IsInterruptHandler(At(k, i))
    requires fired ==> forall w :: 0 <= w < MAX_PRIORITY && Waiting(k, i, w).Some? ==>
                         w == i || Waiting(k, i, w).value.state != READY || Waiting(k, i, w).value.vm.None?
    requires fired ==> At(k, i).vm.None?
    ensures Rested(k, Dispatch(k, i, fired), i)
  {
    hide Good, Resting, Dispatch, TurnState, TakeTurn;
    var t := TurnState(k, i);
    Carried(k, i, fired);
    NobodyIsNext(t, fired);
    InterruptTurn(t, i, fired);
  }

  lemma NobodyIsNext(k: Kernel, fired: bool)
    requires fired ==> forall w :: 0 <= w < MAX_PRIORITY && k.slots[w].Some? ==>
                         k.slots[w].value.state != READY || k.slots[w].value.vm.None?
    ensures !Preempts(k, fired)
  {
  }

  lemma InterruptTurn(k: Kernel, i: nat, fired: bool)
    requires Good(k, 2, 0, 1) && k.current == Some(i) && Occupied(k, i) && IsInterruptHandler(At(k, i))
    requires At(k, i).state == READY && At(k, i).waitingResId == 0 && !Preempts(k, fired)
    ensures
      var k' := TakeTurn(k, i, fired);
      k'.slots == k.slots && k'.current == None && k'.added == k.added && SameRest(k, k')
  {
    hide Good, InterruptHandler;
    QuietHandler(k, i, fired);
    HandlerReturns(k, i, fired, InterruptHandler(k, fired));
  }

  lemma HandlerReturns(k: Kernel, i: nat, fired: bool, k1: Kernel)
    requires Occupied(k, i) && IsInterruptHandler(At(k, i)) && At(k, i).state == READY
    requires k1 == InterruptHandler(k, fired) && k1.slots == k.slots
    ensures TakeTurn(k, i, fired) == k1.(current := None)
  {
    hide InterruptHandler;
    assert k1.slots[i := k1.slots[i]] == k1.slots;
  }

  /** The unit is taken and given back, and the interrupts are looked at; nothing else happens. */
  lemma QuietHandler(k: Kernel, i: nat, fired: bool)
    requires Good(k, 2, 0, 1) && k.current == Some(i) && Occupied(k, i)
    requires At(k, i).state == READY && At(k, i).waitingResId == 0 && !Preempts(k, fired)
    ensures
      var k' := InterruptHandler(k, fired);
      k'.slots == k.slots && k'.added == k.added && SameRest(k, k')
  {
    hide Good, AfterRequest, ReleaseRes, KernelHandleInterrupts, ReactToPi, ReactToSi;
    RequestTmr(k, i);
    ClaimIsRequest(k, i);
    var k0 := AfterRequest(k, RES_TMR, i);
    TimerClaimed(k, i);
    NoSwitch(k0, i, fired);
    var k1 := KernelHandleInterrupts(k0, fired);
    HandleInterruptsGood(k0, fired);
    ReactionQuiet(k1);
    TimerReturned(React(k1));
  }

  lemma ReactionQuiet(k: Kernel)
    requires Good(k, 2, 0, 0)
    ensures React(k) == k.(lastPi := 0, lastSi := 0, lastTi := 0) && Good(React(k), 2, 0, 0)
  {
    QuietReaction(k);
  }

  lemma TimerClaimed(k: Kernel, i: nat)
    requires Good(k, 2, 0, 1) && Occupied(k, i) && At(k, i).waitingResId == 0
    ensures
      var k0 := AfterRequest(k, RES_TMR, i);
      && k0 == k.(res := k0.res, slots := k.slots) && IoQueue(k0) == IoQueue(k) && IoFree(k0) == IoFree(k)
  {
    FindCore(k.res, 2, 0, 1);
    assert k.slots[i := k.slots[i]] == k.slots;
  }

  lemma NoSwitch(k: Kernel, i: nat, fired: bool)
    requires LatchesQuiet(k) && k.current == Some(i) && Occupied(k, i) && At(k, i).state == READY
    requires !Preempts(k, fired)
    ensures
      var k1 := KernelHandleInterrupts(k, fired);
      k1 == k.(lastTrapPid := k1.lastTrapPid, lastTi := k1.lastTi)
  {
    OnlyTheTimer(k, fired);
    SameNext(k, TimerTaken(k));
  }

  lemma TimerReturned(k: Kernel)
    requires Good(k, 2, 0, 0)
    ensures
      var k' := ReleaseRes(k, RES_TMR);
      k' == k.(res := k'.res) && IoQueue(k') == IoQueue(k) && IoFree(k') == IoFree(k)
  {
    FindCore(k.res, 2, 0, 0);
  }

  /** An I/O handler's turn with no request in the ring only records the step. */
  lemma IdleHandlerRests(k: Kernel, i: nat, fired: bool)
    requires Resting(k) && ReadyAt(k, i) && IsHandler(At(k, i)) && k.ioHead == k.ioTail
    ensures
      var k' := Dispatch(k, i, fired);
      && k'.slots[i] == Some(At(k, i).(state := READY, waitingResId := 0)) && OthersWait(k, k', i)
      && k'.current == None && k'.disk == k.disk && k'.added == k.added
      && k'.history.io == k.history.io + [HandlerStep]
  {
    hide Good, Resting, Dispatch, TurnState, TakeTurn;
    var t := TurnState(k, i);
    Carried(k, i, fired);
    TurnStateIs(k, i);
    TurnReleases(k, i, fired);
    EmptyRingTurn(t, i, fired);
  }

  lemma EmptyRingTurn(k: Kernel, i: nat, fired: bool)
    requires Occupied(k, i) && IsHandler(At(k, i)) && k.ioHead == k.ioTail
    ensures
      var k' := TakeTurn(k, i, fired);
      && k'.slots == k.slots[i := Some(At(k, i).(state := READY))] && k'.current == None
      && k'.disk == k.disk && k'.added == k.added && k'.history.io == k.history.io + [HandlerStep]
  {
  }

  // Governors

  /** The process sleeps, blocked, and nothing else happened. */
  predicate Sleeps(k: Kernel, k': Kernel, i: nat)
    requires Occupied(k, i)
  {
    && k'.slots[i] == Some(At(k, i).(state := BLOCKED, waitingResId := 0)) && OthersWait(k, k', i)
    && k'.current == None && SameRest(k, k') && k'.added == k.added
  }

  /** A governor that is woken while its image has not arrived goes back to sleep. */
  lemma LoadingSleepsOn(k: Kernel, i: nat, fired: bool)
    requires Resting(k) && ReadyAt(k, i) && IsGovernor(At(k, i)) && At(k, i).vm.Some? && At(k, i).loaded == LOADING
    ensures Sleeps(k, Dispatch(k, i, fired), i)
  {
    hide Good, Resting, Dispatch, TurnState, TakeTurn;
    Carried(k, i, fired);
    LoadingTurn(TurnState(k, i), i, fired);
  }

  lemma LoadingTurn(k: Kernel, i: nat, fired: bool)
    requires Occupied(k, i) && IsGovernor(At(k, i)) && At(k, i).vm.Some? && At(k, i).loaded == LOADING
    ensures TakeTurn(k, i, fired) == k.(slots := k.slots[i := Some(At(k, i).(state := BLOCKED))], current := None)
  {
  }

  /**
    A governor whose loader finds no free system slot sleeps all the same: no
    loader is created, and only an identifier is used up.
    */
  lemma NoRoomForLoader(k: Kernel, i: nat, fired: bool)
    requires Resting(k) && ReadyAt(k, i) && IsGovernor(At(k, i)) && At(k, i).vm.Some?
    requires At(k, i).loaded == NOT_REQUESTED
    requires forall w :: FIRST_SYSTEM_SLOT <= w <= SCHEDULER_SLOT ==> k.slots[w].Some?
    ensures
      var k' := Dispatch(k, i, fired);
      && k'.slots[i] == Some(At(k, i).(loaded := LOADING, state := BLOCKED, waitingResId := 0))
      && OthersWait(k, k', i) && k'.current == None && SameRest(k, k') && k'.added == k.added + 1
  {
    hide Good, Resting, Dispatch, TurnState, TakeTurn;
    Carried(k, i, fired);
    FullHalf(TurnState(k, i));
    LoadProgress.RequestTurn(TurnState(k, i), i, fired);
  }

  lemma FullHalf(k: Kernel)
    requires Good(k, 2, 0, 1) && forall w :: FIRST_SYSTEM_SLOT <= w <= SCHEDULER_SLOT ==> k.slots[w].Some?
    ensures PlaceFor(k, true).None?
  {
  }

  /** The process has left the table, and nothing else happened. */
  predicate Leaves(k: Kernel, k': Kernel, i: nat)
    requires Occupied(k, i)
  {
    k'.slots[i] == None && OthersWait(k, k', i) && k'.current == None && SameRest(k, k') && k'.added == k.added
  }

  /** A governor without a machine, or that was done before, leaves the table, unless removal passes it by. */
  lemma FinishedGovernorLeaves(k: Kernel, i: nat, fired: bool)
    requires Resting(k) && ReadyAt(k, i) && IsGovernor(At(k, i))
    requires At(k, i).vm.None? || At(k, i).loaded !in {NOT_REQUESTED, LOADING, LOADED}
    requires !RemovalMisses(k, i)
    ensures Leaves(k, Dispatch(k, i, fired), i)
  {
    hide Good, Resting, Dispatch, TurnState, TakeTurn;
    var t := TurnState(k, i);
    Carried(k, i, fired);
    StillHit(k, t, i);
    FinishedTurn(t, i, fired);
  }

  /** Whether removal hits a process depends only on who is in the lower slots. */
  lemma StillHit(k: Kernel, t: Kernel, i: nat)
    requires Occupied(k, i) && OthersWait(k, t, i) && t.slots[i] == Some(At(k, i).(waitingResId := 0))
    ensures RemovalMisses(t, i) == RemovalMisses(k, i)
  {
    if RemovalMisses(k, i) && At(k, i).pid != 0 {
      var j :| 0 <= j < i && HasPid(At(k, i).pid)(k.slots[j]);
      assert HasPid(At(t, i).pid)(t.slots[j]);
    }
  }

  lemma FinishedTurn(k: Kernel, i: nat, fired: bool)
    requires Occupied(k, i) && IsGovernor(At(k, i)) && !RemovalMisses(k, i)
    requires At(k, i).vm.None? || At(k, i).loaded !in {NOT_REQUESTED, LOADING, LOADED}
    ensures TakeTurn(k, i, fired) == Clear(k, i).(current := None)
  {
    hide RemoveProc;
    RemovesExactly(k, i);
  }

  /** A governor whose machine does not trap has finished: it leaves the table with its machine. */
  lemma EndedGovernorLeaves(k: Kernel, i: nat, fired: bool)
    requires Resting(k) && ReadyAt(k, i) && IsGovernor(At(k, i)) && At(k, i).vm.Some? && At(k, i).loaded == LOADED
    requires RunOperations(At(k, i).vm.value).rc != RC_TRAPPED && !RemovalMisses(k, i)
    ensures Leaves(k, Dispatch(k, i, fired), i)
  {
    hide Good, Resting, Dispatch, TurnState, TakeTurn, RunOperations;
    var t := TurnState(k, i);
    Carried(k, i, fired);
    StillHit(k, t, i);
    EndedTurn(t, i, fired);
  }

  lemma EndedTurn(k: Kernel, i: nat, fired: bool)
    requires Occupied(k, i) && IsGovernor(At(k, i)) && At(k, i).vm.Some? && At(k, i).loaded == LOADED
    requires RunOperations(At(k, i).vm.value).rc != RC_TRAPPED && !RemovalMisses(k, i)
    ensures
      var k' := TakeTurn(k, i, fired);
      && k'.slots == k.slots[i := None] && k'.current == None && SameRest(k, k') && k'.added == k.added
  {
    hide RemoveProc, RunOperations;
    var k1 := RunGovernorVm(k, i).k;
    SameMisses(k, k1, i);
    RemovesExactly(k1, i);
    assert k1.slots[i := None] == k.slots[i := None];
  }

  // Loaders

  /** A loader whose parent is gone, or has no machine, leaves the table, unless removal passes it by. */
  lemma OrphanLoaderLeaves(k: Kernel, i: nat, fired: bool)
    requires Resting(k) && ReadyAt(k, i) && IsLoader(At(k, i)) && !RemovalMisses(k, i)
    requires forall w :: 0 <= w < MAX_PRIORITY && k.slots[w].Some? && k.slots[w].value.pid == At(k, i).parentPid ==>
                           k.slots[w].value.vm.None?
    ensures Leaves(k, Dispatch(k, i, fired), i)
  {
    hide Good, Resting, Dispatch, TurnState, TakeTurn;
    var t := TurnState(k, i);
    Carried(k, i, fired);
    StillHit(k, t, i);
    OrphanTurn(t, i, fired);
  }

  lemma OrphanTurn(k: Kernel, i: nat, fired: bool)
    requires Occupied(k, i) && IsLoader(At(k, i)) && !RemovalMisses(k, i)
    requires forall w :: 0 <= w < MAX_PRIORITY && k.slots[w].Some? && k.slots[w].value.pid == At(k, i).parentPid ==>
                           k.slots[w].value.vm.None?
    ensures TakeTurn(k, i, fired) == Clear(k, i).(current := None)
  {
    hide RemoveProc;
    RemovesExactly(k, i);
    assert RunLoader(k, i) == Return(k, 0);
  }

  /** A loader's turn, exactly: it leaves the table, its parent gets what could be loaded, and nothing else happens. */
  lemma LoaderTurnExactly(k: Kernel, i: nat, fired: bool, w: nat)
    requires Resting(k) && k.added <= MAX_ADDS && ReadyAt(k, i) && Occupied(k, w) && i != w && At(k, w).vm.Some?
    requires IsLoader(At(k, i)) && At(k, i).parentPid == At(k, w).pid && k.current != Some(w)
    ensures
      var k' := Dispatch(k, i, fired);
      var fileId := At(k, i).fileId;
      var p := At(k, w).(vm := Some(LoadFile(At(k, w).vm.value, k.disk, k.files, fileId)));
      && k'.slots[i] == None && k'.current == None
      && k'.slots[w] == Some(if LoadSucceeds(k.disk, k.files, fileId) then p.(state := READY, loaded := LOADED) else p)
      && forall j :: 0 <= j < MAX_PRIORITY && j != i && j != w ==> k'.slots[j] == Waiting(k, i, j)
  {
    hide Good, Resting, Dispatch, TurnState, TakeTurn, LoadFile, LoadSucceeds;
    Carried(k, i, fired);
    TurnStateIs(k, i);
    FilledStays(TurnState(k, i), i, fired, w);
  }

  /** The turn of a governor whose machine traps, as an iteration of the loop. */
  lemma TrappingGovernorSleeps(k: Kernel, i: nat, fired: bool)
    requires Resting(k) && ReadyAt(k, i) && IsGovernor(At(k, i)) && At(k, i).vm.Some? && At(k, i).loaded == LOADED
    requires RunOperations(At(k, i).vm.value).rc == RC_TRAPPED
    ensures
      var k' := Dispatch(k, i, fired);
      var vm' := RunOperations(At(k, i).vm.value).vm;
      var ask := Ask(At(k, i).serial, vm'.trapCode, vm'.trapR0, vm'.trapR1, vm'.trapR2);
      && k'.slots[i] == Some(At(k, i).(vm := Some(vm'), state := BLOCKED, waitingResId := 1))
      && OthersWait(k, k', i) && k'.current == None && k'.disk == k.disk && k'.added == k.added
      && k'.history.io == k.history.io + (if IoFree(k) > 0 then [Accepted(ask)] else [])
      && IoQueue(k') == if IoFree(k) > 0 then [] else if |IoQueue(k)| < 31 then IoQueue(k) + [At(k, i).pid]
                        else IoQueue(k)
  {
    hide Good, Resting, Dispatch, TurnState, TakeTurn, RunOperations;
    var t := TurnState(k, i);
    Carried(k, i, fired);
    TurnStateIs(k, i);
    TrapTurn(t, i, fired);
    TurnQueue(k, i, fired);
    TurnReleases(k, i, fired);
    GrantsIfFree(t);
  }

  lemma GrantsIfFree(k: Kernel)
    requires Good(k, 2, 0, 1)
    ensures Grants(k, RES_IO) <==> IoFree(k) > 0
  {
    FindCore(k.res, 2, 0, 1);
  }

  // Machines without a governor

  /** A machine that ends leaves the table with its process, unless removal passes it by. */
  lemma EndedMachineLeaves(k: Kernel, i: nat, fired: bool)
    requires Resting(k) && ReadyAt(k, i) && !At(k, i).hasEntry && At(k, i).vm.Some?
    requires MachineEnds(k, i) && !RemovalMisses(k, i)
    ensures Leaves(k, Dispatch(k, i, fired), i)
  {
    hide Good, Resting, Dispatch, TurnState, TakeTurn, RunOperations, SwapIn;
    var t := TurnState(k, i);
    Carried(k, i, fired);
    StillHit(k, t, i);
    EndedMachineTurn(t, i);
    MachineTurn(t, i, fired);
  }

  lemma MachineTurn(k: Kernel, i: nat, fired: bool)
    requires Occupied(k, i) && !At(k, i).hasEntry && At(k, i).vm.Some?
    ensures TakeTurn(k, i, fired) == RunVm(k, i)
  {
    hide RunVm;
  }

  lemma EndedMachineTurn(k: Kernel, i: nat)
    requires Good(k, 2, 0, 1) && Occupied(k, i) && At(k, i).vm.Some? && MachineEnds(k, i) && !RemovalMisses(k, i)
    ensures
      var k' := RunVm(k, i);
      && k'.slots == k.slots[i := None] && k'.current == None && SameRest(k, k') && k'.added == k.added
  {
    hide Good, RunVm, ExecuteVm, ReleaseRes, Executing, RunOperations;
    RunVmExecutes(k, i);
    ExecutingRest(k, i);
    var k3 := Executing(k, i);
    SameMisses(k, k3, i);
    ExecutionLeaves(k3, i);
    ReleasesMem(k3, i);
    MemoryBackRest(k3, i);
  }

  lemma ExecutingRest(k: Kernel, i: nat)
    requires Good(k, 2, 0, 1) && Occupied(k, i) && At(k, i).vm.Some?
    ensures SameRest(k, Executing(k, i)) && Executing(k, i).added == k.added
  {
    MemoryTaken(k, i);
    MemoryHeldQueue(k, i);
    MemoryRecord(k, i);
  }

  lemma ExecutionLeaves(k: Kernel, i: nat)
    requires Occupied(k, i) && At(k, i).vm.Some? && RunOperations(At(k, i).vm.value).rc != RC_TRAPPED
    requires !RemovalMisses(k, i)
    ensures
      var k' := ExecuteVm(k, i);
      k'.slots == k.slots[i := None] && k'.current == None && SameRest(k, k') && k'.added == k.added && k'.res == k.res
  {
    hide RemoveProc, RunOperations;
    var p := At(k, i);
    var k1 := Put(k, i, p.(vm := Some(RunOperations(p.vm.value).vm))).(lastTrapPid := p.pid);
    SameMisses(k, k1, i);
    RemovesExactly(k1, i);
    assert k1.slots[i := None] == k.slots[i := None];
  }

  lemma MemoryBackRest(k: Kernel, i: nat)
    requires Good(k, 1, 0, 1) && Occupied(k, i) && At(k, i).vm.Some? && ExecuteVm(k, i).res == k.res
    ensures
      var k' := ReleaseRes(ExecuteVm(k, i), RES_MEM);
      IoQueue(k') == IoQueue(ExecuteVm(k, i)) && IoFree(k') == IoFree(ExecuteVm(k, i))
  {
    hide ExecuteVm;
    FindCore(k.res, 1, 0, 1);
  }

  /**
    A swapped-out machine whose slot does not exist cannot be swapped in: its
    process is suspended with the machine as it was, and stays current.
    */
  lemma SwapInFails(k: Kernel, i: nat, fired: bool)
    requires Resting(k) && ReadyAt(k, i) && !At(k, i).hasEntry && At(k, i).vm.Some?
    requires At(k, i).swapped && !SlotExists(At(k, i).swapSlot)
    ensures
      var k' := Dispatch(k, i, fired);
      && k'.slots[i] == Some(At(k, i).(state := SUSP_BLOCKED, waitingResId := 0)) && OthersWait(k, k', i)
      && k'.current == Some(i) && k'.cpu == At(k, i).context && k'.disk == k.disk && k'.added == k.added
      && k'.history.io == k.history.io
  {
    hide Good, Resting, Dispatch, TurnState, TakeTurn;
    var t := TurnState(k, i);
    Carried(k, i, fired);
    TurnStateIs(k, i);
    TurnReleases(k, i, fired);
    SwapInFailsTurn(t, i);
    MachineTurn(t, i, fired);
  }

  lemma SwapInFailsTurn(k: Kernel, i: nat)
    requires Good(k, 2, 0, 1) && k.current == Some(i) && Occupied(k, i) && At(k, i).vm.Some?
    requires At(k, i).swapped && !SlotExists(At(k, i).swapSlot)
    ensures
      var k' := RunVm(k, i);
      && k'.slots == k.slots[i := Some(At(k, i).(state := SUSP_BLOCKED, waitingResId := 0))]
      && k'.current == Some(i) && k'.cpu == At(k, i).context && SameRest(k, k') && k'.added == k.added
  {
    hide AfterRequest, ReleaseRes;
    MemoryTaken(k, i);
    MemoryHeldQueue(k, i);
    MemoryRecord(k, i);
    var k2 := AfterRequest(LoadContext(k, i), RES_MEM, i);
    PutGood(k2, i, At(k2, i).(state := SUSP_BLOCKED), 1, 0, 1);
    ReleaseMem(SetState(k2, i, SUSP_BLOCKED));
    ParkedRest(SetState(k2, i, SUSP_BLOCKED));
    MemoryCpu(k, i);
  }

  lemma ParkedRest(k: Kernel)
    requires Good(k, 1, 0, 1)
    ensures
      var k' := ReleaseRes(k, RES_MEM);
      k' == k.(res := k'.res) && IoQueue(k') == IoQueue(k) && IoFree(k') == IoFree(k)
  {
    FindCore(k.res, 1, 0, 1);
  }

  lemma MemoryCpu(k: Kernel, i: nat)
    requires Occupied(k, i)
    ensures
      var k2 := AfterRequest(LoadContext(k, i), RES_MEM, i);
      k2.cpu == At(k, i).context && k2.current == k.current
  {
  }

  // Who is blamed

  /** Who is to be blamed for a fault is as it was. */
  predicate BlameKept(k: Kernel, k': Kernel) {
    k'.lastVm == k.lastVm && k'.lastTrapPid == k.lastTrapPid
  }

  /**
    Whom the interrupt handler would blame after an iteration: the process of that
    turn, if it has a machine, with or without an entry. The turn of an interrupt
    handler leaves its own identifier as the last to trap, and every other turn
    leaves the blame where it was.
    */
  lemma BlamedExactly(k: Kernel, i: nat, fired: bool)
    requires Resting(k) && ReadyAt(k, i)
    ensures
      var k' := Dispatch(k, i, fired);
      var p := At(k, i);
      && k'.lastVm == (if p.vm.Some? then Some(p.serial) else k.lastVm)
      && k'.lastTrapPid == if p.vm.Some? || IsInterruptHandler(p) then p.pid else k.lastTrapPid
  {
    hide Good, Resting, TakeTurn, AfterRequest, ReleaseRes;
    TurnStateIs(k, i);
    RequestTouches(Prologue(k, i), RES_CPU, i);
    var t := TurnState(k, i);
    TurnBlame(t, i, fired);
    ReleaseTouches(TakeTurn(t, i, fired), RES_CPU);
  }

  lemma TurnBlame(k: Kernel, i: nat, fired: bool)
    requires Occupied(k, i) && k.current == Some(i)
    requires At(k, i).vm.Some? ==> k.lastTrapPid == At(k, i).pid
    ensures
      var k' := TakeTurn(k, i, fired);
      && k'.lastVm == k.lastVm
      && k'.lastTrapPid == if IsInterruptHandler(At(k, i)) then At(k, i).pid else k.lastTrapPid
  {
    hide RemoveProc, JobGovernor, RunLoader, IoHandler, InterruptHandler, RunVm;
    var p := At(k, i);
    if !p.hasEntry {
      if p.vm.Some? { MachineBlame(k, i); }
    } else {
      RemovalTouches(RunEntry(k, i, fired).k, p.pid);
      if p.procType == JOB_GOVERNOR { GovernorBlame(k, i); }
      if p.procType == LOADER { LoaderBlame(k, i); }
      if p.procType == IO_HANDLER { HandlerBlame(k); }
      if p.procType == INTERRUPT_HANDLER { InterruptBlame(k, fired); }
    }
  }

  lemma GovernorBlame(k: Kernel, i: nat)
    requires Occupied(k, i)
    ensures BlameKept(k, JobGovernor(k, i).k)
  {
    hide EnqueueIo, RunOperations;
    var p := At(k, i);
    if p.vm.Some? {
      var o := RunOperations(p.vm.value);
      var k1 := Put(Log(k, VmRan(p.serial)), i, p.(vm := Some(o.vm)));
      QueueTouches(k1, i, o.vm.trapCode, o.vm.trapR0, o.vm.trapR1, o.vm.trapR2);
    }
  }

  lemma LoaderBlame(k: Kernel, i: nat)
    requires Occupied(k, i)
    ensures BlameKept(k, RunLoader(k, i).k)
  {
    hide LoadFor;
    var j := LowestSlot(k.slots, HasPid(At(k, i).parentPid));
    if j.Some? && At(k, j.value).vm.Some? {
      LoadBlame(k, i, j.value);
    }
  }

  lemma LoadBlame(k: Kernel, i: nat, j: nat)
    requires Occupied(k, i) && Occupied(k, j) && At(k, j).vm.Some?
    ensures BlameKept(k, LoadFor(k, i, j).k)
  {
    hide AfterRequest, ReleaseRes, LoadInto, LoadSucceeds;
    RequestTouches(k, RES_MEM, i);
    if Grants(k, RES_MEM) {
      RequestOnlyMarks(k, RES_MEM, i);
      var k1 := AfterRequest(k, RES_MEM, i);
      LoadIntoBlame(k1, j, At(k, i).fileId);
      ReleaseTouches(LoadInto(k1, j, At(k, i).fileId), RES_MEM);
    }
  }

  lemma LoadIntoBlame(k: Kernel, j: nat, fileId: Word)
    requires Occupied(k, j) && At(k, j).vm.Some?
    ensures BlameKept(k, LoadInto(k, j, fileId))
  {
    hide LoadFile, LoadSucceeds;
  }

  lemma HandlerBlame(k: Kernel)
    ensures BlameKept(k, IoHandler(k))
  {
    hide ReleaseRes;
    if Due(k) && Requester(k, k.pending[k.ioHead]).Some? {
      var req := k.pending[k.ioHead];
      ReleaseTouches(Transfer(k, Requester(k, req).value, req), RES_IO);
    }
  }

  /** The handler notes whose turn it is: the current process. */
  lemma InterruptBlame(k: Kernel, fired: bool)
    requires k.current.Some? && Occupied(k, k.current.value)
    ensures
      var k' := InterruptHandler(k, fired);
      k'.lastVm == k.lastVm && k'.lastTrapPid == At(k, k.current.value).pid
  {
    hide AfterRequest, ReleaseRes, HandleLatched, React;
    var k0 := ClaimTimer(k);
    ClaimKeepsCurrent(k);
    var k1 := LatchTimer(k0, fired);
    LatchedBlame(k1);
    ReactionTouches(HandleLatched(k1));
    ReleaseTouches(React(HandleLatched(k1)), RES_TMR);
  }

  lemma ClaimKeepsCurrent(k: Kernel)
    requires k.current.Some? && Occupied(k, k.current.value)
    ensures
      var k' := ClaimTimer(k);
      && k'.current == k.current && Occupied(k', k.current.value)
      && At(k', k.current.value).pid == At(k, k.current.value).pid && BlameKept(k, k')
  {
  }

  lemma LatchedBlame(k: Kernel)
    ensures BlameKept(k, HandleLatched(k))
  {
    hide EnqueueIo;
    if k.current.Some? && Occupied(k, k.current.value) {
      var k1 := SetCpu(k, k.cpu.pi, 0, k.cpu.ti).(lastSi := k.cpu.si);
      QueueTouches(k1, k.current.value, k.cpu.si, k.cpu.r[0], k.cpu.r[1], k.cpu.r[2]);
    }
  }

  lemma MachineBlame(k: Kernel, i: nat)
    requires Occupied(k, i) && At(k, i).vm.Some? && k.lastTrapPid == At(k, i).pid
    ensures BlameKept(k, RunVm(k, i))
  {
    hide AfterRequest, ReleaseRes, ExecuteVm, SwapIn;
    var k1 := LoadContext(k, i);
    RequestTouches(k1, RES_MEM, i);
    var k2 := AfterRequest(k1, RES_MEM, i);
    if Grants(k1, RES_MEM) {
      RequestOnlyMarks(k1, RES_MEM, i);
      ExecutionBlame(k2, i);
      ExecutionBlame(SwapInFirst(k2, i), i);
      ReleaseTouches(ExecuteVm(k2, i), RES_MEM);
      ReleaseTouches(ExecuteVm(SwapInFirst(k2, i), i), RES_MEM);
      ReleaseTouches(SetState(k2, i, SUSP_BLOCKED), RES_MEM);
    }
  }

  lemma RequestOnlyMarks(k: Kernel, id: int, i: nat)
    requires Occupied(k, i) && Grants(k, id)
    ensures AfterRequest(k, id, i).slots == k.slots[i := Some(At(k, i).(waitingResId := 0))]
  {
  }

  lemma ExecutionBlame(k: Kernel, i: nat)
    requires Occupied(k, i) && At(k, i).vm.Some? && k.lastTrapPid == At(k, i).pid
    ensures BlameKept(k, ExecuteVm(k, i))
  {
    hide RunOperations, EnqueueIo, RemoveProc, SwapOut;
    var p := At(k, i);
    var o := RunOperations(p.vm.value);
    var k1 := Put(k, i, p.(vm := Some(o.vm))).(lastTrapPid := p.pid);
    QueueTouches(k1, i, o.vm.trapCode, o.vm.trapR0, o.vm.trapR1, o.vm.trapR2);
    RemovalTouches(k1, p.pid);
  }
}
