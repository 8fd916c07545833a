/**
  What becomes of a process the timer has left running while nobody is current.
  The scheduler's loop dispatches only ready processes, and only a wake-up makes
  one ready: so it keeps its slot and never gets another turn, until start-stop,
  which does not count it as work, shuts the system down.
  */
module StrayProcesses {
  import opened Words
  import opened KernelModel
  import opened KernelInvariant
  import opened KernelSafety
  import opened GovernorProtocol
  import opened DispatchOrder
  import opened MachineIsolation
  import opened Resources
  import opened PendingRequests
  import opened IoStarvation

  /** Running but not current, and neither the I/O unit, nor the handler, nor a loader will come back to it. */
  predicate Stray(k: Kernel, w: nat) {
    && Occupied(k, w) && At(k, w).state == RUNNING && k.current != Some(w)
    && At(k, w).pid !in IoQueue(k)
    && (Owner(k).Some? ==> Owner(k).value.serial != At(k, w).serial)
    && (IsGovernor(At(k, w)) ==> At(k, w).loaded != LOADING)
  }

  // One iteration

  /** The iteration neither completes a request nor shuts the system down. */
  predicate Plain(k: Kernel, i: nat) {
    ReadyAt(k, i) && Occupied(TurnState(k, i), i) && !ShutsDown(TurnState(k, i), i) && !(IsHandler(At(k, i)) && Due(k))
  }

  lemma StrayIsLeft(k: Kernel, i: nat, fired: bool, w: nat)
    requires Resting(k) && HandshakeOk(k) && k.added <= MAX_ADDS && Stray(k, w) && Plain(k, i)
    ensures i != w && At(k, i).pid != At(k, w).pid && At(k, i).serial != At(k, w).serial
    ensures Dispatch(k, i, fired).slots[w] == k.slots[w] && Dispatch(k, i, fired).current != Some(w)
  {
    hide Dispatch, TurnState, ShutsDown;
    PidsDistinct(k, i, w);
    SerialUnique(k, w);
    if IsLoader(At(k, i)) {
      assert LoaderFits(At(k, i), At(k, w));
    }
    TurnStateLeft(k, i, w);
    DispatchLeaves(k, i, fired, w);
  }

  /** Who joins the queue, and whose request is in flight, after an iteration that completes none. */
  lemma PlainRequests(k: Kernel, i: nat, fired: bool)
    requires Resting(k) && Plain(k, i)
    ensures
      var k' := Dispatch(k, i, fired);
      && k'.history.shutDown == k.history.shutDown
      && (forall x :: x in IoQueue(k') ==> x in IoQueue(k) || x == At(k, i).pid)
      && (Owner(k') == Owner(k) || (Owner(k').Some? && Owner(k').value.serial == At(k, i).serial))
  {
    hide Dispatch, Resting, TurnState;
    if IsHandler(At(k, i)) {
      HandlerDispatchShape(k, i, fired);
      HandlerMovesPhase(k);
    } else {
      QuietDispatch(k, i, fired);
      DispatchKeepsInvariant(k, i, fired);
      AcceptedOwner(k, Dispatch(k, i, fired), i);
    }
  }

  lemma AcceptedOwner(k: Kernel, k': Kernel, i: nat)
    requires Resting(k') && Occupied(k, i) && IoOutcome(k, k', i)
    ensures IoTaken(k, k', i) ==> Owner(k').Some? && Owner(k').value.serial == At(k, i).serial
    ensures !IoTaken(k, k', i) ==> Owner(k') == Owner(k)
  {
    OwnerIsInRing(k', 2, 1, 1);
    if IoTaken(k, k', i) {
      IoPhaseStep(k.history.io, Accepted(TrapOf(At(k', i)).value));
    }
  }

  lemma PlainKeepsStray(k: Kernel, i: nat, fired: bool, w: nat)
    requires Resting(k) && HandshakeOk(k) && k.added <= MAX_ADDS && Stray(k, w) && Plain(k, i)
    ensures Dispatch(k, i, fired).slots[w] == k.slots[w] && Stray(Dispatch(k, i, fired), w)
  {
    hide Dispatch, Resting, HandshakeOk, TurnState;
    StrayIsLeft(k, i, fired, w);
    PlainRequests(k, i, fired);
  }

  /** Completing a request changes only the requester and the first of the queue. */
  lemma CompletionSparesStray(k: Kernel, req: IoRequest, w: nat, mem: int, cpu: int, tmr: int)
    requires ResOk(k.res, mem, cpu, tmr) && Occupied(k, w) && At(k, w).pid !in IoQueue(k)
    requires Requester(k, req) != Some(w)
    ensures CompleteIo(k, req).slots[w] == k.slots[w]
    ensures forall x :: x in IoQueue(CompleteIo(k, req)) ==> x in IoQueue(k)
  {
    hide ReleaseRes, ReleaseUnit, ResOk;
    FindCore(k.res, mem, cpu, tmr);
    CompletionRes(k, req);
    QueueShrinks(k.res, mem, cpu, tmr);
    var i := Requester(k, req);
    if i.Some? {
      ReleaseSparesStray(Transfer(k, i.value, req), w);
    }
  }

  lemma QueueShrinks(res: seq<Resource>, mem: int, cpu: int, tmr: int)
    requires ResOk(res, mem, cpu, tmr)
    ensures
      var rs := ReleaseUnit(res, RES_IO).0;
      |rs| == |res| && forall x :: x in rs[0].queue ==> x in res[0].queue
  {
    FindCore(res, mem, cpu, tmr);
  }

  lemma ReleaseSparesStray(k: Kernel, w: nat)
    requires FindRes(k.res, RES_IO) == Some(0) && Occupied(k, w) && At(k, w).pid !in IoQueue(k)
    ensures ReleaseRes(k, RES_IO).slots[w] == k.slots[w]
  {
  }

  lemma CompletingTurn(k: Kernel, i: nat, fired: bool, w: nat)
    requires Good(k, 2, 0, 1) && Occupied(k, i) && IsHandler(At(k, i)) && Due(k) && Stray(k, w) && i != w
    ensures
      var k' := TakeTurn(k, i, fired);
      && k'.slots[w] == k.slots[w] && k'.current == None
      && forall x :: x in IoQueue(k') ==> x in IoQueue(k)
  {
    OwnerIsInRing(k, 2, 0, 1);
    RequesterIs(k, w);
    CompletionSparesStray(k, k.pending[k.ioHead], w, 2, 0, 1);
    HandlerTurnIs(k, i, fired, w);
    HandlerTurnRing(k, i, fired);
    DueStep(k, 2, 0, 1);
    HandlerEndsCurrent(k, i, fired);
  }

  lemma HandlerEndsCurrent(k: Kernel, i: nat, fired: bool)
    requires Occupied(k, i) && IsHandler(At(k, i))
    ensures TakeTurn(k, i, fired).current == None
  {
  }

  lemma CompletingKeepsStray(k: Kernel, i: nat, fired: bool, w: nat)
    requires Resting(k) && Stray(k, w) && ReadyAt(k, i) && IsHandler(At(k, i)) && Due(k)
    ensures Dispatch(k, i, fired).slots[w] == k.slots[w] && Stray(Dispatch(k, i, fired), w)
    ensures Dispatch(k, i, fired).history.shutDown == k.history.shutDown
  {
    hide Dispatch, Resting, TurnState, TakeTurn, HandlerEvents;
    var t := TurnState(k, i);
    TurnStateLeft(k, i, w);
    TurnQueue(k, i, fired);
    CompletingTurn(t, i, fired, w);
    HandlerDispatchShape(k, i, fired);
    HandlerMovesPhase(k);
    TurnReleases(k, i, fired);
  }

  /** An iteration that does not shut the system down leaves a stray process exactly as it is. */
  lemma DispatchKeepsStray(k: Kernel, i: nat, fired: bool, w: nat)
    requires Resting(k) && HandshakeOk(k) && k.added <= MAX_ADDS && Stray(k, w)
    requires !Dispatch(k, i, fired).history.shutDown
    ensures Dispatch(k, i, fired).slots[w] == k.slots[w] && Stray(Dispatch(k, i, fired), w)
    ensures !k.history.shutDown
  {
    hide Resting, HandshakeOk, TurnState, Stray, Due;
    if ReadyAt(k, i) {
      TurnStateIs(k, i);
      if IsHandler(At(k, i)) && Due(k) {
        CompletingKeepsStray(k, i, fired, w);
      } else if ShutsDown(TurnState(k, i), i) {
        ShutdownDispatch(k, i, fired);
      } else {
        PlainKeepsStray(k, i, fired, w);
        PlainRequests(k, i, fired);
      }
    }
  }

  // Whole runs

  /** No turn of the process with serial number `n` was recorded since. */
  predicate NoTurn(h: seq<Turn>, h': seq<Turn>, n: nat) {
    |h| <= |h'| && h'[..|h|] == h && forall x :: |h| <= x < |h'| ==> h'[x].serial != n
  }

  /** The process in slot `w` is as it was in `k`, still stray, and has had no turn. */
  predicate Untouched(k: Kernel, k': Kernel, w: nat)
    requires Occupied(k, w)
  {
    k'.slots[w] == k.slots[w] && Stray(k', w) && NoTurn(k.history.turns, k'.history.turns, At(k, w).serial)
  }

  /** Pids have not wrapped and the system has not been shut down. */
  predicate Live(k: Kernel) {
    k.added <= MAX_ADDS && !k.history.shutDown
  }

  ghost predicate StraySince(k: Kernel, k': Kernel, w: nat)
    requires Occupied(k, w)
  {
    Protocol(k') && (Live(k') ==> Untouched(k, k', w))
  }

  lemma UntouchedTrans(k: Kernel, k1: Kernel, k2: Kernel, w: nat)
    requires Occupied(k, w) && Untouched(k, k1, w) && Untouched(k1, k2, w)
    ensures Untouched(k, k2, w)
  {
    assert k2.history.turns[..|k.history.turns|] == k2.history.turns[..|k1.history.turns|][..|k.history.turns|];
  }

  lemma StrayStep(k: Kernel, i: nat, fired: bool, w: nat)
    requires Resting(k) && HandshakeOk(k) && k.added <= MAX_ADDS && Stray(k, w)
    requires !Dispatch(k, i, fired).history.shutDown
    ensures !k.history.shutDown && Untouched(k, Dispatch(k, i, fired), w)
  {
    hide Dispatch, HandshakeOk, Stays;
    DispatchKeepsStray(k, i, fired, w);
    DispatchOrderly(k, i, fired);
    if ReadyAt(k, i) {
      SerialUnique(k, w);
    }
  }

  lemma DispatchStraySince(k0: Kernel, k: Kernel, i: nat, fired: bool, w: nat)
    requires Occupied(k0, w) && StraySince(k0, k, w) && (k.history.shutDown ==> Dispatch(k, i, fired).history.shutDown)
    ensures StraySince(k0, Dispatch(k, i, fired), w)
  {
    hide Dispatch, Resting, HandshakeOk, Stray, NoTurn;
    var k' := Dispatch(k, i, fired);
    DispatchKeepsProtocol(k, i, fired);
    if Live(k') {
      StrayStep(k, i, fired, w);
      UntouchedTrans(k0, k, k', w);
    }
  }

  /** A shutdown is never undone. */
  lemma ShutdownStays(k: Kernel, i: nat, fired: bool)
    requires Resting(k) && k.history.shutDown
    ensures Dispatch(k, i, fired).history.shutDown
  {
    hide Resting, TurnState, Due;
    if ReadyAt(k, i) {
      TurnStateIs(k, i);
      if IsHandler(At(k, i)) {
        HandlerDispatchShape(k, i, fired);
      } else if ShutsDown(TurnState(k, i), i) {
        ShutdownDispatch(k, i, fired);
      } else {
        PlainRequests(k, i, fired);
      }
    }
  }

  lemma {:induction false} RangeStraySince(k0: Kernel, k: Kernel, hi: int, lo: int, fired: set<nat>, w: nat)
    requires Occupied(k0, w) && StraySince(k0, k, w) && hi < MAX_PRIORITY && 0 <= lo
    ensures StraySince(k0, RunRange(k, hi, lo, fired), w)
    decreases hi - lo
  {
    hide Dispatch, Resting, HandshakeOk, Untouched;
    if hi < lo {
    } else {
      if k.history.shutDown {
        ShutdownStays(k, hi, hi in fired);
      }
      DispatchStraySince(k0, k, hi, hi in fired, w);
      RangeStraySince(k0, Dispatch(k, hi, hi in fired), hi - 1, lo, fired, w);
    }
  }

  lemma AddStraySince(k0: Kernel, k: Kernel, n: NewProcess, w: nat)
    requires Occupied(k0, w) && StraySince(k0, k, w) && n.parentPid == 0
    ensures StraySince(k0, AddProc(k, n), w)
  {
    hide Resting, HandshakeOk, NoTurn;
    AddKeepsProtocol(k, n);
    if Live(AddProc(k, n)) {
      AddLeft(k, n, w);
    }
  }

  lemma ActStraySince(k0: Kernel, k: Kernel, a: Action, w: nat)
    requires Occupied(k0, w) && StraySince(k0, k, w)
    ensures StraySince(k0, Act(k, a), w)
  {
    hide StraySince, AddProc;
    match a
    case Add(n) => AddStraySince(k0, k, n.(parentPid := 0), w);
    case Cycle(fired) =>
      RangeStraySince(k0, k, MAX_PRIORITY - 1, FIRST_SYSTEM_SLOT, fired, w);
      RangeStraySince(k0, RunRange(k, MAX_PRIORITY - 1, FIRST_SYSTEM_SLOT, fired), FIRST_SYSTEM_SLOT - 1, 0, fired, w);
  }

  lemma {:induction false} RunStraySince(k0: Kernel, k: Kernel, acts: seq<Action>, w: nat)
    requires Occupied(k0, w) && StraySince(k0, k, w)
    ensures StraySince(k0, Run(k, acts), w)
    decreases |acts|
  {
    hide StraySince, Act;
    if acts == [] {
    } else {
      RunStraySince(k0, k, acts[..|acts| - 1], w);
      ActStraySince(k0, Run(k, acts[..|acts| - 1]), acts[|acts| - 1], w);
    }
  }

  /**
    A process left running while nobody is current never gets another turn:
    whatever processes are created and whatever cycles run, until a shutdown its
    entry stays exactly as it is. The conditions on `k` name the only three who
    could still reach it: the queue for the I/O unit, the handler that has its
    request in the ring, and the loader of its image.
    */
  lemma StrayForEver(k: Kernel, acts: seq<Action>, w: nat)
    requires Protocol(k) && Stray(k, w)
    requires Run(k, acts).added <= MAX_ADDS && !Run(k, acts).history.shutDown
    ensures Run(k, acts).slots[w] == k.slots[w] && Run(k, acts).current != Some(w)
    ensures NoTurn(k.history.turns, Run(k, acts).history.turns, At(k, w).serial)
  {
    RunStraySince(k, k, acts, w);
  }

  // Shutting down without it

  /** No governor is ready or blocked. */
  predicate NoWork(s: Slots) {
    forall w :: 0 <= w < MAX_PRIORITY && s[w].Some? && s[w].value.procType == JOB_GOVERNOR ==>
                  s[w].value.state !in {READY, BLOCKED}
  }

  lemma NoWorkFound(s: Slots)
    ensures LowestSlot(s, HasWork()).None? <==> NoWork(s)
  {
    if LowestSlot(s, HasWork()).None? {
      forall w | 0 <= w < MAX_PRIORITY && s[w].Some? && s[w].value.procType == JOB_GOVERNOR
        ensures s[w].value.state !in {READY, BLOCKED}
      {
        assert !HasWork()(s[w]);
      }
    }
  }

  /**
    A start-stop process that takes its turn shuts the system down exactly when
    no governor is ready or blocked. A running one does not count: it is cleared
    away with everything that is not a start-stop process, its life unfinished.
    */
  lemma ShutdownIgnoresRunning(k: Kernel, i: nat, fired: bool)
    requires Resting(k) && ReadyAt(k, i) && IsStartStop(At(k, i)) && !k.history.shutDown
    ensures
      var t := TurnState(k, i);
      Dispatch(k, i, fired).history.shutDown <==> NoWork(t.slots)
    ensures
      var k' := Dispatch(k, i, fired);
      k'.history.shutDown ==>
        && k'.history.governors == k.history.governors && k'.current == None
        && forall w :: 0 <= w < MAX_PRIORITY && k'.slots[w].Some? ==>
                         k'.slots[w].value.procType == START_STOP && k'.slots[w] == TurnState(k, i).slots[w]
  {
    hide Resting, Dispatch, TurnState;
    TurnStateIs(k, i);
    StartStopTurn(TurnState(k, i), i, fired);
    TurnReleases(k, i, fired);
  }

  lemma StartStopTurn(k: Kernel, i: nat, fired: bool)
    requires Occupied(k, i) && IsStartStop(At(k, i)) && !k.history.shutDown
    ensures TakeTurn(k, i, fired).history.shutDown <==> NoWork(k.slots)
    ensures
      var k' := TakeTurn(k, i, fired);
      && k'.current == None && k'.history == k.history.(shutDown := k'.history.shutDown)
      && (k'.history.shutDown ==>
            forall w :: 0 <= w < MAX_PRIORITY && k'.slots[w].Some? ==>
                          k'.slots[w].value.procType == START_STOP && k'.slots[w] == k.slots[w])
      && (!k'.history.shutDown ==> k'.slots == k.slots[i := Some(At(k, i).(state := READY))])
  {
    hide LowestSlot, NoWork;
    NoWorkFound(k.slots);
    var r := StartStop(k);
    assert RunEntry(k, i, fired) == r;
    if r.rc != 0 {
      assert r.k == k;
    } else {
      RemovalClears(r.k, At(k, i).pid);
    }
  }

  lemma RemovalClears(k: Kernel, pid: Byte)
    ensures
      var k' := RemoveProc(k, pid);
      && k'.history == k.history
      && forall w :: 0 <= w < MAX_PRIORITY && k'.slots[w].Some? ==> k'.slots[w] == k.slots[w]
  {
  }
}
