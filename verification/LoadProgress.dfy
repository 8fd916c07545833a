/**
  Progress of a load: a governor that asks for its image, and whose loader is
  placed in a lower slot, has it before the pass over the table ends.
  */
module LoadProgress {
  import opened Words
  import opened Loader
  import opened Swapper
  import opened KernelModel
  import opened KernelInvariant
  import opened KernelSafety
  import opened Frames
  import opened GovernorProtocol
  import opened DispatchOrder
  import opened IoSafety
  import opened MachineIsolation
  import opened PendingRequests
  import opened DiskOfRuns

  // The request

  lemma SamePlace(k: Kernel, k': Kernel, sysProc: bool)
    requires k'.prioMax == k.prioMax
    requires forall j :: 0 <= j < MAX_PRIORITY ==> (k'.slots[j].None? <==> k.slots[j].None?)
    ensures PlaceFor(k', sysProc) == PlaceFor(k, sysProc)
  {
  }

  /** The turn of a governor that asks for its image, apart from taking and returning the CPU. */
  lemma RequestTurn(k: Kernel, g: nat, fired: bool)
    requires Good(k, 2, 0, 1) && Occupied(k, g) && IsGovernor(At(k, g))
    requires At(k, g).vm.Some? && At(k, g).loaded == NOT_REQUESTED
    ensures
      var k' := TakeTurn(k, g, fired);
      && k'.slots == WithLoader(k, At(k, g))[g := Some(At(k, g).(loaded := LOADING, state := BLOCKED))]
      && k'.current == None && k'.added == k.added + 1 && SameRest(k, k')
  {
    hide Good, JobGovernor;
    RequestShape(k, g);
    RequestRest(k, g);
    BlockedEntry(JobGovernor(k, g), g, At(k, g).pid);
  }

  lemma RequestRest(k: Kernel, g: nat)
    requires Occupied(k, g) && At(k, g).vm.Some? && At(k, g).loaded == NOT_REQUESTED
    ensures JobGovernor(k, g).rc == -1 && SameRest(k, JobGovernor(k, g).k)
  {
  }

  /** An entry that returns blocked, and has blocked its process already. */
  lemma BlockedEntry(r: Return, i: nat, pid: Byte)
    requires r.rc == -1 && Occupied(r.k, i) && At(r.k, i).state == BLOCKED
    ensures AfterEntry(r, i, pid) == r.k.(current := None)
  {
    assert r.k.slots[i := r.k.slots[i]] == r.k.slots;
  }

  /** A governor's first turn places its loader in the highest free system slot and puts the governor to sleep. */
  lemma RequestDispatch(k: Kernel, g: nat, fired: bool)
    requires Resting(k) && ReadyAt(k, g) && IsGovernor(At(k, g))
    requires At(k, g).vm.Some? && At(k, g).loaded == NOT_REQUESTED && PlaceFor(k, true).Some?
    ensures
      var l := PlaceFor(k, true).value;
      var k' := Dispatch(k, g, fired);
      && l != g && k'.slots[l] == Some(LoaderProcess(k, At(k, g)))
      && k'.slots[g] == Some(At(k, g).(loaded := LOADING, state := BLOCKED, waitingResId := 0))
      && k'.current == None && k'.added == k.added + 1
      && (forall w :: 0 <= w < MAX_PRIORITY && w != g && w != l ==> k'.slots[w] == TurnState(k, g).slots[w])
  {
    hide Good, Dispatch, TurnState, TakeTurn, HighestSlot;
    TurnStateIs(k, g);
    var t := TurnState(k, g);
    SamePlaces(k, g);
    SamePlace(k, t, true);
    RequestTurn(t, g, fired);
    TurnReleases(k, g, fired);
    SameLoader(k, t, g);
  }

  lemma SamePlaces(k: Kernel, g: nat)
    requires Resting(k) && ReadyAt(k, g)
    ensures TurnState(k, g).prioMax == k.prioMax
    ensures forall j :: 0 <= j < MAX_PRIORITY ==> (TurnState(k, g).slots[j].None? <==> k.slots[j].None?)
  {
    hide Good;
  }

  lemma SameLoader(k: Kernel, t: Kernel, g: nat)
    requires Resting(k) && Good(t, 2, 0, 1) && t.added == k.added
    requires Occupied(k, g) && t.slots[g] == Some(At(k, g).(waitingResId := 0))
    ensures LoaderProcess(t, At(t, g)) == LoaderProcess(k, At(k, g))
  {
  }

  // The wait

  /** A governor that is waiting for its image, or has it and is about to run. */
  predicate GovernorIn(k: Kernel, g: nat, pid: Byte) {
    && Occupied(k, g) && IsGovernor(At(k, g)) && At(k, g).pid == pid
    && At(k, g).vm.Some? && At(k, g).state in {READY, BLOCKED} && k.current != Some(g)
  }

  /** A loader ready to take its turn for the process with the given pid. */
  predicate LoaderIn(k: Kernel, l: nat, pid: Byte, fileId: Word) {
    && Occupied(k, l) && IsLoader(At(k, l)) && At(k, l).vm.None? && At(k, l).state == READY
    && At(k, l).parentPid == pid && At(k, l).fileId == fileId && k.current != Some(l)
  }

  /** While a governor is ready or blocked nothing is shut down. */
  lemma NoShutdown(k: Kernel, i: nat, g: nat, pid: Byte)
    requires Resting(k) && ReadyAt(k, i) && GovernorIn(k, g, pid)
    ensures Occupied(TurnState(k, i), i) && !ShutsDown(TurnState(k, i), i)
  {
    TurnStateIs(k, i);
    assert HasWork()(TurnState(k, i).slots[g]);
  }

  /** Without a timer expiry a ready process is ready after the turn of another. */
  lemma StaysReady(k: Kernel, i: nat, w: nat)
    requires Resting(k) && ReadyAt(k, i) && Occupied(k, w) && i != w && At(k, w).state == READY
    requires Left(k, Dispatch(k, i, false), w)
    ensures At(Dispatch(k, i, false), w).state == READY
  {
    hide Good, Dispatch, TakeTurn;
    Prepared(k, i);
    TurnStateLeft(k, i, w);
    var t := TurnState(k, i);
    PrologueReady(k, i, w);
    TurnReleases(k, i, false);
    if At(t, i).hasEntry || At(t, i).vm.None? {
      TurnOrderly(t, i, false);
    } else {
      TurnUndisturbed(t, i, false);
      assert LoadContext(t, i).slots[w] == t.slots[w];
    }
  }

  lemma PrologueReady(k: Kernel, i: nat, w: nat)
    requires Resting(k) && ReadyAt(k, i) && Occupied(k, w) && i != w && At(k, w).state == READY
    ensures Occupied(TurnState(k, i), w) && At(TurnState(k, i), w).state == READY
  {
  }

  /** After a turn the process whose turn it was is the only one that may be current. */
  lemma CurrentAfter(k: Kernel, i: nat, fired: bool)
    requires Resting(k) && ReadyAt(k, i)
    ensures Dispatch(k, i, fired).current in {None, Some(i)}
  {
    TurnStateIs(k, i);
    TurnCurrent(TurnState(k, i), i, fired);
    TurnReleases(k, i, fired);
  }

  lemma TurnCurrent(k: Kernel, i: nat, fired: bool)
    requires Occupied(k, i) && k.current == Some(i)
    ensures TakeTurn(k, i, fired).current in {None, Some(i)}
  {
    if !At(k, i).hasEntry && At(k, i).vm.Some? {
      RunVmCurrent(k, i);
    }
  }

  lemma RunVmCurrent(k: Kernel, i: nat)
    requires Occupied(k, i) && k.current == Some(i) && At(k, i).vm.Some?
    ensures RunVm(k, i).current in {None, Some(i)}
  {
    var k2 := AfterRequest(LoadContext(k, i), RES_MEM, i);
    if Grants(LoadContext(k, i), RES_MEM) && !At(k, i).swapped {
      ExecuteCurrent(k2, i);
    } else if Grants(LoadContext(k, i), RES_MEM) && CanSwap(k.disk, At(k, i).swapSlot) {
      ExecuteCurrent(SwapInFirst(k2, i), i);
    }
  }

  lemma ExecuteCurrent(k: Kernel, i: nat)
    requires Occupied(k, i) && k.current == Some(i) && At(k, i).vm.Some?
    ensures ReleaseRes(ExecuteVm(k, i), RES_MEM).current in {None, Some(i)}
  {
  }

  /** A governor whose turn it is not, and that nobody reaches, stays in, ready or blocked. */
  lemma GovernorLeftIn(k: Kernel, i: nat, g: nat, pid: Byte)
    requires Resting(k) && ReadyAt(k, i) && GovernorIn(k, g, pid) && i != g && Left(k, Dispatch(k, i, false), g)
    ensures GovernorIn(Dispatch(k, i, false), g, pid) && At(Dispatch(k, i, false), g).loaded == At(k, g).loaded
  {
    CurrentAfter(k, i, false);
    if At(k, g).state == READY {
      StaysReady(k, i, g);
    }
  }

  lemma LoaderLeftIn(k: Kernel, i: nat, l: nat, pid: Byte, fileId: Word)
    requires Resting(k) && ReadyAt(k, i) && LoaderIn(k, l, pid, fileId) && i != l && Left(k, Dispatch(k, i, false), l)
    ensures LoaderIn(Dispatch(k, i, false), l, pid, fileId)
  {
    CurrentAfter(k, i, false);
  }

  /** At most a process is woken, and its machine served. */
  predicate AtMostServed(p: Process, q: Process) {
    && SameIdentity(p, q) && q.loaded == p.loaded && (q.vm.Some? <==> p.vm.Some?) && q.state in {READY, p.state}
  }

  lemma HandlerTurnLeavesIn(k: Kernel, i: nat, w: nat)
    requires Good(k, 2, 0, 1) && Occupied(k, i) && IsHandler(At(k, i)) && Occupied(k, w) && i != w
    ensures
      var k' := TakeTurn(k, i, false);
      Occupied(k', w) && AtMostServed(At(k, w), At(k', w))
  {
    hide Good, TakeTurn;
    HandlerTurnIs(k, i, false, w);
    IoHandlerUndisturbed(k);
    if Completes(k, w) {
      CompletionServes(k, w, 2, 0, 1);
    } else {
      HandlerKeepsMachine(k, w, 2, 0, 1);
    }
  }

  /** A handler leaves every process in its place; at most it wakes it and serves its machine. */
  lemma HandlerLeavesIn(k: Kernel, i: nat, w: nat)
    requires Resting(k) && ReadyAt(k, i) && IsHandler(At(k, i)) && Occupied(k, w) && i != w && k.current != Some(w)
    ensures
      var k' := Dispatch(k, i, false);
      Occupied(k', w) && AtMostServed(At(k, w), At(k', w)) && k'.current != Some(w)
  {
    TurnStateIs(k, i);
    PrologueSpares(k, i, w);
    HandlerTurnLeavesIn(TurnState(k, i), i, w);
    TurnReleases(k, i, false);
    CurrentAfter(k, i, false);
  }

  /** A loader whose parent has no machine does nothing and leaves. */
  lemma IdleLoaderLeaves(k: Kernel, i: nat, w: nat)
    requires Resting(k) && k.added <= MAX_ADDS && ReadyAt(k, i) && IsLoader(At(k, i)) && Occupied(k, w) && i != w
    requires At(k, i).parentPid == At(k, w).pid && At(k, w).vm.None?
    ensures Left(k, Dispatch(k, i, false), w)
  {
    var t := TurnState(k, i);
    TurnStateLeft(k, i, w);
    IdleLoaderTurn(t, i, w);
    LeftTrans(k, t, TakeTurn(t, i, false), w);
    TurnReleases(k, i, false);
  }

  lemma IdleLoaderTurn(k: Kernel, i: nat, w: nat)
    requires Good(k, 2, 0, 1) && k.added <= MAX_ADDS && Occupied(k, i) && IsLoader(At(k, i)) && Occupied(k, w) && i != w
    requires At(k, i).parentPid == At(k, w).pid && At(k, w).vm.None?
    ensures Left(k, TakeTurn(k, i, false), w)
  {
    hide RunVm, RunLoader;
    PidsDistinct(k, i, w);
    IdleLoader(k, i, w);
    AfterEntryLeft(RunLoader(k, i), i, At(k, i).pid, w);
  }

  lemma IdleLoader(k: Kernel, i: nat, w: nat)
    requires Good(k, 2, 0, 1) && k.added <= MAX_ADDS && Occupied(k, i) && Occupied(k, w)
    requires At(k, i).parentPid == At(k, w).pid && At(k, w).vm.None?
    ensures RunLoader(k, i) == Return(k, 0)
  {
    var parent := LowestSlot(k.slots, HasPid(At(k, i).parentPid));
    assert HasPid(At(k, i).parentPid)(k.slots[w]);
    PidsDistinct(k, parent.value, w);
  }

  /** The governor stays in during the turn of any other process, and a loaded one stays loaded. */
  lemma GovernorStaysIn(k: Kernel, i: nat, g: nat, pid: Byte)
    requires Resting(k) && k.added <= MAX_ADDS && ReadyAt(k, i) && GovernorIn(k, g, pid) && i != g
    ensures GovernorIn(Dispatch(k, i, false), g, pid)
    ensures At(k, g).loaded == LOADED ==> At(Dispatch(k, i, false), g).loaded == LOADED
  {
    hide Good, Dispatch;
    NoShutdown(k, i, g, pid);
    TurnStateLeft(k, i, g);
    if IsHandler(At(k, i)) && Due(k) {
      HandlerLeavesIn(k, i, g);
    } else if IsLoader(At(k, i)) && At(k, i).parentPid == pid {
      LoaderFillsIn(k, i, g, pid);
    } else {
      DispatchLeaves(k, i, false, g);
      GovernorLeftIn(k, i, g, pid);
    }
  }

  lemma LoaderFillsIn(k: Kernel, i: nat, g: nat, pid: Byte)
    requires Resting(k) && k.added <= MAX_ADDS && ReadyAt(k, i) && GovernorIn(k, g, pid) && i != g
    requires IsLoader(At(k, i)) && At(k, i).parentPid == pid
    ensures GovernorIn(Dispatch(k, i, false), g, pid)
    ensures At(k, g).loaded == LOADED ==> At(Dispatch(k, i, false), g).loaded == LOADED
  {
    hide Good, Dispatch, TurnState, TakeTurn, LoadFile, LoadSucceeds;
    TurnStateLeft(k, i, g);
    PrologueSpares(k, i, g);
    FilledStays(TurnState(k, i), i, false, g);
    TurnReleases(k, i, false);
    CurrentAfter(k, i, false);
  }

  lemma PrologueSpares(k: Kernel, i: nat, w: nat)
    requires Resting(k) && ReadyAt(k, i) && Occupied(k, w) && i != w && k.current != Some(w)
    ensures TurnState(k, i).slots[w] == k.slots[w]
  {
  }

  /** The loader stays in during the turn of any other process. */
  lemma LoaderStaysIn(k: Kernel, i: nat, l: nat, g: nat, pid: Byte, fileId: Word)
    requires Resting(k) && k.added <= MAX_ADDS && ReadyAt(k, i) && GovernorIn(k, g, pid) && i != l
    requires LoaderIn(k, l, pid, fileId)
    ensures LoaderIn(Dispatch(k, i, false), l, pid, fileId)
  {
    hide Good, Dispatch;
    NoShutdown(k, i, g, pid);
    TurnStateLeft(k, i, l);
    if IsHandler(At(k, i)) && Due(k) {
      HandlerLeavesIn(k, i, l);
    } else {
      if IsLoader(At(k, i)) && At(k, i).parentPid == At(k, l).pid {
        IdleLoaderLeaves(k, i, l);
      } else {
        DispatchLeaves(k, i, false, l);
      }
      LoaderLeftIn(k, i, l, pid, fileId);
    }
  }

  // The pass

  /** The governor waits, and its loader is ready. */
  predicate InWait(k: Kernel, l: nat, g: nat, pid: Byte, fileId: Word) {
    Resting(k) && GovernorIn(k, g, pid) && LoaderIn(k, l, pid, fileId)
  }

  /** One iteration of the wait. */
  lemma WaitStep(k: Kernel, i: nat, l: nat, g: nat, pid: Byte, fileId: Word, fired: set<nat>) returns (k1: Kernel)
    requires InWait(k, l, g, pid, fileId) && l < i < g < MAX_PRIORITY && i !in fired
    requires RunRange(k, i, l + 1, fired).added <= MAX_ADDS
    ensures InWait(k1, l, g, pid, fileId) && RunRange(k, i, l + 1, fired) == RunRange(k1, i - 1, l + 1, fired)
  {
    AddedGrows(k, i, l + 1, fired);
    k1 := AddedStep(k, i, l + 1, fired);
    if ReadyAt(k, i) {
      GovernorStaysIn(k, i, g, pid);
      LoaderStaysIn(k, i, l, g, pid, fileId);
    }
  }

  /** Between the two slots, with no timer expiry on the way, the governor waits and the loader stays ready. */
  lemma {:induction false} WaitForLoader(k: Kernel, hi: int, l: nat, g: nat, pid: Byte, fileId: Word, fired: set<nat>)
    requires InWait(k, l, g, pid, fileId) && l <= hi < g < MAX_PRIORITY
    requires forall i :: l < i <= hi ==> i !in fired
    requires RunRange(k, hi, l + 1, fired).added <= MAX_ADDS
    ensures InWait(RunRange(k, hi, l + 1, fired), l, g, pid, fileId)
    decreases hi
  {
    hide Dispatch;
    if hi == l {
    } else {
      var k1 := WaitStep(k, hi, l, g, pid, fileId, fired);
      WaitForLoader(k1, hi - 1, l, g, pid, fileId, fired);
    }
  }

  /** Processes are only ever added. */
  lemma {:induction false} AddedGrows(k: Kernel, hi: int, lo: int, fired: set<nat>)
    requires Resting(k) && hi < MAX_PRIORITY && 0 <= lo
    ensures RunRange(k, hi, lo, fired).added >= k.added
    decreases hi - lo
  {
    if hi < lo {
    } else {
      var k1 := AddedStep(k, hi, lo, fired);
      AddedGrows(k1, hi - 1, lo, fired);
    }
  }

  /** The first iteration over a range of slots. */
  lemma AddedStep(k: Kernel, hi: int, lo: int, fired: set<nat>) returns (k1: Kernel)
    requires Resting(k) && 0 <= lo <= hi < MAX_PRIORITY
    ensures k1 == Dispatch(k, hi, hi in fired) && Resting(k1) && k1.added >= k.added
    ensures RunRange(k, hi, lo, fired) == RunRange(k1, hi - 1, lo, fired)
  {
    k1 := Dispatch(k, hi, hi in fired);
    DispatchKeepsInvariant(k, hi, hi in fired);
    DispatchOrderly(k, hi, hi in fired);
  }

  /** The governor has its image. */
  predicate HasImage(k: Kernel, g: nat, pid: Byte) {
    Resting(k) && GovernorIn(k, g, pid) && At(k, g).loaded == LOADED
  }

  lemma LoadedStep(k: Kernel, i: nat, lo: nat, g: nat, pid: Byte, fired: set<nat>) returns (k1: Kernel)
    requires HasImage(k, g, pid) && lo <= i < g < MAX_PRIORITY && i !in fired
    requires RunRange(k, i, lo, fired).added <= MAX_ADDS
    ensures HasImage(k1, g, pid) && RunRange(k, i, lo, fired) == RunRange(k1, i - 1, lo, fired)
  {
    AddedGrows(k, i, lo, fired);
    k1 := AddedStep(k, i, lo, fired);
    if ReadyAt(k, i) {
      GovernorStaysIn(k, i, g, pid);
    }
  }

  /** To the end of the pass a loaded governor stays in and loaded. */
  lemma {:induction false} StaysLoaded(k: Kernel, hi: int, lo: nat, g: nat, pid: Byte, fired: set<nat>)
    requires HasImage(k, g, pid) && hi < g
    requires forall i :: lo <= i <= hi ==> i !in fired
    requires RunRange(k, hi, lo, fired).added <= MAX_ADDS
    ensures HasImage(RunRange(k, hi, lo, fired), g, pid)
    decreases hi - lo
  {
    hide Resting, Dispatch;
    if hi < lo {
    } else {
      var k1 := LoadedStep(k, hi, lo, g, pid, fired);
      StaysLoaded(k1, hi - 1, lo, g, pid, fired);
    }
  }

  /** The state in which the loader of the governor in slot `g` takes its turn. */
  function AtLoader(k: Kernel, g: nat, fired: set<nat>): Kernel
    requires g < MAX_PRIORITY && PlaceFor(k, true).Some?
  {
    RunRange(k, g, PlaceFor(k, true).value + 1, fired)
  }

  /** What can be loaded now can be loaded as long as nothing was written over the image's first sector. */
  lemma StaysLoadable(k: Kernel, k': Kernel, fileId: Word)
    requires LoadSucceeds(k.disk, k.files, fileId) && DiskSince(k, k')
    requires Spared(k.history, k'.history, FindFile(k.files, fileId).value.startSector)
    ensures LoadSucceeds(k'.disk, k'.files, fileId)
  {
    hide Spared, Extends;
  }

  /**
    Progress: a governor that asks for its image when the pass reaches its slot,
    and whose loader finds a place in a lower slot, has the image, and is ready
    or about to be, when the pass ends, provided the image can be loaded, nothing
    is written over its header before the loader's slot is reached, and no timer
    expires in the rest of the pass.
    */
  lemma LoadedInTheSamePass(k: Kernel, g: nat, lo: nat, fired: set<nat>)
    requires Resting(k) && ReadyAt(k, g) && IsGovernor(At(k, g))
    requires At(k, g).vm.Some? && At(k, g).loaded == NOT_REQUESTED
    requires PlaceFor(k, true).Some? && lo <= PlaceFor(k, true).value < g
    requires forall i :: lo <= i <= g ==> i !in fired
    requires RunRange(k, g, lo, fired).added <= MAX_ADDS
    requires LoadSucceeds(k.disk, k.files, At(k, g).fileId)
    requires Spared(k.history, AtLoader(k, g, fired).history, FindFile(k.files, At(k, g).fileId).value.startSector)
    ensures HasImage(RunRange(k, g, lo, fired), g, At(k, g).pid)
  {
    hide Resting, Dispatch, LoadSucceeds, Spared, TurnState, Good, FindFile;
    var l := PlaceFor(k, true).value;
    var p := At(k, g);
    var k1 := Dispatch(k, g, false);
    var k2 := AtLoader(k, g, fired);
    var k3 := Dispatch(k2, l, false);
    RequestDispatch(k, g, false);
    DispatchKeepsInvariant(k, g, false);
    RangesJoin(k, g, l, lo, fired);
    LastIteration(k, g, l, fired);
    RangeKeepsInvariant(k1, g - 1, l + 1, fired);
    DispatchKeepsInvariant(k2, l, false);
    DispatchOrderly(k2, l, false);
    AddedGrows(k3, l - 1, lo, fired);
    RangeDisk(k, g, l + 1, fired);
    StaysLoadable(k, k2, p.fileId);
    WaitForLoader(k1, g - 1, l, g, p.pid, p.fileId, fired);
    LoaderFillsParent(k2, l, false, g);
    GovernorStaysIn(k2, l, g, p.pid);
    StaysLoaded(k3, l - 1, lo, g, p.pid, fired);
  }
}
