/**
  The disk over the kernel's runs: a sector changes only by a completed WRITE
  that names it or by a machine swapped out over it.
  */
module DiskOfRuns {
  import opened Words
  import opened Isa
  import opened Disk
  import opened VirtualMachine
  import opened Swapper
  import opened KernelModel
  import opened KernelInvariant
  import opened KernelSafety
  import opened GovernorProtocol
  import opened MachineIsolation
  import opened ContextsOfRuns

  // What the record says about a sector

  predicate WritesTo(e: IoEvent, s: nat) {
    e.Consumed? && e.ask.code == SI_WRITE && e.ask.r0 == s
  }

  predicate Covers(slot: Word, s: nat) {
    SlotExists(slot) && SlotStart(slot) <= s < SlotStart(slot) + SLOT_SECTORS
  }

  predicate Extends(h: History, h': History) {
    h.io <= h'.io && h.swaps <= h'.swaps
  }

  /** Since `h` no completed WRITE named the sector, and no machine was swapped out over it. */
  predicate Spared(h: History, h': History, s: nat) {
    && (forall x :: |h.io| <= x < |h'.io| ==> !WritesTo(h'.io[x], s))
    && (forall x :: |h.swaps| <= x < |h'.swaps| ==> !Covers(h'.swaps[x], s))
  }

  /** Every sector spared since `k` is as it was; the files are the same, and the disk is as idle as before. */
  predicate DiskSince(k: Kernel, k': Kernel) {
    && Extends(k.history, k'.history) && k'.files == k.files && k'.disk.busy == k.disk.busy
    && forall s :: 0 <= s < SECTOR_COUNT && Spared(k.history, k'.history, s) ==>
                     k'.disk.storage[s] == k.disk.storage[s]
  }

  lemma SparedParts(h: History, h1: History, h2: History, s: nat)
    requires Extends(h, h1) && Extends(h1, h2) && Spared(h, h2, s)
    ensures Spared(h, h1, s) && Spared(h1, h2, s)
  {
    forall x | |h.io| <= x < |h1.io|
      ensures !WritesTo(h1.io[x], s)
    {
      assert h2.io[x] == h1.io[x];
    }
    forall x | |h.swaps| <= x < |h1.swaps|
      ensures !Covers(h1.swaps[x], s)
    {
      assert h2.swaps[x] == h1.swaps[x];
    }
  }

  lemma DiskTrans(k: Kernel, k1: Kernel, k2: Kernel)
    requires DiskSince(k, k1) && DiskSince(k1, k2)
    ensures DiskSince(k, k2)
  {
    hide Spared;
    forall s | 0 <= s < SECTOR_COUNT && Spared(k.history, k2.history, s)
      ensures k2.disk.storage[s] == k.disk.storage[s]
    {
      SparedParts(k.history, k1.history, k2.history, s);
    }
  }

  // The operations that leave the disk alone

  /** Disk and files are the same, and at most an acceptance was recorded. */
  predicate DiskKept(k: Kernel, k': Kernel) {
    && k'.disk == k.disk && k'.files == k.files && k'.history.swaps == k.history.swaps
    && k.history.io <= k'.history.io
  }

  lemma KeptSince(k: Kernel, k': Kernel)
    requires DiskKept(k, k')
    ensures DiskSince(k, k')
  {
  }

  lemma EnqueueDisk(k: Kernel, i: nat, code: Word, r0: Word, r1: Word, r2: Word)
    requires Occupied(k, i)
    ensures DiskKept(k, EnqueueIo(k, i, code, r0, r1, r2))
  {
  }

  lemma GovernorDisk(k: Kernel, i: nat)
    requires Occupied(k, i)
    ensures DiskKept(k, JobGovernor(k, i).k)
  {
    hide EnqueueIo, AddProc;
    var p := At(k, i);
    if p.vm.Some? && p.loaded == NOT_REQUESTED {
      AddDisk(k, LoaderFor(p));
    } else if p.vm.Some? && p.loaded == LOADED {
      var o := RunOperations(p.vm.value).vm;
      EnqueueDisk(Put(Log(k, VmRan(p.serial)), i, p.(vm := Some(o))), i, o.trapCode, o.trapR0, o.trapR1, o.trapR2);
    }
  }

  lemma AddDisk(k: Kernel, n: NewProcess)
    ensures DiskKept(k, AddProc(k, n))
  {
  }

  lemma ReleaseDisk(k: Kernel, id: int)
    ensures DiskKept(k, ReleaseRes(k, id))
  {
  }

  lemma RequestDisk(k: Kernel, id: int, i: nat)
    requires Occupied(k, i)
    ensures DiskKept(k, AfterRequest(k, id, i))
  {
  }

  lemma LoaderDisk(k: Kernel, i: nat)
    requires Good(k, 2, 0, 1) && Occupied(k, i)
    ensures DiskKept(k, RunLoader(k, i).k)
  {
    hide AfterRequest, ReleaseRes, LoadInto, Good;
    var parent := LowestSlot(k.slots, HasPid(At(k, i).parentPid));
    if parent.Some? && At(k, parent.value).vm.Some? {
      var j := parent.value;
      RequestMemFrame(k, i, j);
      RequestDisk(k, RES_MEM, i);
      var k1 := AfterRequest(k, RES_MEM, i);
      LoadIntoDisk(k1, j, At(k, i).fileId);
      ReleaseDisk(LoadInto(k1, j, At(k, i).fileId), RES_MEM);
    }
  }

  lemma LoadIntoDisk(k: Kernel, j: nat, fileId: Word)
    requires Occupied(k, j) && At(k, j).vm.Some?
    ensures DiskKept(k, LoadInto(k, j, fileId))
  {
  }

  lemma SwitchDisk(k: Kernel)
    ensures DiskKept(k, ContextSwitch(k))
  {
  }

  lemma InterruptsDisk(k: Kernel, fired: bool)
    requires Good(k, 2, 0, 1) && k.current.Some?
    ensures DiskKept(k, InterruptHandler(k, fired))
  {
    hide AfterRequest, ReleaseRes, KernelHandleInterrupts, ReactToPi, ReactToSi;
    var i := k.current.value;
    RequestTmr(k, i);
    RequestDisk(k, RES_TMR, i);
    var k0 := AfterRequest(k, RES_TMR, i);
    HandleInterruptsGood(k0, fired);
    HandledDisk(k0, fired);
    var k1 := KernelHandleInterrupts(k0, fired);
    QuietReaction(k1);
    ReleaseDisk(React(k1), RES_TMR);
  }

  lemma HandledDisk(k: Kernel, fired: bool)
    requires LatchesQuiet(k)
    ensures DiskKept(k, KernelHandleInterrupts(k, fired))
  {
    hide ContextSwitch, KernelHandleInterrupts;
    OnlyTheTimer(k, fired);
    SwitchDisk(TimerTaken(k));
  }

  // The two that change it

  /** A handler step changes the disk only by the WRITE it completes, and records that. */
  lemma HandlerDisk(k: Kernel)
    requires k.ioHead < RING_SIZE
    ensures DiskSince(k, IoHandler(k))
  {
    hide ReleaseRes;
    var k' := IoHandler(k);
    if Due(k) {
      var req := k.pending[k.ioHead];
      CompletionDisk(k, req);
      var n := |k.history.io|;
      assert k'.history.io[n] == HandlerStep && k'.history.io[n + 1] == Consumed(AskOf(req));
    }
  }

  /** Completing a request changes no sector but the one a WRITE names. */
  lemma CompletionDisk(k: Kernel, req: IoRequest)
    ensures
      var k' := CompleteIo(k, req);
      && k'.files == k.files && k'.disk.busy == k.disk.busy && k'.history == k.history
      && forall s :: 0 <= s < SECTOR_COUNT && !(req.code == SI_WRITE && req.r0 == s) ==>
                       k'.disk.storage[s] == k.disk.storage[s]
  {
    hide ReleaseRes;
    var i := Requester(k, req);
    if i.Some? {
      ReleaseDisk(Transfer(k, i.value, req), RES_IO);
      ReleaseHistory(Transfer(k, i.value, req), RES_IO);
    }
  }

  lemma ReleaseHistory(k: Kernel, id: int)
    ensures ReleaseRes(k, id).history == k.history
  {
  }

  /** A trapped machine changes the disk only by being swapped out, and that is recorded. */
  lemma SuspendDisk(k: Kernel, i: nat)
    requires Occupied(k, i) && At(k, i).vm.Some?
    ensures DiskSince(k, SuspendVm(k, i))
  {
    hide EnqueueIo;
    var vm := At(k, i).vm.value;
    EnqueueDisk(k, i, vm.trapCode, vm.trapR0, vm.trapR1, vm.trapR2);
    var k1 := EnqueueIo(k, i, vm.trapCode, vm.trapR0, vm.trapR1, vm.trapR2);
    var k' := SuspendVm(k, i);
    if k'.history.swaps != k.history.swaps {
      assert k'.history.swaps[|k.history.swaps|] == At(k1, i).swapSlot;
    }
  }

  lemma ExecuteDisk(k: Kernel, i: nat)
    requires Occupied(k, i) && At(k, i).vm.Some?
    ensures DiskSince(k, ExecuteVm(k, i))
  {
    hide SuspendVm;
    var p := At(k, i);
    var o := RunOperations(p.vm.value);
    var k1 := Put(k, i, p.(vm := Some(o.vm))).(lastTrapPid := p.pid);
    if o.rc == RC_TRAPPED {
      SuspendDisk(k1, i);
    }
  }

  /** What a machine's turn leaves once the memory unit is back. */
  lemma ThenReleaseDisk(k: Kernel, k2: Kernel, k3: Kernel)
    requires DiskKept(k, k2) && DiskSince(k2, k3)
    ensures DiskSince(k, ReleaseRes(k3, RES_MEM))
  {
    hide ReleaseRes;
    ReleaseDisk(k3, RES_MEM);
    KeptSince(k, k2);
    KeptSince(k3, ReleaseRes(k3, RES_MEM));
    DiskTrans(k, k2, k3);
    DiskTrans(k, k3, ReleaseRes(k3, RES_MEM));
  }

  lemma RunVmDisk(k: Kernel, i: nat)
    requires Good(k, 2, 0, 1) && Occupied(k, i) && At(k, i).vm.Some?
    ensures DiskSince(k, RunVm(k, i))
  {
    hide AfterRequest, ReleaseRes, ExecuteVm, DiskSince, Good;
    MemoryTaken(k, i);
    RequestDisk(LoadContext(k, i), RES_MEM, i);
    var k2 := AfterRequest(LoadContext(k, i), RES_MEM, i);
    assert DiskKept(k, k2);
    if At(k, i).swapped && !CanSwap(k.disk, At(k, i).swapSlot) {
      KeptSince(k2, SetState(k2, i, SUSP_BLOCKED));
      ThenReleaseDisk(k, k2, SetState(k2, i, SUSP_BLOCKED));
    } else {
      var k3 := if At(k, i).swapped then SwapInFirst(k2, i) else k2;
      assert DiskKept(k, k3);
      ExecuteDisk(k3, i);
      ThenReleaseDisk(k, k3, ExecuteVm(k3, i));
    }
  }

  // Every turn, every iteration, every run

  lemma EntryDisk(k: Kernel, i: nat, fired: bool)
    requires Good(k, 2, 0, 1) && k.current == Some(i) && Occupied(k, i)
    ensures DiskSince(k, RunEntry(k, i, fired).k)
  {
    hide JobGovernor, RunLoader, IoHandler, InterruptHandler, DiskSince;
    match At(k, i).procType
    case START_STOP => KeptSince(k, StartStop(k).k);
    case IDLE => KeptSince(k, k);
    case JOB_GOVERNOR =>
      GovernorDisk(k, i);
      KeptSince(k, JobGovernor(k, i).k);
    case LOADER =>
      LoaderDisk(k, i);
      KeptSince(k, RunLoader(k, i).k);
    case IO_HANDLER => HandlerDisk(k);
    case INTERRUPT_HANDLER =>
      InterruptsDisk(k, fired);
      KeptSince(k, InterruptHandler(k, fired));
  }

  lemma AfterEntryDisk(r: Return, i: nat, pid: Byte)
    ensures DiskKept(r.k, AfterEntry(r, i, pid))
  {
  }

  lemma TurnDisk(k: Kernel, i: nat, fired: bool)
    requires Good(k, 2, 0, 1) && k.current == Some(i) && Occupied(k, i)
    ensures DiskSince(k, TakeTurn(k, i, fired))
  {
    hide RunEntry, RunVm, AfterEntry, DiskSince, Good;
    var p := At(k, i);
    if p.hasEntry {
      var r := RunEntry(k, i, fired);
      EntryDisk(k, i, fired);
      AfterEntryDisk(r, i, p.pid);
      KeptSince(r.k, AfterEntry(r, i, p.pid));
      DiskTrans(k, r.k, AfterEntry(r, i, p.pid));
    } else if p.vm.Some? {
      RunVmDisk(k, i);
    } else {
      KeptSince(k, k);
    }
  }

  lemma DispatchDisk(k: Kernel, i: nat, fired: bool)
    requires Resting(k)
    ensures DiskSince(k, Dispatch(k, i, fired))
  {
    hide TakeTurn, TurnState, DiskSince, Resting;
    if ReadyAt(k, i) {
      var t := TurnState(k, i);
      TurnStateIs(k, i);
      TurnDisk(t, i, fired);
      TurnReleases(k, i, fired);
      KeptSince(k, t);
      KeptSince(TakeTurn(t, i, fired), Dispatch(k, i, fired));
      DiskTrans(k, t, TakeTurn(t, i, fired));
      DiskTrans(k, TakeTurn(t, i, fired), Dispatch(k, i, fired));
    } else {
      KeptSince(k, k);
    }
  }

  lemma {:induction false} RangeDisk(k: Kernel, hi: int, lo: int, fired: set<nat>)
    requires Resting(k) && hi < MAX_PRIORITY && 0 <= lo
    ensures Resting(RunRange(k, hi, lo, fired)) && DiskSince(k, RunRange(k, hi, lo, fired))
    decreases hi - lo
  {
    hide Resting, Dispatch, DiskSince;
    if hi < lo {
      KeptSince(k, k);
    } else {
      var k1 := Dispatch(k, hi, hi in fired);
      DispatchKeepsInvariant(k, hi, hi in fired);
      DispatchDisk(k, hi, hi in fired);
      RangeDisk(k1, hi - 1, lo, fired);
      DiskTrans(k, k1, RunRange(k, hi, lo, fired));
    }
  }

  lemma ActDisk(k: Kernel, a: Action)
    requires Resting(k)
    ensures Resting(Act(k, a)) && DiskSince(k, Act(k, a))
  {
    hide Good, AddProc, DiskSince;
    match a
    case Add(n) =>
      AddProcGood(k, n.(parentPid := 0), 2, 1, 1);
      AddDisk(k, n.(parentPid := 0));
      KeptSince(k, Act(k, a));
    case Cycle(fired) =>
      var k1 := RunRange(k, MAX_PRIORITY - 1, FIRST_SYSTEM_SLOT, fired);
      RangeDisk(k, MAX_PRIORITY - 1, FIRST_SYSTEM_SLOT, fired);
      RangeDisk(k1, FIRST_SYSTEM_SLOT - 1, 0, fired);
      DiskTrans(k, k1, RunCycle(k, fired));
  }

  /**
    The disk over runs: whatever processes are created and whatever cycles run,
    every sector that no completed WRITE named and no machine was swapped out
    over since is exactly as it was, and the file table never changes.
    */
  lemma {:induction false} SectorsOfRuns(k: Kernel, acts: seq<Action>)
    requires Resting(k)
    ensures Resting(Run(k, acts)) && DiskSince(k, Run(k, acts))
    decreases |acts|
  {
    hide Resting, Act, DiskSince;
    if acts == [] {
      KeptSince(k, k);
    } else {
      var k1 := Run(k, acts[..|acts| - 1]);
      SectorsOfRuns(k, acts[..|acts| - 1]);
      ActDisk(k1, acts[|acts| - 1]);
      DiskTrans(k, k1, Run(k, acts));
    }
  }
}
