/**
  One pass over the table: who gets a turn, in which order, and that the
  window the context switcher searches loses nothing.
  */
module DispatchOrder {
  import opened Words
  import opened Disk
  import opened VirtualMachine
  import opened Loader
  import opened KernelModel
  import opened KernelInvariant
  import opened KernelSafety
  import opened Frames
  import opened GovernorProtocol

  /** Processes never move: whoever sits in a slot later was there before, with the same swap slot, or is newer. */
  predicate Stays(k: Kernel, k': Kernel) {
    && k'.added >= k.added
    && forall j :: 0 <= j < MAX_PRIORITY && k'.slots[j].Some? ==>
                     || k'.slots[j].value.serial > k.added
                     || (&& k.slots[j].Some? && k.slots[j].value.serial == k'.slots[j].value.serial
                         && k.slots[j].value.swapSlot == k'.slots[j].value.swapSlot)
  }

  /** Whoever sits in a slot later has the context it had, or is new and has the initial one. */
  predicate CarriesContexts(k: Kernel, k': Kernel) {
    forall j :: 0 <= j < MAX_PRIORITY && k'.slots[j].Some? ==>
                  if k'.slots[j].value.serial > k.added then k'.slots[j].value.context == ZERO_CPU
                  else k.slots[j].Some? && k'.slots[j].value.context == k.slots[j].value.context
  }

  /** What a turn does to the records of turns and saves and to who sits where. */
  predicate Orderly(k: Kernel, k': Kernel) {
    && Stays(k, k') && CarriesContexts(k, k')
    && k'.history.turns == k.history.turns && k'.history.saves == k.history.saves
  }

  /** All that, and nobody starts running. */
  predicate Settled(k: Kernel, k': Kernel) {
    Orderly(k, k') && NoneStarts(k.slots, k'.slots)
  }

  lemma SettledTrans(k: Kernel, k1: Kernel, k2: Kernel)
    requires Orderly(k, k1) && Orderly(k1, k2)
    ensures Orderly(k, k2)
    ensures Settled(k, k1) && Settled(k1, k2) ==> Settled(k, k2)
  {
  }

  /** All serial numbers in the table have been given out. */
  predicate SerialsGiven(k: Kernel) {
    forall j :: 0 <= j < MAX_PRIORITY && k.slots[j].Some? ==> k.slots[j].value.serial <= k.added
  }

  lemma GoodSerials(k: Kernel, mem: int, cpu: int, tmr: int)
    requires Good(k, mem, cpu, tmr)
    ensures SerialsGiven(k)
  {
    forall j | 0 <= j < MAX_PRIORITY && k.slots[j].Some?
      ensures k.slots[j].value.serial <= k.added
    {
      assert ProcessOk(j, k.slots[j].value, k.prioMin, k.added);
    }
  }

  lemma KeptIsOrderly(k: Kernel, k': Kernel)
    requires Kept(k, k') && SerialsGiven(k)
    ensures Orderly(k, k') && SerialsGiven(k')
    ensures Undisturbed(k, k') ==> Settled(k, k')
  {
  }

  lemma RequestSettled(k: Kernel, i: nat)
    requires Good(k, 2, 0, 1) && Occupied(k, i) && At(k, i).vm.Some? && At(k, i).loaded == NOT_REQUESTED
    ensures Settled(k, JobGovernor(k, i).k)
  {
    GoodSerials(k, 2, 0, 1);
    var k1 := AddProc(k, LoaderFor(At(k, i)));
    AddSettled(k, LoaderFor(At(k, i)));
    AddProcGood(k, LoaderFor(At(k, i)), 2, 0, 1);
    SettledPut(k, k1, JobGovernor(k, i).k, i, At(k, i).(loaded := LOADING, state := BLOCKED));
  }

  /** A further change of one entry that starts nobody. */
  lemma SettledPut(k: Kernel, k1: Kernel, k2: Kernel, i: nat, p: Process)
    requires Settled(k, k1) && i < MAX_PRIORITY && k1.slots[i].Some? && k2.slots == k1.slots[i := Some(p)]
    requires p.serial == k1.slots[i].value.serial && p.context == k1.slots[i].value.context && p.state != RUNNING
    requires p.swapSlot == k1.slots[i].value.swapSlot
    requires k2.added == k1.added && k2.history.turns == k1.history.turns && k2.history.saves == k1.history.saves
    ensures Settled(k, k2)
  {
  }

  lemma AddSettled(k: Kernel, n: NewProcess)
    requires SerialsGiven(k)
    ensures Settled(k, AddProc(k, n))
  {
  }

  lemma RunSettled(k: Kernel, i: nat)
    requires Good(k, 2, 0, 1) && Occupied(k, i) && At(k, i).vm.Some?
    ensures Settled(k, RunGovernorVm(k, i).k)
  {
    hide Good, EnqueueIo, RunOperations;
    var p := At(k, i);
    var o := RunOperations(p.vm.value).vm;
    var k1 := Put(Log(k, VmRan(p.serial)), i, p.(vm := Some(o)));
    GoodSerials(k, 2, 0, 1);
    ReplacedSettled(k, k1, i, p.(vm := Some(o)));
    EnqueueSettled(k, k1, i, o.trapCode, o.trapR0, o.trapR1, o.trapR2);
  }

  lemma ReplacedSettled(k: Kernel, k': Kernel, i: nat, p: Process)
    requires SerialsGiven(k) && Occupied(k, i) && k'.slots == k.slots[i := Some(p)]
    requires p.serial == At(k, i).serial && p.context == At(k, i).context && p.state == At(k, i).state
    requires p.swapSlot == At(k, i).swapSlot
    requires k'.added == k.added && k'.history.turns == k.history.turns && k'.history.saves == k.history.saves
    ensures Settled(k, k') && SerialsGiven(k')
  {
  }

  lemma EnqueueSettled(k: Kernel, k1: Kernel, i: nat, code: Word, r0: Word, r1: Word, r2: Word)
    requires Settled(k, k1) && SerialsGiven(k1) && Occupied(k1, i)
    ensures
      var k2 := EnqueueIo(k1, i, code, r0, r1, r2);
      Occupied(k2, i) && Settled(k, k2) && Settled(k, BlockGovernor(k2, i))
  {
    EnqueueIoFrame(k1, i, code, r0, r1, r2);
    var k2 := EnqueueIo(k1, i, code, r0, r1, r2);
    KeptIsOrderly(k1, k2);
    SettledTrans(k, k1, k2);
  }

  lemma GovernorSettled(k: Kernel, i: nat)
    requires Good(k, 2, 0, 1) && Occupied(k, i)
    ensures Settled(k, JobGovernor(k, i).k)
  {
    hide Good;
    var p := At(k, i);
    GoodSerials(k, 2, 0, 1);
    if p.vm.Some? && p.loaded == NOT_REQUESTED {
      RequestSettled(k, i);
    } else if p.vm.Some? && p.loaded == LOADED {
      RunSettled(k, i);
    }
  }

  lemma LoadedSettled(k: Kernel, k1: Kernel, j: nat)
    requires Undisturbed(k, k1) && SerialsGiven(k) && Occupied(k1, j)
    ensures Settled(k, k1) && Settled(k, FinishLoad(k1, j))
  {
    KeptIsOrderly(k, k1);
    assert Settled(k1, FinishLoad(k1, j));
    SettledTrans(k, k1, FinishLoad(k1, j));
  }

  lemma LoaderSettled(k: Kernel, i: nat)
    requires Good(k, 2, 0, 1) && Occupied(k, i)
    ensures Settled(k, RunLoader(k, i).k)
  {
    hide Good, ReleaseRes, LowestSlot;
    var p := At(k, i);
    GoodSerials(k, 2, 0, 1);
    var parent := LowestSlot(k.slots, HasPid(p.parentPid));
    if parent.Some? && At(k, parent.value).vm.Some? {
      LoadingUndisturbed(k, i, parent.value);
      LoadedSettled(k, ReleaseRes(LoadInto(AfterRequest(k, RES_MEM, i), parent.value, p.fileId), RES_MEM),
                    parent.value);
    }
  }

  /** The turn of a governor or a loader. */
  lemma LoadTurnSettled(k: Kernel, i: nat, fired: bool)
    requires Good(k, 2, 0, 1) && k.current == Some(i) && Occupied(k, i) && (IsGovernor(At(k, i)) || IsLoader(At(k, i)))
    ensures Settled(k, TakeTurn(k, i, fired))
  {
    hide Good, Settled, AfterEntry, JobGovernor, RunLoader;
    var r := RunEntry(k, i, fired);
    RunEntryGood(k, i, fired);
    GoodSerials(r.k, 2, 0, 1);
    if IsGovernor(At(k, i)) {
      GovernorSettled(k, i);
    } else {
      LoaderSettled(k, i);
    }
    EntrySettled(k, r, i, At(k, i).pid);
  }

  lemma EntrySettled(k: Kernel, r: Return, i: nat, pid: Byte)
    requires Settled(k, r.k) && SerialsGiven(r.k)
    ensures Settled(k, AfterEntry(r, i, pid))
  {
    hide Orderly, AfterEntry;
    AfterEntryUndisturbed(r, i, pid);
    KeptIsOrderly(r.k, AfterEntry(r, i, pid));
    SettledTrans(k, r.k, AfterEntry(r, i, pid));
  }

  /** The only turns in which somebody may start running: a machine's own, and that of a preempting handler. */
  predicate StartsSomebody(k: Kernel, i: nat, fired: bool)
    requires Occupied(k, i)
  {
    if At(k, i).hasEntry then At(k, i).procType == INTERRUPT_HANDLER && Preempts(k, fired) else At(k, i).vm.Some?
  }

  lemma TurnOrderly(k: Kernel, i: nat, fired: bool)
    requires Good(k, 2, 0, 1) && k.current == Some(i) && Occupied(k, i) && At(k, i).state == READY
    ensures Orderly(k, TakeTurn(k, i, fired))
    ensures !StartsSomebody(k, i, fired) ==> Settled(k, TakeTurn(k, i, fired))
  {
    if IsGovernor(At(k, i)) || IsLoader(At(k, i)) {
      LoadTurnSettled(k, i, fired);
    } else {
      GoodSerials(k, 2, 0, 1);
      TurnUndisturbed(k, i, fired);
      KeptIsOrderly(k, TakeTurn(k, i, fired));
    }
  }

  /** The turns one iteration records: one if the slot's process is ready, none otherwise. */
  function TurnAt(k: Kernel, i: nat): seq<Turn> {
    if ReadyAt(k, i) then [Turn(i, At(k, i).serial)] else []
  }

  lemma ReleaseIsOrderly(k: Kernel)
    requires Good(k, 2, 0, 1)
    ensures
      var k' := ReleaseRes(k, RES_CPU);
      k'.slots == k.slots && k'.added == k.added && k'.history == k.history
  {
    ReleaseCpu(k);
  }

  lemma DispatchOrderly(k: Kernel, i: nat, fired: bool)
    requires Resting(k)
    ensures Stays(k, Dispatch(k, i, fired))
    ensures Dispatch(k, i, fired).history.turns == k.history.turns + TurnAt(k, i)
  {
    hide Good, TakeTurn, AfterRequest;
    if ReadyAt(k, i) {
      Prepared(k, i);
      var k2 := AfterRequest(Prologue(k, i), RES_CPU, i);
      TurnOrderly(k2, i, fired);
      TakeTurnGood(k2, i, fired);
      ReleaseIsOrderly(TakeTurn(k2, i, fired));
    }
  }

  // One range of slots

  /** The state in which the loop reaches slot `i`. */
  function Reaching(k: Kernel, hi: int, i: int, fired: set<nat>): Kernel
    requires hi < MAX_PRIORITY && 0 <= i
  {
    RunRange(k, hi, i + 1, fired)
  }

  /** The loop's last iteration is the one for the lowest slot. */
  lemma {:induction false} LastIteration(k: Kernel, hi: int, lo: int, fired: set<nat>)
    requires 0 <= lo <= hi < MAX_PRIORITY
    ensures RunRange(k, hi, lo, fired) == Dispatch(Reaching(k, hi, lo, fired), lo, lo in fired)
    decreases hi - lo
  {
    if lo >= hi {
    } else {
      LastIteration(Dispatch(k, hi, hi in fired), hi - 1, lo, fired);
    }
  }

  /** Reference: who was ready when the loop reached each slot, from the highest slot down. */
  function TurnsOf(k: Kernel, hi: int, lo: int, fired: set<nat>): seq<Turn>
    requires hi < MAX_PRIORITY && 0 <= lo
    decreases hi - lo
  {
    if hi < lo then []
    else TurnsOf(k, hi, lo + 1, fired) + TurnAt(Reaching(k, hi, lo, fired), lo)
  }

  /** Turns are taken in strictly decreasing slot order, by distinct processes. */
  predicate OnePass(ts: seq<Turn>, hi: int, lo: int) {
    && (forall a :: 0 <= a < |ts| ==> lo <= ts[a].slot <= hi)
    && (forall a, b :: 0 <= a < b < |ts| ==> ts[a].slot > ts[b].slot && ts[a].serial != ts[b].serial)
  }

  /** A process that had its turn is still in its slot, or is gone; it is in no other. */
  predicate NoneMoved(ts: seq<Turn>, k: Kernel) {
    && (forall a :: 0 <= a < |ts| ==> ts[a].serial <= k.added)
    && (forall a, j :: 0 <= a < |ts| && 0 <= j < MAX_PRIORITY && k.slots[j].Some? ==>
          k.slots[j].value.serial == ts[a].serial ==> j == ts[a].slot)
  }

  lemma NoneMovedLater(ts: seq<Turn>, k: Kernel, k': Kernel)
    requires NoneMoved(ts, k) && Stays(k, k')
    ensures NoneMoved(ts, k')
  {
  }

  /** One more turn, one slot further down. */
  lemma OneMoreTurn(ts: seq<Turn>, k: Kernel, k': Kernel, hi: int, lo: nat)
    requires Resting(k) && Stays(k, k') && lo <= hi && OnePass(ts, hi, lo + 1) && NoneMoved(ts, k) && ReadyAt(k, lo)
    ensures OnePass(ts + [Turn(lo, At(k, lo).serial)], hi, lo) && NoneMoved(ts + [Turn(lo, At(k, lo).serial)], k')
  {
    SerialUnique(k, lo);
    NoneMovedLater(ts, k, k');
    forall a | 0 <= a < |ts|
      ensures ts[a].serial != At(k, lo).serial
    {
      assert ts[a].slot >= lo + 1;
    }
    forall j | 0 <= j < MAX_PRIORITY && k'.slots[j].Some? && k'.slots[j].value.serial == At(k, lo).serial
      ensures j == lo
    {
      assert k.slots[j].Some? && k.slots[j].value.serial == At(k, lo).serial;
    }
  }

  /** The pass over a range, iteration by iteration. */
  lemma {:induction false} PassOverRange(k: Kernel, hi: int, lo: int, fired: set<nat>)
    requires Resting(k) && hi < MAX_PRIORITY && 0 <= lo
    ensures
      var k' := RunRange(k, hi, lo, fired);
      var ts := TurnsOf(k, hi, lo, fired);
      && Resting(k')
      && k'.history.turns == k.history.turns + ts
      && OnePass(ts, hi, lo) && NoneMoved(ts, k')
    decreases hi - lo
  {
    hide Good, Dispatch;
    if hi < lo {
    } else {
      PassOverRange(k, hi, lo + 1, fired);
      LastIteration(k, hi, lo, fired);
      var k1 := Reaching(k, hi, lo, fired);
      var k2 := Dispatch(k1, lo, lo in fired);
      DispatchKeepsInvariant(k1, lo, lo in fired);
      DispatchOrderly(k1, lo, lo in fired);
      ExtendPass(k, k1, k2, TurnsOf(k, hi, lo + 1, fired), hi, lo);
    }
  }

  lemma ExtendPass(k: Kernel, k1: Kernel, k2: Kernel, ts: seq<Turn>, hi: int, lo: nat)
    requires Resting(k1) && Stays(k1, k2) && lo <= hi < MAX_PRIORITY
    requires OnePass(ts, hi, lo + 1) && NoneMoved(ts, k1)
    requires k1.history.turns == k.history.turns + ts && k2.history.turns == k1.history.turns + TurnAt(k1, lo)
    ensures k2.history.turns == k.history.turns + (ts + TurnAt(k1, lo))
    ensures OnePass(ts + TurnAt(k1, lo), hi, lo) && NoneMoved(ts + TurnAt(k1, lo), k2)
  {
    if ReadyAt(k1, lo) {
      OneMoreTurn(ts, k1, k2, hi, lo);
    } else {
      assert ts + TurnAt(k1, lo) == ts;
      NoneMovedLater(ts, k1, k2);
    }
  }

  lemma {:induction false} RangesJoin(k: Kernel, hi: int, mid: int, lo: int, fired: set<nat>)
    requires hi < MAX_PRIORITY && 0 <= lo <= mid <= hi + 1
    ensures RunRange(RunRange(k, hi, mid, fired), mid - 1, lo, fired) == RunRange(k, hi, lo, fired)
    decreases hi - mid
  {
    if hi < mid {
    } else {
      RangesJoin(Dispatch(k, hi, hi in fired), hi - 1, mid, lo, fired);
    }
  }

  /**
    One-pass dispatch: in a cycle every process gets at most one turn, in
    strictly decreasing slot order, and a process gets its turn exactly when it
    is ready at the moment its slot is reached, even if it was added or woken
    earlier in the same pass.
    */
  lemma CycleIsOnePass(k: Kernel, fired: set<nat>)
    requires Resting(k)
    ensures
      var ts := TurnsOf(k, MAX_PRIORITY - 1, 0, fired);
      && RunCycle(k, fired).history.turns == k.history.turns + ts
      && OnePass(ts, MAX_PRIORITY - 1, 0)
  {
    RangesJoin(k, MAX_PRIORITY - 1, FIRST_SYSTEM_SLOT, 0, fired);
    PassOverRange(k, MAX_PRIORITY - 1, 0, fired);
  }

  /** A slot is in the record of the pass exactly when its process is ready as the loop reaches it. */
  lemma {:induction false} TurnIffReady(k: Kernel, hi: int, lo: int, fired: set<nat>, i: nat)
    requires hi < MAX_PRIORITY && 0 <= lo <= i <= hi
    ensures
      var k1 := Reaching(k, hi, i, fired);
      (exists t :: t in TurnsOf(k, hi, lo, fired) && t.slot == i) <==> ReadyAt(k1, i)
    ensures
      var k1 := Reaching(k, hi, i, fired);
      ReadyAt(k1, i) ==> Turn(i, At(k1, i).serial) in TurnsOf(k, hi, lo, fired)
    decreases i - lo
  {
    hide Reaching, ReadyAt;
    var above, last := TurnsOf(k, hi, lo + 1, fired), TurnAt(Reaching(k, hi, lo, fired), lo);
    assert TurnsOf(k, hi, lo, fired) == above + last;
    LowestTurn(Reaching(k, hi, lo, fired), lo);
    if lo < i {
      TurnIffReady(k, hi, lo + 1, fired, i);
    } else {
      TurnsAbove(k, hi, i + 1, fired);
    }
  }

  lemma LowestTurn(k: Kernel, lo: nat)
    ensures forall t :: t in TurnAt(k, lo) <==> ReadyAt(k, lo) && t == Turn(lo, At(k, lo).serial)
  {
  }

  lemma {:induction false} TurnsAbove(k: Kernel, hi: int, lo: int, fired: set<nat>)
    requires hi < MAX_PRIORITY && 0 <= lo
    ensures forall t :: t in TurnsOf(k, hi, lo, fired) ==> lo <= t.slot <= hi
    decreases hi - lo
  {
    if hi < lo {
    } else {
      TurnsAbove(k, hi, lo + 1, fired);
    }
  }

  // Whole runs

  lemma StaysTrans(k: Kernel, k1: Kernel, k2: Kernel)
    requires Stays(k, k1) && Stays(k1, k2)
    ensures Stays(k, k2)
  {
  }

  lemma NobodyMoves(k: Kernel)
    ensures Stays(k, k)
  {
  }

  lemma {:induction false} RangeStays(k: Kernel, hi: int, lo: int, fired: set<nat>)
    requires Resting(k) && hi < MAX_PRIORITY && 0 <= lo
    ensures Stays(k, RunRange(k, hi, lo, fired)) && Resting(RunRange(k, hi, lo, fired))
    decreases hi - lo
  {
    hide Resting, Dispatch, Stays;
    if hi < lo {
      NobodyMoves(k);
    } else {
      var k1 := Dispatch(k, hi, hi in fired);
      DispatchKeepsInvariant(k, hi, hi in fired);
      DispatchOrderly(k, hi, hi in fired);
      RangeStays(k1, hi - 1, lo, fired);
      StaysTrans(k, k1, RunRange(k, hi, lo, fired));
    }
  }

  lemma ActStays(k: Kernel, a: Action)
    requires Resting(k)
    ensures Stays(k, Act(k, a)) && Resting(Act(k, a))
  {
    hide Good, AddProc, Stays;
    match a
    case Add(n) =>
      GoodSerials(k, 2, 1, 1);
      AddProcGood(k, n.(parentPid := 0), 2, 1, 1);
      AddSettled(k, n.(parentPid := 0));
    case Cycle(fired) =>
      var k1 := RunRange(k, MAX_PRIORITY - 1, FIRST_SYSTEM_SLOT, fired);
      CycleKeepsInvariant(k, fired);
      RangeStays(k, MAX_PRIORITY - 1, FIRST_SYSTEM_SLOT, fired);
      RangeStays(k1, FIRST_SYSTEM_SLOT - 1, 0, fired);
      StaysTrans(k, k1, RunCycle(k, fired));
  }

  /** Over every run processes stay in their slots, with their swap slots. */
  lemma {:induction false} RunStays(k: Kernel, acts: seq<Action>)
    requires Resting(k)
    ensures Stays(k, Run(k, acts)) && Resting(Run(k, acts))
    decreases |acts|
  {
    hide Resting, Act, Stays;
    if acts == [] {
      NobodyMoves(k);
    } else {
      var k1 := Run(k, acts[..|acts| - 1]);
      RunStays(k, acts[..|acts| - 1]);
      ActStays(k1, acts[|acts| - 1]);
      StaysTrans(k, k1, Run(k, acts));
    }
  }

  // The context switcher's window

  /** The window between the recorded priorities finds the same process as a search of the whole table. */
  lemma WindowFindsAll(k: Kernel, mem: int, cpu: int, tmr: int)
    requires Good(k, mem, cpu, tmr)
    ensures NextRunnable(k) == HighestSlot(k.slots, Runnable(), MAX_PRIORITY - 1, 0)
  {
    var window := NextRunnable(k);
    var all := HighestSlot(k.slots, Runnable(), MAX_PRIORITY - 1, 0);
    forall j | 0 <= j < MAX_PRIORITY && k.slots[j].Some?
      ensures k.prioMin <= j <= k.prioMax
    {
      assert ProcessOk(j, k.slots[j].value, k.prioMin, k.added);
    }
  }

  /** The 8-bit pid is the serial number modulo 256, shifted. */
  lemma PidsCollide(a: nat, b: nat)
    ensures Wrap8(97 + a) == Wrap8(97 + b) <==> a % 0x100 == b % 0x100
  {
    ShiftedRemainder(a);
    ShiftedRemainder(b);
  }

  lemma ShiftedRemainder(a: nat)
    ensures (97 + a) % 0x100 == if a % 0x100 < 159 then 97 + a % 0x100 else a % 0x100 - 159
  {
    var q, r := a / 0x100, a % 0x100;
    assert 97 + a == 0x100 * q + (97 + r);
  }

  /**
    The table of every reachable state: halves, priority bounds, and when two
    processes share a pid: exactly when their serial numbers are equal modulo
    256. Until the pid wraps none do.
    */
  lemma TableOfRuns(storage: Storage, files: seq<FileEntry>, acts: seq<Action>, i: nat, j: nat)
    requires Occupied(Run(Boot(storage, files), acts), i) && Occupied(Run(Boot(storage, files), acts), j)
    ensures
      var k := Run(Boot(storage, files), acts);
      && (At(k, i).sysProc ==> FIRST_SYSTEM_SLOT <= i <= SCHEDULER_SLOT)
      && (!At(k, i).sysProc ==> 1 <= i < FIRST_SYSTEM_SLOT)
      && k.prioMin <= i <= k.prioMax == SCHEDULER_SLOT
      && (At(k, i).serial == At(k, j).serial ==> i == j)
      && (At(k, i).pid == At(k, j).pid <==> At(k, i).serial % 0x100 == At(k, j).serial % 0x100)
      && (k.added <= MAX_ADDS && At(k, i).pid == At(k, j).pid ==> i == j)
  {
    hide Run;
    Reachable(storage, files, acts);
    var k := Run(Boot(storage, files), acts);
    assert ProcessOk(i, At(k, i), k.prioMin, k.added) && ProcessOk(j, At(k, j), k.prioMin, k.added);
    PidsCollide(At(k, i).serial, At(k, j).serial);
    SerialUnique(k, i);
    if k.added <= MAX_ADDS {
      PidsDistinct(k, i, j);
    }
  }
}
