/**
  What the kernel's operations do to processes, resources and the I/O ring, told
  entry by entry, on every path: also the paths that the invariant keeps runs
  away from.
  */
module OperationLaws {
  import opened Words
  import opened Loader
  import opened Resources
  import opened KernelModel

  /** `i` is the lowest slot whose process has the identifier. */
  predicate LowestNamed(s: Slots, i: nat, pid: Byte) {
    && i < MAX_PRIORITY && s[i].Some? && s[i].value.pid == pid
    && forall j :: 0 <= j < i && s[j].Some? ==> s[j].value.pid != pid
  }

  predicate NobodyNamed(s: Slots, pid: Byte) {
    forall j :: 0 <= j < MAX_PRIORITY && s[j].Some? ==> s[j].value.pid != pid
  }

  /** `i` is the lowest slot whose process is blocked and of the type. */
  predicate LowestBlocked(s: Slots, i: nat, t: ProcType) {
    && i < MAX_PRIORITY && s[i].Some? && s[i].value.procType == t && s[i].value.state == BLOCKED
    && forall j :: 0 <= j < i && s[j].Some? ==> s[j].value.procType != t || s[j].value.state != BLOCKED
  }

  predicate NobodyBlocked(s: Slots, t: ProcType) {
    forall j :: 0 <= j < MAX_PRIORITY && s[j].Some? ==> s[j].value.procType != t || s[j].value.state != BLOCKED
  }

  lemma NamedFound(s: Slots, i: nat, pid: Byte)
    ensures LowestNamed(s, i, pid) ==> LowestSlot(s, HasPid(pid)) == Some(i)
    ensures NobodyNamed(s, pid) ==> LowestSlot(s, HasPid(pid)).None?
  {
    if LowestNamed(s, i, pid) {
      assert HasPid(pid)(s[i]);
    }
  }

  lemma BlockedFound(s: Slots, i: nat, t: ProcType)
    ensures LowestBlocked(s, i, t) ==> LowestSlot(s, BlockedOfType(t)) == Some(i)
    ensures NobodyBlocked(s, t) ==> LowestSlot(s, BlockedOfType(t)).None?
  {
    if LowestBlocked(s, i, t) {
      assert BlockedOfType(t)(s[i]);
    }
  }

  // Creating and waking processes

  /** The highest free slot between two bounds. */
  predicate HighestFree(s: Slots, i: nat, lo: nat, hi: nat) {
    lo <= i <= hi < MAX_PRIORITY && s[i].None? && forall j :: i < j <= hi ==> s[j].Some?
  }

  /**
    A system process goes to the highest free slot between 80 and the highest
    recorded priority, a user process to the highest free one between 1 and 79.
    It is ready, with the next identifier and otherwise zero. An identifier is
    used up whether or not there was room; with no room nothing else happens.
    */
  lemma AddedExactly(k: Kernel, n: NewProcess, i: nat)
    requires k.prioMax < MAX_PRIORITY && 0 <= k.prioMax
    ensures
      var k' := AddProc(k, n);
      var hi := if n.sysProc then k.prioMax else 79;
      var lo := if n.sysProc then 80 else 1;
      var pid := (k.lastPid + 1) % 256;
      && k'.lastPid == pid && k'.added == k.added + 1 && k'.prioMax == k.prioMax
      && (HighestFree(k.slots, i, lo, hi) ==>
            && k'.slots == k.slots[i := Some(Process(k.added + 1, pid, n.sysProc, n.procType, n.hasEntry, READY,
                                                     ZERO_CPU, n.vm, n.fileId, n.parentPid, 0, 0, false, n.swapSlot))]
            && k'.prioMin == if i < k.prioMin then i else k.prioMin)
      && ((forall j :: lo <= j <= hi ==> k.slots[j].Some?) ==> k'.slots == k.slots && k'.prioMin == k.prioMin)
  {
  }

  /** Removal clears the lowest slot with the identifier, whoever was meant; identifier 0 removes nobody. */
  lemma RemovedExactly(k: Kernel, pid: Byte, i: nat)
    ensures
      var k' := RemoveProc(k, pid);
      && (pid != 0 && LowestNamed(k.slots, i, pid) ==> k' == k.(slots := k.slots[i := None]))
      && (pid == 0 || NobodyNamed(k.slots, pid) ==> k' == k)
  {
    NamedFound(k.slots, i, pid);
  }

  /** A wake-up by identifier makes the lowest process that has it ready, in whatever state it was, and no other. */
  lemma UnblockedExactly(k: Kernel, pid: Byte, i: nat)
    ensures
      var k' := UnblockProcess(k, pid);
      && (LowestNamed(k.slots, i, pid) ==>
            k' == k.(slots := k.slots[i := Some(k.slots[i].value.(state := READY))]))
      && (NobodyNamed(k.slots, pid) ==> k' == k)
  {
    NamedFound(k.slots, i, pid);
  }

  /** A wake-up by type makes the lowest blocked process of the type ready, and no other. */
  lemma WokenExactly(k: Kernel, t: ProcType, i: nat)
    ensures
      var k' := WakeByType(k, t);
      && (LowestBlocked(k.slots, i, t) ==>
            k' == k.(slots := k.slots[i := Some(k.slots[i].value.(state := READY))]))
      && (NobodyBlocked(k.slots, t) ==> k' == k)
  {
    BlockedFound(k.slots, i, t);
  }

  // Requests and releases, with their processes

  /** `j` is the first resource with the identifier. */
  predicate FirstRes(res: seq<Resource>, j: nat, id: int) {
    j < |res| && res[j].id == id && forall h :: 0 <= h < j ==> res[h].id != id
  }

  lemma FoundRes(res: seq<Resource>, j: nat, id: int)
    requires FirstRes(res, j, id)
    ensures FindRes(res, id) == Some(j)
  {
  }

  /**
    A request takes a unit if one is free, and the process then waits for
    nothing. Otherwise the process is suspended, marked with the resource, queued
    unless 31 wait already, and the denial is recorded.
    */
  lemma RequestedExactly(k: Kernel, id: int, i: nat, j: nat)
    requires Occupied(k, i) && FirstRes(k.res, j, id)
    ensures
      var r := k.res[j];
      var p := At(k, i);
      var k' := AfterRequest(k, id, i);
      && Grants(k, id) == (r.available > 0)
      && k' == if r.available > 0 then
           k.(res := k.res[j := r.(available := r.available - 1)], slots := k.slots[i := Some(p.(waitingResId := 0))])
         else
           k.(res := k.res[j := r.(queue := if |r.queue| < 31 then r.queue + [p.pid] else r.queue)],
              slots := k.slots[i := Some(p.(waitingResId := Wrap8(id), state := SUSP_BLOCKED))],
              history := k.history.(denied := k.history.denied + [id]))
  {
    FoundRes(k.res, j, id);
    assert k.res[j := k.res[j]] == k.res;
  }

  /** No resource has the identifier: nothing is granted, and asking or releasing changes nothing. */
  lemma NoSuchResource(k: Kernel, id: int, i: nat)
    requires Occupied(k, i) && forall j :: 0 <= j < |k.res| ==> k.res[j].id != id
    ensures !Grants(k, id) && AfterRequest(k, id, i) == k && ReleaseRes(k, id) == k
  {
  }

  /**
    A released unit goes to the process that has waited longest: the lowest with
    that identifier becomes ready and waits for nothing. With nobody waiting the
    unit is free again.
    */
  lemma ReleasedExactly(k: Kernel, id: int, j: nat, i: nat)
    requires FirstRes(k.res, j, id)
    ensures
      var r := k.res[j];
      var k' := ReleaseRes(k, id);
      && (r.queue == [] ==> k' == k.(res := k.res[j := r.(available := r.available + 1)]))
      && (r.queue != [] && LowestNamed(k.slots, i, r.queue[0]) ==>
            k' == k.(res := k.res[j := r.(queue := r.queue[1..])],
                     slots := k.slots[i := Some(k.slots[i].value.(state := READY, waitingResId := 0))]))
      && (r.queue != [] && NobodyNamed(k.slots, r.queue[0]) ==>
            k' == k.(res := k.res[j := r.(queue := r.queue[1..])]))
  {
    FoundRes(k.res, j, id);
    if k.res[j].queue != [] {
      NamedFound(k.slots, i, k.res[j].queue[0]);
    }
  }

  // The I/O ring

  /**
    Queueing a request. With a unit free and room in the ring, the request stands
    at the tail with one tick to go, and the process sleeps on the I/O unit. With
    the ring full the unit is given back, or handed to who waits for it without
    waking him, and nothing is queued. With no unit free the process is suspended
    and nothing is queued.
    */
  lemma QueuedExactly(k: Kernel, i: nat, j: nat, ask: Ask)
    requires Occupied(k, i) && FirstRes(k.res, j, 1) && k.ioTail < 8 && ask.serial == At(k, i).serial
    ensures
      var r := k.res[j];
      var p := At(k, i);
      var k' := EnqueueIo(k, i, ask.code, ask.r0, ask.r1, ask.r2);
      if r.available <= 0 then k' == AfterRequest(k, 1, i)
      else if (k.ioTail + 1) % 8 == k.ioHead then
        && k'.pending == k.pending && k'.ioTail == k.ioTail && k'.ioHead == k.ioHead && k'.history == k.history
        && k'.slots == k.slots[i := Some(p.(waitingResId := 0))]
        && (r.queue == [] ==> k'.res == k.res)
      else
        && k'.pending == k.pending[k.ioTail := IoRequest(Some(ask.serial), ask.code, ask.r0, ask.r1, ask.r2, 1)]
        && k'.ioTail == (k.ioTail + 1) % 8 && k'.ioHead == k.ioHead
        && k'.slots == k.slots[i := Some(p.(state := BLOCKED, waitingResId := 1))]
        && k'.res == k.res[j := r.(available := r.available - 1)]
        && k'.history == k.history.(io := k.history.io + [Accepted(ask)])
  {
    FoundRes(k.res, j, 1);
    FoundRes(AfterRequest(k, 1, i).res, j, 1);
  }

  /**
    One step of the ring: nothing when it is empty; an entry without requester or
    code is skipped; a request with ticks to go loses one and nothing else
    happens; any other leaves the ring, its entry cleared.
    */
  lemma StepsExactly(k: Kernel)
    requires k.ioHead < 8
    ensures
      var req := k.pending[k.ioHead];
      var k' := StepIo(k);
      if k.ioHead == k.ioTail then k' == k
      else if req.proc.None? || req.code == 0 then k' == k.(ioHead := (k.ioHead + 1) % 8)
      else if req.ticks > 0 then k' == k.(pending := k.pending[k.ioHead := req.(ticks := req.ticks - 1)])
      else
        && k'.ioHead == (k.ioHead + 1) % 8 && k'.ioTail == k.ioTail
        && k'.pending == k.pending[k.ioHead := req.(proc := None, code := 0)]
  {
    hide CompleteIo;
    CompletionRing(k, k.pending[k.ioHead]);
  }

  lemma CompletionRing(k: Kernel, req: IoRequest)
    ensures CompleteIo(k, req).ioTail == k.ioTail
  {
  }

  /** A request whose requester is gone, or has lost its machine, completes without any effect. */
  lemma DanglingCompletes(k: Kernel, req: IoRequest)
    requires req.proc.None? || forall j :: 0 <= j < MAX_PRIORITY && k.slots[j].Some? ==>
                                 k.slots[j].value.serial != req.proc.value || k.slots[j].value.vm.None?
    ensures CompleteIo(k, req) == k
  {
  }

  // Denials on the way to a turn

  /** Without a CPU unit the process is blocked, suspended first or not, and has no turn. */
  lemma CpuDenied(k: Kernel, i: nat, fired: bool)
    requires Occupied(k, i) && !Grants(k, RES_CPU)
    ensures
      var k' := WithCpu(k, i, fired);
      && Occupied(k', i) && At(k', i).state == BLOCKED && At(k', i).vm == At(k, i).vm && k'.current == None
      && k'.disk == k.disk && k'.cpu == k.cpu
      && forall j :: 0 <= j < MAX_PRIORITY && j != i ==> k'.slots[j] == k.slots[j]
  {
  }

  /** Without a memory unit a machine does not run: its process is blocked, its context on the processor. */
  lemma MemoryDenied(k: Kernel, i: nat)
    requires Occupied(k, i) && At(k, i).vm.Some? && !Grants(k, RES_MEM)
    ensures
      var k' := RunVm(k, i);
      && Occupied(k', i) && At(k', i).state == BLOCKED && At(k', i).vm == At(k, i).vm && k'.current == None
      && At(k', i).swapped == At(k, i).swapped && k'.disk == k.disk && k'.cpu == At(k, i).context
      && forall j :: 0 <= j < MAX_PRIORITY && j != i ==> k'.slots[j] == k.slots[j]
  {
  }

  /** Without a memory unit a loader is blocked and loads nothing. */
  lemma LoadDenied(k: Kernel, i: nat, j: nat)
    requires Occupied(k, i) && Occupied(k, j) && i != j && At(k, j).vm.Some? && !Grants(k, RES_MEM)
    ensures
      var r := LoadFor(k, i, j);
      && r.rc == 0 && Occupied(r.k, i) && At(r.k, i).state == BLOCKED && r.k.disk == k.disk
      && forall w :: 0 <= w < MAX_PRIORITY && w != i ==> r.k.slots[w] == k.slots[w]
  {
  }

  // Loading

  /** The parent with what could be loaded; exactly on success it is ready and loaded. */
  function Filled(k: Kernel, p: Process, fileId: Word): Process
    requires p.vm.Some?
  {
    var q := p.(vm := Some(LoadFile(p.vm.value, k.disk, k.files, fileId)));
    if LoadSucceeds(k.disk, k.files, fileId) then q.(state := READY, loaded := LOADED) else q
  }

  /**
    A loader with a memory unit loads for the lowest process that has its parent's
    identifier. That one is filled, the unit is back, and nobody else changes.
    */
  lemma LoadedExactly(k: Kernel, i: nat, j: nat, m: nat)
    requires Occupied(k, i) && i != j && LowestNamed(k.slots, j, At(k, i).parentPid) && At(k, j).vm.Some?
    requires FirstRes(k.res, m, 2) && k.res[m].available > 0 && k.res[m].queue == []
    ensures
      var r := RunLoader(k, i);
      && r.rc == 0 && r.k.res == k.res && r.k.disk == k.disk && r.k.current == k.current
      && r.k.slots == k.slots[i := Some(At(k, i).(waitingResId := 0))]
                             [j := Some(Filled(k, At(k, j), At(k, i).fileId))]
  {
    hide LoadFor, LowestNamed;
    NamedFound(k.slots, j, At(k, i).parentPid);
    LoadedFor(k, i, j, m);
  }

  lemma LoadedFor(k: Kernel, i: nat, j: nat, m: nat)
    requires Occupied(k, i) && i != j && LowestNamed(k.slots, j, At(k, i).parentPid) && At(k, j).vm.Some?
    requires FirstRes(k.res, m, 2) && k.res[m].available > 0 && k.res[m].queue == []
    ensures
      var r := LoadFor(k, i, j);
      && r.rc == 0 && r.k.res == k.res && r.k.disk == k.disk && r.k.current == k.current
      && r.k.slots == k.slots[i := Some(At(k, i).(waitingResId := 0))]
                             [j := Some(Filled(k, At(k, j), At(k, i).fileId))]
  {
    hide AfterRequest, ReleaseRes, LoadInto, LoadFile, LoadSucceeds, LowestNamed, FirstRes;
    Taken(k, i, m);
    var k1 := AfterRequest(k, 2, i);
    StillLowest(k, k1, i, j);
    FilledFirst(k1, j, At(k, i).fileId);
    GivenBack(k, LoadInto(k1, j, At(k, i).fileId), m);
  }

  lemma Taken(k: Kernel, i: nat, m: nat)
    requires Occupied(k, i) && FirstRes(k.res, m, 2) && k.res[m].available > 0
    ensures
      && Grants(k, 2)
      && AfterRequest(k, 2, i) ==
         k.(res := k.res[m := k.res[m].(available := k.res[m].available - 1)],
            slots := k.slots[i := Some(At(k, i).(waitingResId := 0))])
  {
    RequestedExactly(k, 2, i, m);
  }

  lemma GivenBack(k: Kernel, k2: Kernel, m: nat)
    requires FirstRes(k.res, m, 2) && k.res[m].queue == []
    requires k2.res == k.res[m := k.res[m].(available := k.res[m].available - 1)]
    ensures ReleaseRes(k2, 2) == k2.(res := k.res)
  {
    hide ReleaseRes;
    ReleasedExactly(k2, 2, m, 0);
    assert k.res[m := k.res[m]] == k.res;
  }

  lemma StillLowest(k: Kernel, k1: Kernel, i: nat, j: nat)
    requires Occupied(k, i) && LowestNamed(k.slots, j, At(k, i).parentPid)
    requires k1.slots == k.slots[i := Some(At(k, i).(waitingResId := 0))]
    ensures LowestNamed(k1.slots, j, At(k, i).parentPid)
  {
  }

  lemma FilledFirst(k: Kernel, j: nat, fileId: Word)
    requires Occupied(k, j) && LowestNamed(k.slots, j, At(k, j).pid) && At(k, j).vm.Some?
    ensures
      var q := At(k, j).(vm := Some(LoadFile(At(k, j).vm.value, k.disk, k.files, fileId)));
      LoadInto(k, j, fileId) ==
      k.(slots := k.slots[j := Some(if LoadSucceeds(k.disk, k.files, fileId) then q.(state := READY) else q)])
  {
    hide UnblockProcess, LoadFile, LoadSucceeds;
    var k1 := Put(k, j, At(k, j).(vm := Some(LoadFile(At(k, j).vm.value, k.disk, k.files, fileId))));
    UnblockedExactly(k1, At(k, j).pid, j);
  }

  // What the operations reach at all

  lemma RequestTouches(k: Kernel, id: int, i: nat)
    requires Occupied(k, i)
    ensures
      var k' := AfterRequest(k, id, i);
      k' == k.(res := k'.res, slots := k'.slots, history := k'.history)
  {
  }

  lemma ReleaseTouches(k: Kernel, id: int)
    ensures
      var k' := ReleaseRes(k, id);
      k' == k.(res := k'.res, slots := k'.slots)
  {
  }

  lemma RemovalTouches(k: Kernel, pid: Byte)
    ensures RemoveProc(k, pid) == k.(slots := RemoveProc(k, pid).slots)
  {
  }

  lemma QueueTouches(k: Kernel, i: nat, code: Word, r0: Word, r1: Word, r2: Word)
    requires Occupied(k, i)
    ensures
      var k' := EnqueueIo(k, i, code, r0, r1, r2);
      k' == k.(res := k'.res, slots := k'.slots, pending := k'.pending, ioTail := k'.ioTail, history := k'.history)
  {
    hide AfterRequest;
    RequestTouches(k, RES_IO, i);
  }
}
