/**
  What the invariant means for resources and I/O over whole runs: units always
  come back, one request is in flight, it is consumed on time, and completing it
  moves exactly the bytes that were asked for.
  */
module IoSafety {
  import opened Words
  import opened Isa
  import opened Disk
  import opened VirtualMachine
  import opened Loader
  import opened DiskTraffic
  import opened Resources
  import opened KernelModel
  import opened KernelInvariant
  import opened KernelSafety

  /**
    In every reachable state the memory resource has two units, the CPU and the
    timer one each, nobody waits for them, and no request for any of the three
    was ever denied.
    */
  lemma UnitsAlwaysBack(storage: Storage, files: seq<FileEntry>, acts: seq<Action>)
    ensures
      var k := Run(Boot(storage, files), acts);
      && |k.res| == 4
      && k.res[1] == Resource(RES_MEM, 2, []) && k.res[2] == Resource(RES_CPU, 1, [])
      && k.res[3] == Resource(RES_TMR, 1, [])
      && Grants(k, RES_MEM) && Grants(k, RES_CPU) && Grants(k, RES_TMR)
      && forall id :: id in k.history.denied ==> id == RES_IO
  {
    Reachable(storage, files, acts);
    FindCore(Run(Boot(storage, files), acts).res, 2, 1, 1);
  }

  /** In every reachable state at most one I/O request is in flight, and the ring is never full. */
  lemma OneInFlight(storage: Storage, files: seq<FileEntry>, acts: seq<Action>)
    ensures
      var k := Run(Boot(storage, files), acts);
      && k.ioHead < RING_SIZE && k.ioTail < RING_SIZE
      && |k.res| == 4 && k.res[0].available + InFlight(k.ioHead, k.ioTail) <= 1
      && (Grants(k, RES_IO) ==> AcceptsIo(k))
      && IoPhaseOf(k.history.io) !in {IoBroken} && !IoPhaseOf(k.history.io).IoDue?
  {
    Reachable(storage, files, acts);
    var k := Run(Boot(storage, files), acts);
    FindCore(k.res, 2, 1, 1);
  }

  // Timeliness, in terms of the events alone

  lemma BrokenStaysBroken(h: seq<IoEvent>, m: nat)
    requires m <= |h| && IoPhaseOf(h) != IoBroken
    ensures IoPhaseOf(h[..m]) != IoBroken
    decreases |h|
  {
    if m < |h| {
      assert h[..|h| - 1][..m] == h[..m];
      BrokenStaysBroken(h[..|h| - 1], m);
    } else {
      assert h[..m] == h;
    }
  }

  lemma PhaseAt(h: seq<IoEvent>, a: nat)
    requires a < |h| && IoPhaseOf(h) != IoBroken
    ensures IoPhaseOf(h[..a + 1]) == IoNext(IoPhaseOf(h[..a]), h[a]) != IoBroken
  {
    assert h[..a + 1][..a] == h[..a];
    BrokenStaysBroken(h, a + 1);
  }

  /**
    Timeliness: after an accepted request the next two I/O events are handler
    steps, and the second one consumes that very request at once. Only a history
    that ends in between escapes.
    */
  lemma ConsumedOnSecondStep(h: seq<IoEvent>, a: nat)
    requires a < |h| && h[a].Accepted? && IoPhaseOf(h) != IoBroken && !IoPhaseOf(h).IoDue?
    ensures a + 1 < |h| ==> h[a + 1] == HandlerStep
    ensures a + 2 < |h| ==> h[a + 2] == HandlerStep && a + 3 < |h| && h[a + 3] == Consumed(h[a].ask)
  {
    PhaseAt(h, a);
    if a + 1 < |h| {
      PhaseAt(h, a + 1);
    }
    if a + 2 < |h| {
      PhaseAt(h, a + 2);
      assert h[..|h|] == h;
    }
    if a + 3 < |h| {
      PhaseAt(h, a + 3);
    }
  }

  /** Consumption never happens out of the blue: two handler steps and the acceptance precede it. */
  lemma ConsumedWasAccepted(h: seq<IoEvent>, c: nat)
    requires c < |h| && h[c].Consumed? && IoPhaseOf(h) != IoBroken
    ensures c >= 3 && h[c - 3] == Accepted(h[c].ask) && h[c - 2] == HandlerStep && h[c - 1] == HandlerStep
  {
    PhaseAt(h, c);
    assert IoPhaseOf(h[..c]).IoDue?;
    if c >= 1 {
      PhaseAt(h, c - 1);
    }
    if c >= 2 {
      PhaseAt(h, c - 2);
    }
    if c >= 3 {
      PhaseAt(h, c - 3);
    }
  }

  /** In every run a request accepted is consumed by the second handler step after it, and no other ever is. */
  lemma RequestsOfRuns(storage: Storage, files: seq<FileEntry>, acts: seq<Action>, a: nat)
    requires a < |Run(Boot(storage, files), acts).history.io|
    ensures
      var h := Run(Boot(storage, files), acts).history.io;
      && (h[a].Accepted? && a + 2 < |h| ==>
            a + 3 < |h| && h[a + 1] == HandlerStep && h[a + 2] == HandlerStep && h[a + 3] == Consumed(h[a].ask))
      && (h[a].Consumed? ==>
            a >= 3 && h[a - 3] == Accepted(h[a].ask) && h[a - 2] == HandlerStep && h[a - 1] == HandlerStep)
  {
    OneInFlight(storage, files, acts);
    var h := Run(Boot(storage, files), acts).history.io;
    if h[a].Accepted? {
      ConsumedOnSecondStep(h, a);
    } else if h[a].Consumed? {
      ConsumedWasAccepted(h, a);
    }
  }

  // What a completed request does

  /** The memory of a machine after its request is served from, or to, the given disk. */
  predicate Served(before: VmMemory, after: VmMemory, req: IoRequest, d: DiskState, d': DiskState) {
    var n := Min(2 * req.r2 as int, SECTOR_SIZE);
    if req.code == SI_READ && Ready(d, req.r0) then
      && d' == d && req.r1 + n <= VM_MEMORY_SIZE
      && (forall b :: 0 <= b < n ==> after[req.r1 + b] == d.storage[req.r0][b])
      && (forall b :: 0 <= b < VM_MEMORY_SIZE && !(req.r1 <= b < req.r1 + n) ==> after[b] == before[b])
    else if req.code == SI_WRITE && Ready(d, req.r0) then
      && after == before && req.r1 + n <= VM_MEMORY_SIZE
      && d'.storage == d.storage[req.r0 := Padded(before[req.r1..req.r1 + n])]
    else after == before && d' == d
  }

  lemma ReadServes(mem: VmMemory, req: IoRequest, d: DiskState)
    requires req.code == SI_READ && TransferInBounds(req.r1, req.r2)
    ensures Served(mem, ReadTransfer(mem, d, req.r0, req.r1, req.r2), req, d, d)
  {
    ReadChangesExactly(mem, d, req.r0, req.r1, req.r2);
  }

  lemma WriteSends(d: DiskState, mem: VmMemory, sector: Word, a: Word, words: Word)
    requires TransferInBounds(a, words)
    ensures
      var n := Min(2 * words as int, SECTOR_SIZE);
      && a + n <= VM_MEMORY_SIZE
      && WriteTransfer(d, mem, sector, a, words) == WriteSector(d, sector, Padded(mem[a..a + n]))
  {
    ClampNeverFires(a, words);
  }

  lemma WriteServes(mem: VmMemory, req: IoRequest, d: DiskState)
    requires req.code == SI_WRITE && TransferInBounds(req.r1, req.r2)
    ensures Served(mem, mem, req, d, WriteTransfer(d, mem, req.r0, req.r1, req.r2))
  {
    WriteSends(d, mem, req.r0, req.r1, req.r2);
  }

  /** For a request the ring can hold, the transfer serves exactly what was asked for, for that machine only. */
  lemma TransferServes(k: Kernel, i: nat, req: IoRequest)
    requires Occupied(k, i) && At(k, i).vm.Some? && RequestOk(req)
    ensures
      var k' := Transfer(k, i, req);
      && Occupied(k', i) && At(k', i).vm.Some?
      && Served(At(k, i).vm.value.memory, At(k', i).vm.value.memory, req, k.disk, k'.disk)
      && At(k', i).vm.value == At(k, i).vm.value.(memory := At(k', i).vm.value.memory)
      && forall j :: 0 <= j < MAX_PRIORITY && j != i ==> k'.slots[j] == k.slots[j]
  {
    var mem := At(k, i).vm.value.memory;
    if req.code == SI_READ {
      ReadServes(mem, req, k.disk);
    } else if req.code == SI_WRITE {
      WriteServes(mem, req, k.disk);
    }
  }

  /** Waking a waiter changes no machine. */
  lemma ReleaseKeepsMachines(k: Kernel, id: int)
    ensures
      var k' := ReleaseRes(k, id);
      && k'.disk == k.disk
      && forall j :: 0 <= j < MAX_PRIORITY ==>
           && (k'.slots[j].Some? <==> k.slots[j].Some?)
           && (k.slots[j].Some? ==> At(k', j).vm == At(k, j).vm && At(k', j).serial == At(k, j).serial)
  {
  }

  /**
    Trap to completion: in every reachable state, when the handler completes the
    request in flight, READ changes exactly the requested bytes of the requester
    and WRITE exactly the one sector, no clamp fires, the requester is ready
    again, and every other machine is untouched.
    */
  lemma CompletionServes(k: Kernel, i: nat, mem: int, cpu: int, tmr: int)
    requires Good(k, mem, cpu, tmr) && k.ioHead != k.ioTail
    requires Requester(k, k.pending[k.ioHead]) == Some(i)
    ensures
      var req := k.pending[k.ioHead];
      var k' := CompleteIo(k, req);
      && Occupied(k', i) && At(k', i).vm.Some? && At(k', i).state == READY
      && Served(At(k, i).vm.value.memory, At(k', i).vm.value.memory, req, k.disk, k'.disk)
      && (forall j :: 0 <= j < MAX_PRIORITY && j != i && k.slots[j].Some? ==>
            Occupied(k', j) && At(k', j).vm == At(k, j).vm)
  {
    var req := k.pending[k.ioHead];
    TransferServes(k, i, req);
    ReleaseKeepsMachines(Transfer(k, i, req), RES_IO);
  }

  /** The bound a READ or WRITE passed when it trapped still holds when it is completed. */
  lemma BoundsSurvive(storage: Storage, files: seq<FileEntry>, acts: seq<Action>)
    ensures
      var k := Run(Boot(storage, files), acts);
      k.ioHead < RING_SIZE && k.ioTail < RING_SIZE &&
      (k.ioHead != k.ioTail ==>
         var req := k.pending[k.ioHead];
         && req.proc.Some? && req.code in {SI_READ, SI_WRITE, SI_SYS}
         && (req.code != SI_SYS ==> TransferInBounds(req.r1, req.r2)))
  {
    Reachable(storage, files, acts);
  }
}
