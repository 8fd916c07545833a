/**
  The handshake between job governors and loaders, as an automaton over the
  recorded events, kept by every dispatch as long as pids have not wrapped.
  */
module GovernorProtocol {
  import opened Words
  import opened Disk
  import opened VirtualMachine
  import opened Loader
  import opened KernelModel
  import opened KernelInvariant
  import opened KernelSafety
  import opened Frames

  /** With this many additions the 8-bit pid has reached 255 and the next one would wrap. */
  const MAX_ADDS := 158

  // The life of one governor

  datatype GovernorPhase = GovFresh | GovRequested | GovLoaded | GovDone | GovBroken

  /** One load is requested, the image arrives once, the machine runs only then, and the end is the end. */
  function GovernorNext(ph: GovernorPhase, e: GovernorEvent): GovernorPhase {
    match (ph, e)
    case (GovFresh, LoadRequested(_)) => GovRequested
    case (GovRequested, ImageLoaded(_)) => GovLoaded
    case (GovLoaded, VmRan(_)) => GovLoaded
    case (GovLoaded, Finished(_)) => GovDone
    case _ => GovBroken
  }

  /** The phase the recorded events give the governor with serial number `n`. */
  function PhaseOf(h: seq<GovernorEvent>, n: nat): GovernorPhase {
    if h == [] then GovFresh
    else
      var ph := PhaseOf(h[..|h| - 1], n);
      if h[|h| - 1].serial == n then GovernorNext(ph, h[|h| - 1]) else ph
  }

  lemma PhaseStep(h: seq<GovernorEvent>, e: GovernorEvent, n: nat)
    ensures PhaseOf(h + [e], n) == if e.serial == n then GovernorNext(PhaseOf(h, n), e) else PhaseOf(h, n)
  {
    assert (h + [e])[..|h|] == h;
  }

  predicate IsGovernor(p: Process) {
    p.procType == JOB_GOVERNOR && p.hasEntry
  }

  predicate IsLoader(p: Process) {
    p.procType == LOADER && p.hasEntry
  }

  /** The phase that matches a governor's `loaded` field. */
  function PhaseFor(loaded: Byte): GovernorPhase {
    if loaded == NOT_REQUESTED then GovFresh
    else if loaded == LOADING then GovRequested
    else if loaded == LOADED then GovLoaded
    else GovBroken
  }

  // The invariant

  /** The recorded events are a legal life for every serial number, and no life has begun for an unborn one. */
  ghost predicate LivesOk(h: seq<GovernorEvent>, added: nat) {
    && (forall n: nat :: PhaseOf(h, n) != GovBroken)
    && (forall n: nat :: n > added ==> PhaseOf(h, n) == GovFresh)
  }

  /** A live governor is where its `loaded` field says. */
  predicate GovernorsOk(s: Slots, h: seq<GovernorEvent>) {
    forall i :: 0 <= i < MAX_PRIORITY && s[i].Some? && IsGovernor(s[i].value) ==>
                  PhaseOf(h, s[i].value.serial) == PhaseFor(s[i].value.loaded)
  }

  predicate LoaderFits(l: Process, p: Process) {
    l.parentPid == p.pid ==> IsGovernor(p) && p.loaded == LOADING
  }

  /** The process a loader works for, if alive, is a governor that is waiting for its image. */
  predicate LoadersOk(s: Slots) {
    forall i, j :: 0 <= i < MAX_PRIORITY && 0 <= j < MAX_PRIORITY
                   && s[i].Some? && s[j].Some? && IsLoader(s[i].value) ==>
                     LoaderFits(s[i].value, s[j].value)
  }

  /** A loader made by a governor carries that governor's pid, and no other loader does. */
  predicate LoadersDistinct(s: Slots, added: nat) {
    && (forall i :: 0 <= i < MAX_PRIORITY && s[i].Some? && IsLoader(s[i].value) ==>
          s[i].value.parentPid == 0 || s[i].value.parentPid <= 97 + added)
    && (forall i, j :: 0 <= i < j < MAX_PRIORITY && s[i].Some? && s[j].Some?
                       && IsLoader(s[i].value) && IsLoader(s[j].value) ==>
          s[i].value.parentPid == 0 || s[i].value.parentPid != s[j].value.parentPid)
  }

  ghost predicate HandshakeOk(k: Kernel) {
    && LivesOk(k.history.governors, k.added)
    && GovernorsOk(k.slots, k.history.governors)
    && LoadersOk(k.slots) && LoadersDistinct(k.slots, k.added)
  }

  /** Until it wraps, a pid names one process. */
  lemma PidsDistinct(k: Kernel, i: nat, j: nat)
    requires TableOk(k.slots, k.prioMin, k.prioMax, k.lastPid, k.added) && k.added <= MAX_ADDS
    requires Occupied(k, i) && Occupied(k, j)
    ensures At(k, i).pid == 97 + At(k, i).serial
    ensures At(k, i).pid == At(k, j).pid ==> i == j
  {
    assert ProcessOk(i, At(k, i), k.prioMin, k.added) && ProcessOk(j, At(k, j), k.prioMin, k.added);
    if i != j {
      assert k.slots[Min(i, j)].value.serial != k.slots[i + j - Min(i, j)].value.serial;
    }
  }

  // Keeping it

  lemma SteadyKeepsHandshake(k: Kernel, k': Kernel)
    requires HandshakeOk(k) && Steady(k.slots, k'.slots)
    requires k'.added == k.added && k'.history.governors == k.history.governors
    ensures HandshakeOk(k')
  {
  }

  lemma FreshProcessGovernors(s: Slots, i: nat, p: Process, h: seq<GovernorEvent>, added: nat)
    requires GovernorsOk(s, h) && LivesOk(h, added)
    requires i < MAX_PRIORITY && p.serial == added + 1 && p.loaded == NOT_REQUESTED
    ensures GovernorsOk(s[i := Some(p)], h)
  {
  }

  /** A process created from outside names no parent, so it joins no handshake. */
  lemma FreshProcessLoaders(s: Slots, i: nat, p: Process, prioMin: int, prioMax: int, lastPid: Byte, added: nat)
    requires TableOk(s, prioMin, prioMax, lastPid, added) && added + 1 <= MAX_ADDS
    requires LoadersOk(s) && LoadersDistinct(s, added)
    requires i < MAX_PRIORITY && s[i].None? && p.pid == 97 + added + 1 && p.parentPid == 0
    ensures LoadersOk(s[i := Some(p)]) && LoadersDistinct(s[i := Some(p)], added + 1)
  {
    forall j | 0 <= j < MAX_PRIORITY && s[j].Some?
      ensures s[j].value.pid != 0 && (IsLoader(s[j].value) ==> s[j].value.parentPid != p.pid)
    {
      assert ProcessOk(j, s[j].value, prioMin, added);
    }
  }

  lemma LivesLater(h: seq<GovernorEvent>, added: nat)
    requires LivesOk(h, added)
    ensures LivesOk(h, added + 1)
  {
  }

  /** What creating a process does to the table and the record. */
  lemma AddShape(k: Kernel, n: NewProcess)
    requires Resting(k) && k.added + 1 <= MAX_ADDS
    ensures
      var k' := AddProc(k, n);
      var place := PlaceFor(k, n.sysProc);
      && k'.added == k.added + 1 && k'.history == k.history
      && (place.None? ==> k'.slots == k.slots)
      && (place.Some? ==>
            && place.value < MAX_PRIORITY && k.slots[place.value].None? && k'.slots[place.value].Some?
            && var p := k'.slots[place.value].value;
            && k'.slots == k.slots[place.value := Some(p)] && p.serial == k.added + 1 && p.pid == 97 + k.added + 1
            && p.loaded == NOT_REQUESTED && p.parentPid == n.parentPid)
  {
    hide Good, HighestSlot;
    TableBounds(k, 2, 1, 1);
  }

  lemma AddKeepsHandshake(k: Kernel, n: NewProcess)
    requires Resting(k) && HandshakeOk(k) && n.parentPid == 0 && k.added + 1 <= MAX_ADDS
    ensures HandshakeOk(AddProc(k, n))
  {
    hide LivesOk, LoadersOk, LoadersDistinct, GovernorsOk, TableOk, PlaceFor, AddProc;
    AddShape(k, n);
    LivesLater(k.history.governors, k.added);
    var place := PlaceFor(k, n.sysProc);
    if place.Some? {
      var p := At(AddProc(k, n), place.value);
      FreshProcessGovernors(k.slots, place.value, p, k.history.governors, k.added);
      FreshProcessLoaders(k.slots, place.value, p, k.prioMin, k.prioMax, k.lastPid, k.added);
    } else {
      DistinctLater(k.slots, k.added);
    }
  }

  lemma DistinctLater(s: Slots, added: nat)
    requires LoadersDistinct(s, added)
    ensures LoadersDistinct(s, added + 1)
  {
  }

  // A governor's turn

  /** Moving one governor along its life together with its event. */
  lemma LifeMovesOn(s: Slots, i: nat, p: Process, h: seq<GovernorEvent>, e: GovernorEvent, added: nat)
    requires i < MAX_PRIORITY && s[i].Some? && IsGovernor(s[i].value) && SameIdentity(s[i].value, p)
    requires LivesOk(h, added) && GovernorsOk(s, h) && e.serial == p.serial <= added
    requires GovernorNext(PhaseFor(s[i].value.loaded), e) == PhaseFor(p.loaded) != GovBroken
    requires forall j :: 0 <= j < MAX_PRIORITY && j != i && s[j].Some? ==> s[j].value.serial != p.serial
    ensures LivesOk(h + [e], added) && GovernorsOk(s[i := Some(p)], h + [e])
  {
    forall n: nat
      ensures PhaseOf(h + [e], n) != GovBroken && (n > added ==> PhaseOf(h + [e], n) == GovFresh)
      ensures n != p.serial ==> PhaseOf(h + [e], n) == PhaseOf(h, n)
      ensures n == p.serial ==> PhaseOf(h + [e], n) == PhaseFor(p.loaded)
    {
      PhaseStep(h, e, n);
    }
  }

  /** The end of a life, when the governor has left the table. */
  lemma LifeEnds(s: Slots, i: nat, h: seq<GovernorEvent>, e: GovernorEvent, added: nat)
    requires i < MAX_PRIORITY && s[i].Some? && IsGovernor(s[i].value) && s[i].value.loaded == LOADED
    requires LivesOk(h, added) && GovernorsOk(s, h) && e == Finished(s[i].value.serial) && s[i].value.serial <= added
    requires forall j :: 0 <= j < MAX_PRIORITY && j != i && s[j].Some? ==> s[j].value.serial != s[i].value.serial
    ensures LivesOk(h + [e], added) && GovernorsOk(s[i := None], h + [e])
  {
    forall n: nat
      ensures PhaseOf(h + [e], n) != GovBroken && (n > added ==> PhaseOf(h + [e], n) == GovFresh)
      ensures n != e.serial ==> PhaseOf(h + [e], n) == PhaseOf(h, n)
    {
      PhaseStep(h, e, n);
    }
  }

  /** Nobody else has the governor's pid or works for it, and nobody works for the new loader's pid. */
  predicate NewPair(s: Slots, i: nat, g: Process, added: nat) {
    forall j :: 0 <= j < MAX_PRIORITY && s[j].Some? ==>
      && s[j].value.pid <= 97 + added && s[j].value.pid != 0
      && (j != i ==> s[j].value.pid != g.pid)
      && (IsLoader(s[j].value) ==> s[j].value.parentPid != g.pid && s[j].value.parentPid != 97 + added + 1)
  }

  lemma PairIsNew(s: Slots, i: nat, g: Process, prioMin: int, prioMax: int, lastPid: Byte, added: nat)
    requires TableOk(s, prioMin, prioMax, lastPid, added) && added + 1 <= MAX_ADDS
    requires LoadersOk(s) && LoadersDistinct(s, added)
    requires i < MAX_PRIORITY && s[i].Some? && SameIdentity(s[i].value, g)
    requires IsGovernor(g) && s[i].value.loaded == NOT_REQUESTED
    ensures NewPair(s, i, g, added)
  {
    forall j | 0 <= j < MAX_PRIORITY && s[j].Some?
      ensures s[j].value.pid <= 97 + added && s[j].value.pid != 0
      ensures j != i ==> s[j].value.pid != g.pid
      ensures IsLoader(s[j].value) ==> s[j].value.parentPid != g.pid && s[j].value.parentPid != 97 + added + 1
    {
      assert ProcessOk(j, s[j].value, prioMin, added) && ProcessOk(i, s[i].value, prioMin, added);
      if j != i {
        assert s[Min(i, j)].value.serial != s[i + j - Min(i, j)].value.serial;
      }
      if IsLoader(s[j].value) {
        assert LoaderFits(s[j].value, s[i].value);
      }
    }
  }

  /** A loader, placed or not, and its governor enter the handshake together. */
  lemma LoaderJoins(s: Slots, i: nat, g: Process, place: Option<nat>, l: Process,
                    prioMin: int, prioMax: int, lastPid: Byte, added: nat)
    requires TableOk(s, prioMin, prioMax, lastPid, added) && added + 1 <= MAX_ADDS
    requires LoadersOk(s) && LoadersDistinct(s, added)
    requires i < MAX_PRIORITY && s[i].Some? && SameIdentity(s[i].value, g)
    requires IsGovernor(g) && s[i].value.loaded == NOT_REQUESTED && g.loaded == LOADING
    requires place.Some? ==> place.value < MAX_PRIORITY && s[place.value].None?
    requires IsLoader(l) && l.pid == 97 + added + 1 && l.parentPid == g.pid
    ensures
      var s' := if place.None? then s else s[place.value := Some(l)];
      LoadersOk(s'[i := Some(g)]) && LoadersDistinct(s'[i := Some(g)], added + 1)
  {
    PairIsNew(s, i, g, prioMin, prioMax, lastPid, added);
    PairFits(s, i, g, place, l, added);
    PairDistinct(s, i, g, place, l, added);
  }

  lemma PairFits(s: Slots, i: nat, g: Process, place: Option<nat>, l: Process, added: nat)
    requires LoadersOk(s) && NewPair(s, i, g, added) && i < MAX_PRIORITY && s[i].Some? && IsGovernor(g)
    requires SameIdentity(s[i].value, g) && g.loaded == LOADING && g.pid != l.pid
    requires place.Some? ==> place.value < MAX_PRIORITY && s[place.value].None?
    requires IsLoader(l) && l.pid == 97 + added + 1 && l.parentPid == g.pid
    ensures
      var s' := if place.None? then s else s[place.value := Some(l)];
      LoadersOk(s'[i := Some(g)])
  {
  }

  lemma PairDistinct(s: Slots, i: nat, g: Process, place: Option<nat>, l: Process, added: nat)
    requires LoadersDistinct(s, added) && NewPair(s, i, g, added) && i < MAX_PRIORITY && s[i].Some? && IsGovernor(g)
    requires SameIdentity(s[i].value, g)
    requires place.Some? ==> place.value < MAX_PRIORITY && s[place.value].None?
    requires IsLoader(l) && l.parentPid == g.pid
    ensures
      var s' := if place.None? then s else s[place.value := Some(l)];
      LoadersDistinct(s'[i := Some(g)], added + 1)
  {
  }

  /** Removal by pid passes a process by: its pid is 0, or a lower slot has the same pid. */
  predicate RemovalMisses(k: Kernel, i: nat)
    requires Occupied(k, i)
  {
    At(k, i).pid == 0 || exists j :: 0 <= j < i && HasPid(At(k, i).pid)(k.slots[j])
  }

  /** Removing a process by its pid removes that process and no other exactly when removal does not pass it by. */
  lemma RemovesExactly(k: Kernel, i: nat)
    requires Occupied(k, i)
    ensures RemoveProc(k, At(k, i).pid) == Clear(k, i) <==> !RemovalMisses(k, i)
    ensures RemovalMisses(k, i) ==> RemoveProc(k, At(k, i).pid).slots[i] == k.slots[i]
  {
    var found := LowestSlot(k.slots, HasPid(At(k, i).pid));
    assert HasPid(At(k, i).pid)(k.slots[i]);
    assert Clear(k, i).slots[i] == None;
  }

  /** Until pids wrap, removal passes nobody by. */
  lemma RemovesWhileDistinct(k: Kernel, i: nat, mem: int, cpu: int, tmr: int)
    requires Good(k, mem, cpu, tmr) && k.added <= MAX_ADDS && Occupied(k, i)
    ensures !RemovalMisses(k, i) && RemoveProc(k, At(k, i).pid) == Clear(k, i)
  {
    PidsDistinct(k, i, i);
    forall j | 0 <= j < i && HasPid(At(k, i).pid)(k.slots[j])
      ensures false
    {
      PidsDistinct(k, i, j);
    }
    RemovesExactly(k, i);
  }

  /** In a well-formed table all other processes have other serial numbers. */
  lemma SerialUnique(k: Kernel, i: nat)
    requires TableOk(k.slots, k.prioMin, k.prioMax, k.lastPid, k.added) && Occupied(k, i)
    ensures At(k, i).serial <= k.added
    ensures forall j :: 0 <= j < MAX_PRIORITY && j != i && k.slots[j].Some? ==>
                          k.slots[j].value.serial != At(k, i).serial
  {
    assert ProcessOk(i, At(k, i), k.prioMin, k.added);
    forall j | 0 <= j < MAX_PRIORITY && j != i && k.slots[j].Some?
      ensures k.slots[j].value.serial != At(k, i).serial
    {
      assert k.slots[Min(i, j)].value.serial != k.slots[i + j - Min(i, j)].value.serial;
    }
  }

  /** The loader a governor creates, as it appears in the table. */
  function LoaderProcess(k: Kernel, p: Process): Process {
    Process(k.added + 1, Wrap8(k.lastPid + 1), true, LOADER, true, READY, ZERO_CPU, None, p.fileId, p.pid,
            NOT_REQUESTED, 0, false, 0)
  }

  /** The table once the loader is placed, or as it was when there is no place. */
  function WithLoader(k: Kernel, p: Process): Slots {
    var place := PlaceFor(k, true);
    if place.None? then k.slots else k.slots[place.value := Some(LoaderProcess(k, p))]
  }

  lemma RequestShape(k: Kernel, i: nat)
    requires Good(k, 2, 0, 1) && Occupied(k, i)
    requires At(k, i).vm.Some? && At(k, i).loaded == NOT_REQUESTED
    ensures
      var k' := JobGovernor(k, i).k;
      var p := At(k, i);
      && k'.slots == WithLoader(k, p)[i := Some(p.(loaded := LOADING, state := BLOCKED))]
      && k'.added == k.added + 1
      && k'.history.governors == k.history.governors + [LoadRequested(p.serial)]
  {
  }

  lemma WithLoaderFacts(k: Kernel, i: nat)
    requires Good(k, 2, 0, 1) && Occupied(k, i) && GovernorsOk(k.slots, k.history.governors)
    ensures
      var s := WithLoader(k, At(k, i));
      && s[i] == k.slots[i]
      && GovernorsOk(s, k.history.governors)
      && forall j :: 0 <= j < MAX_PRIORITY && j != i && s[j].Some? ==> s[j].value.serial != At(k, i).serial
  {
    SerialUnique(k, i);
  }

  lemma LoaderPid(added: nat)
    requires added + 1 <= MAX_ADDS
    ensures Wrap8(Wrap8(97 + added) + 1) == 97 + added + 1
  {
  }

  lemma RequestLoadHandshake(k: Kernel, i: nat)
    requires Good(k, 2, 0, 1) && Occupied(k, i) && HandshakeOk(k) && k.added + 1 <= MAX_ADDS
    requires IsGovernor(At(k, i)) && At(k, i).vm.Some? && At(k, i).loaded == NOT_REQUESTED
    ensures HandshakeOk(JobGovernor(k, i).k)
  {
    hide JobGovernor, LivesOk, GovernorsOk, LoadersOk, LoadersDistinct, TableOk, HighestSlot;
    TableBounds(k, 2, 0, 1);
    LoaderPid(k.added);
    assert At(k, i).serial <= k.added by { SerialUnique(k, i); }
    var p := At(k, i);
    var h := k.history.governors;
    var g := p.(loaded := LOADING, state := BLOCKED);
    SerialUnique(k, i);
    LivesLater(h, k.added);
    WithLoaderFacts(k, i);
    LifeMovesOn(WithLoader(k, p), i, g, h, LoadRequested(p.serial), k.added + 1);
    LoaderJoins(k.slots, i, g, PlaceFor(k, true), LoaderProcess(k, p), k.prioMin, k.prioMax, k.lastPid, k.added);
    RequestShape(k, i);
  }

  lemma TrapHandshake(k: Kernel, i: nat)
    requires Good(k, 2, 0, 1) && Occupied(k, i) && HandshakeOk(k)
    requires IsGovernor(At(k, i)) && At(k, i).vm.Some? && At(k, i).loaded == LOADED
    requires RunOperations(At(k, i).vm.value).rc == RC_TRAPPED
    ensures HandshakeOk(RunGovernorVm(k, i).k)
  {
    hide RunOperations;
    var p := At(k, i);
    var o := RunOperations(p.vm.value).vm;
    var k1 := Put(Log(k, VmRan(p.serial)), i, p.(vm := Some(o)));
    SerialUnique(k, i);
    LifeMovesOn(k.slots, i, p.(vm := Some(o)), k.history.governors, VmRan(p.serial), k.added);
    assert Steady(k.slots, k1.slots);
    assert HandshakeOk(k1);
    RequestKeepsHandshake(k1, i, o);
  }

  lemma RequestKeepsHandshake(k: Kernel, i: nat, o: Vm)
    requires Occupied(k, i) && HandshakeOk(k)
    ensures
      var k' := EnqueueIo(k, i, o.trapCode, o.trapR0, o.trapR1, o.trapR2);
      Occupied(k', i) && HandshakeOk(BlockGovernor(k', i))
  {
    var k' := EnqueueIo(k, i, o.trapCode, o.trapR0, o.trapR1, o.trapR2);
    EnqueueIoFrame(k, i, o.trapCode, o.trapR0, o.trapR1, o.trapR2);
    SteadyKeepsHandshake(k, BlockGovernor(k', i));
  }

  /** A machine that ran for the last time: its governor leaves the table in the same dispatch. */
  lemma FinishShape(k: Kernel, i: nat)
    requires Good(k, 2, 0, 1) && Occupied(k, i) && k.added <= MAX_ADDS
    requires At(k, i).vm.Some? && RunOperations(At(k, i).vm.value).rc != RC_TRAPPED
    ensures
      var k' := AfterEntry(RunGovernorVm(k, i), i, At(k, i).pid);
      var n := At(k, i).serial;
      && k'.slots == k.slots[i := None] && k'.added == k.added
      && k'.history.governors == k.history.governors + [VmRan(n)] + [Finished(n)]
  {
    var r := RunGovernorVm(k, i);
    RunGovernorVmGood(k, i);
    RemovesWhileDistinct(r.k, i, 2, 0, 1);
    assert r.k.slots[i := None] == k.slots[i := None];
  }

  lemma FinishHandshake(k: Kernel, i: nat)
    requires Good(k, 2, 0, 1) && Occupied(k, i) && HandshakeOk(k) && k.added <= MAX_ADDS
    requires IsGovernor(At(k, i)) && At(k, i).vm.Some? && At(k, i).loaded == LOADED
    requires RunOperations(At(k, i).vm.value).rc != RC_TRAPPED
    ensures HandshakeOk(AfterEntry(RunGovernorVm(k, i), i, At(k, i).pid))
  {
    hide RunGovernorVm, RunOperations;
    var p := At(k, i);
    var h := k.history.governors;
    SerialUnique(k, i);
    LifeMovesOn(k.slots, i, p, h, VmRan(p.serial), k.added);
    assert k.slots[i := Some(p)] == k.slots;
    LifeEnds(k.slots, i, h + [VmRan(p.serial)], Finished(p.serial), k.added);
    FinishShape(k, i);
    var k1 := Clear(k, i);
    SteadyKeepsHandshake(k, k1);
  }

  /** A governor that has no machine, or still waits for its image, changes nothing that matters here. */
  lemma WaitingTurn(k: Kernel, i: nat)
    requires Occupied(k, i) && HandshakeOk(k)
    requires At(k, i).vm.None? || At(k, i).loaded !in {NOT_REQUESTED, LOADED}
    ensures HandshakeOk(JobGovernor(k, i).k)
  {
    assert Steady(k.slots, JobGovernor(k, i).k.slots);
    SteadyKeepsHandshake(k, JobGovernor(k, i).k);
  }

  lemma GovernorTurn(k: Kernel, i: nat)
    requires Good(k, 2, 0, 1) && Occupied(k, i) && HandshakeOk(k) && IsGovernor(At(k, i))
    requires AfterEntry(JobGovernor(k, i), i, At(k, i).pid).added <= MAX_ADDS
    ensures HandshakeOk(AfterEntry(JobGovernor(k, i), i, At(k, i).pid))
  {
    hide Good, HandshakeOk, RunOperations;
    var p := At(k, i);
    var r := JobGovernor(k, i);
    if p.vm.Some? && p.loaded == LOADED && RunOperations(p.vm.value).rc != RC_TRAPPED {
      FinishHandshake(k, i);
    } else {
      if p.vm.Some? && p.loaded == NOT_REQUESTED {
        RequestLoadHandshake(k, i);
      } else if p.vm.Some? && p.loaded == LOADED {
        TrapHandshake(k, i);
      } else {
        WaitingTurn(k, i);
      }
      EntryKeepsHandshake(r, i, p.pid);
    }
  }

  lemma EntryKeepsHandshake(r: Return, i: nat, pid: Byte)
    requires HandshakeOk(r.k)
    ensures HandshakeOk(AfterEntry(r, i, pid))
  {
    AfterEntryUndisturbed(r, i, pid);
    SteadyKeepsHandshake(r.k, AfterEntry(r, i, pid));
  }

  // A loader's turn

  /** The image has arrived and its loader is gone: the rest of the table still fits together. */
  lemma LoaderLeaves(s: Slots, i: nat, j: nat, g: Process, prioMin: int, prioMax: int, lastPid: Byte, added: nat)
    requires TableOk(s, prioMin, prioMax, lastPid, added) && added <= MAX_ADDS
    requires LoadersOk(s) && LoadersDistinct(s, added)
    requires i < MAX_PRIORITY && j < MAX_PRIORITY && i != j && s[i].Some? && s[j].Some?
    requires IsLoader(s[i].value) && s[i].value.parentPid == s[j].value.pid && SameIdentity(s[j].value, g)
    ensures LoadersOk(s[j := Some(g)][i := None]) && LoadersDistinct(s[j := Some(g)][i := None], added)
  {
    assert ProcessOk(j, s[j].value, prioMin, added);
    assert LoaderFits(s[i].value, s[j].value);
    forall a | 0 <= a < MAX_PRIORITY && a != i && s[a].Some? && IsLoader(s[a].value)
      ensures s[a].value.parentPid != g.pid
    {
      var lo, hi := Min(a, i), a + i - Min(a, i);
      assert s[lo].value.parentPid == 0 || s[lo].value.parentPid != s[hi].value.parentPid;
    }
  }

  lemma ArrivalHandshake(k: Kernel, i: nat, j: nat)
    requires Good(k, 2, 0, 1) && HandshakeOk(k) && k.added <= MAX_ADDS
    requires Occupied(k, i) && Occupied(k, j) && IsLoader(At(k, i)) && At(k, i).parentPid == At(k, j).pid
    ensures i != j && HandshakeOk(Clear(FinishLoad(k, j), i))
  {
    var g := At(k, j).(loaded := LOADED, state := READY);
    assert LoaderFits(At(k, i), At(k, j));
    SerialUnique(k, j);
    LifeMovesOn(k.slots, j, g, k.history.governors, ImageLoaded(g.serial), k.added);
    LoaderLeaves(k.slots, i, j, g, k.prioMin, k.prioMax, k.lastPid, k.added);
  }

  lemma LoadIntoFrame(k: Kernel, j: nat, fileId: Word)
    requires Occupied(k, j) && At(k, j).vm.Some?
    ensures Undisturbed(k, LoadInto(k, j, fileId))
    ensures forall a :: 0 <= a < MAX_PRIORITY && k.slots[a].Some? ==> LoadInto(k, j, fileId).slots[a].Some?
  {
    var p := At(k, j);
    var k1 := Put(k, j, p.(vm := Some(LoadFile(p.vm.value, k.disk, k.files, fileId))));
    assert Undisturbed(k, k1);
    UnblockUndisturbed(k1, p.pid);
    UndisturbedTrans(k, k1, UnblockProcess(k1, p.pid));
  }

  lemma UnblockUndisturbed(k: Kernel, pid: Byte)
    ensures Undisturbed(k, UnblockProcess(k, pid))
    ensures forall a :: 0 <= a < MAX_PRIORITY && k.slots[a].Some? ==> UnblockProcess(k, pid).slots[a].Some?
  {
  }

  lemma RequestMemFrame(k: Kernel, i: nat, j: nat)
    requires Good(k, 2, 0, 1) && Occupied(k, i) && Occupied(k, j) && At(k, j).vm.Some?
    ensures
      var k1 := AfterRequest(k, RES_MEM, i);
      && Grants(k, RES_MEM) && Undisturbed(k, k1) && Good(k1, 1, 0, 1)
      && Occupied(k1, i) && Occupied(k1, j) && At(k1, j).vm.Some?
  {
    RequestMem(k, i);
    AfterRequestFrame(k, RES_MEM, i);
  }

  /** Up to the moment the image arrives a loader disturbs nothing. */
  lemma LoadingUndisturbed(k: Kernel, i: nat, j: nat)
    requires Good(k, 2, 0, 1) && Occupied(k, i) && Occupied(k, j) && At(k, j).vm.Some?
    ensures
      var k1 := AfterRequest(k, RES_MEM, i);
      && Occupied(k1, j) && At(k1, j).vm.Some? && Grants(k, RES_MEM)
      && var k3 := ReleaseRes(LoadInto(k1, j, At(k, i).fileId), RES_MEM);
      Undisturbed(k, k3) && Good(k3, 2, 0, 1) && Occupied(k3, i) && Occupied(k3, j)
  {
    RequestMemFrame(k, i, j);
    var k1 := AfterRequest(k, RES_MEM, i);
    var k2 := LoadInto(k1, j, At(k, i).fileId);
    LoadIntoGood(k1, j, At(k, i).fileId);
    LoadIntoFrame(k1, j, At(k, i).fileId);
    UndisturbedTrans(k, k1, k2);
    LoadReleases(k, k2);
  }

  lemma LoadReleases(k: Kernel, k2: Kernel)
    requires Undisturbed(k, k2) && Good(k2, 1, 0, 1)
    ensures
      var k3 := ReleaseRes(k2, RES_MEM);
      Undisturbed(k, k3) && Good(k3, 2, 0, 1) && k3.slots == k2.slots
  {
    ReleaseMem(k2);
    ReleaseResFrame(k2, RES_MEM);
    UndisturbedTrans(k, k2, ReleaseRes(k2, RES_MEM));
  }

  /** The turn of a loader whose image arrives: it is finished and gone in the same dispatch. */
  lemma ArrivalTurn(k2: Kernel, i: nat, j: nat, r: Return)
    requires Good(k2, 2, 0, 1) && HandshakeOk(k2) && k2.added <= MAX_ADDS
    requires Occupied(k2, i) && Occupied(k2, j) && IsLoader(At(k2, i)) && At(k2, i).parentPid == At(k2, j).pid
    requires r == Return(FinishLoad(k2, j), 0) && Good(r.k, 2, 0, 1)
    ensures HandshakeOk(AfterEntry(r, i, At(k2, i).pid))
  {
    ArrivalHandshake(k2, i, j);
    RemovesWhileDistinct(r.k, i, 2, 0, 1);
    SteadyKeepsHandshake(Clear(r.k, i), AfterEntry(r, i, At(k2, i).pid));
  }

  lemma QuietTurn(k: Kernel, r: Return, i: nat, pid: Byte)
    requires HandshakeOk(k) && Undisturbed(k, r.k)
    ensures HandshakeOk(AfterEntry(r, i, pid))
  {
    SteadyKeepsHandshake(k, r.k);
    EntryKeepsHandshake(r, i, pid);
  }

  lemma LoaderTurn(k: Kernel, i: nat)
    requires Good(k, 2, 0, 1) && Occupied(k, i) && HandshakeOk(k) && IsLoader(At(k, i)) && k.added <= MAX_ADDS
    ensures HandshakeOk(AfterEntry(RunLoader(k, i), i, At(k, i).pid))
  {
    hide Good;
    var p := At(k, i);
    var r := RunLoader(k, i);
    var parent := LowestSlot(k.slots, HasPid(p.parentPid));
    if parent.Some? && At(k, parent.value).vm.Some? {
      var j := parent.value;
      LoadingUndisturbed(k, i, j);
      var k2 := ReleaseRes(LoadInto(AfterRequest(k, RES_MEM, i), j, p.fileId), RES_MEM);
      if LoadSucceeds(k.disk, k.files, p.fileId) {
        SteadyKeepsHandshake(k, k2);
        RunLoaderGood(k, i);
        ArrivalTurn(k2, i, j, r);
      } else {
        QuietTurn(k, r, i, p.pid);
      }
    } else {
      QuietTurn(k, r, i, p.pid);
    }
  }

  // Every dispatch and every run

  lemma TurnKeepsHandshake(k: Kernel, i: nat, fired: bool)
    requires Good(k, 2, 0, 1) && k.current == Some(i) && Occupied(k, i) && At(k, i).state == READY && HandshakeOk(k)
    requires TakeTurn(k, i, fired).added <= MAX_ADDS && k.added <= MAX_ADDS
    ensures HandshakeOk(TakeTurn(k, i, fired))
  {
    var p := At(k, i);
    if IsGovernor(p) {
      GovernorTurn(k, i);
    } else if IsLoader(p) {
      LoaderTurn(k, i);
    } else {
      TurnUndisturbed(k, i, fired);
      SteadyKeepsHandshake(k, TakeTurn(k, i, fired));
    }
  }

  /** Processes are only ever added. */
  lemma TurnAdds(k: Kernel, i: nat, fired: bool)
    requires Good(k, 2, 0, 1) && k.current == Some(i) && Occupied(k, i) && At(k, i).state == READY
    ensures TakeTurn(k, i, fired).added >= k.added
  {
    var p := At(k, i);
    if IsGovernor(p) {
      GovernorAdds(k, i);
    } else if IsLoader(p) {
      LoaderAdds(k, i);
    } else {
      TurnUndisturbed(k, i, fired);
    }
  }

  lemma GovernorAdds(k: Kernel, i: nat)
    requires Occupied(k, i)
    ensures JobGovernor(k, i).k.added >= k.added
    ensures AfterEntry(JobGovernor(k, i), i, At(k, i).pid).added == JobGovernor(k, i).k.added
  {
    if At(k, i).vm.Some? && At(k, i).loaded == LOADED {
      var o := RunOperations(At(k, i).vm.value).vm;
      var k1 := Put(Log(k, VmRan(At(k, i).serial)), i, At(k, i).(vm := Some(o)));
      EnqueueIoFrame(k1, i, o.trapCode, o.trapR0, o.trapR1, o.trapR2);
    }
    AfterEntryUndisturbed(JobGovernor(k, i), i, At(k, i).pid);
  }

  lemma LoaderAdds(k: Kernel, i: nat)
    requires Good(k, 2, 0, 1) && Occupied(k, i)
    ensures AfterEntry(RunLoader(k, i), i, At(k, i).pid).added == k.added
  {
    hide Good, LowestSlot;
    var parent := LowestSlot(k.slots, HasPid(At(k, i).parentPid));
    if parent.Some? && At(k, parent.value).vm.Some? {
      LoadingUndisturbed(k, i, parent.value);
    }
    AfterEntryUndisturbed(RunLoader(k, i), i, At(k, i).pid);
  }

  /** The handshake as a run-wide invariant: it holds for as long as pids have not wrapped. */
  ghost predicate Protocol(k: Kernel) {
    Resting(k) && (k.added <= MAX_ADDS ==> HandshakeOk(k))
  }

  /** The state in which a process takes its turn: prepared, and holding the CPU. */
  lemma Prepared(k: Kernel, i: nat)
    requires Resting(k) && Occupied(k, i)
    ensures
      var k2 := AfterRequest(Prologue(k, i), RES_CPU, i);
      && Grants(Prologue(k, i), RES_CPU) && Good(k2, 2, 0, 1) && k2.current == Some(i) && Occupied(k2, i)
      && Steady(k.slots, k2.slots) && k2.added == k.added
      && k2.history.governors == k.history.governors
      && k2.history.turns == k.history.turns + [Turn(i, At(k, i).serial)]
      && At(k2, i).state == At(k, i).state
  {
    PrologueGood(k, i);
    PrologueFrame(k, i);
    RequestCpu(Prologue(k, i), i);
    AfterRequestFrame(Prologue(k, i), RES_CPU, i);
  }

  lemma DispatchKeepsProtocol(k: Kernel, i: nat, fired: bool)
    requires Protocol(k)
    ensures Protocol(Dispatch(k, i, fired)) && Dispatch(k, i, fired).added >= k.added
  {
    hide TakeTurn, AfterRequest;
    DispatchKeepsInvariant(k, i, fired);
    if ReadyAt(k, i) {
      Prepared(k, i);
      var k2 := AfterRequest(Prologue(k, i), RES_CPU, i);
      var k3 := TakeTurn(k2, i, fired);
      TurnAdds(k2, i, fired);
      ReleaseResFrame(k3, RES_CPU);
      if k3.added <= MAX_ADDS {
        SteadyKeepsHandshake(k, k2);
        TurnKeepsHandshake(k2, i, fired);
        SteadyKeepsHandshake(k3, ReleaseRes(k3, RES_CPU));
      }
    }
  }

  lemma {:induction false} RangeKeepsProtocol(k: Kernel, hi: int, lo: int, fired: set<nat>)
    requires Protocol(k) && hi < MAX_PRIORITY && 0 <= lo
    ensures Protocol(RunRange(k, hi, lo, fired))
    decreases hi - lo
  {
    hide Dispatch, Protocol;
    if hi < lo {
    } else {
      DispatchKeepsProtocol(k, hi, hi in fired);
      RangeKeepsProtocol(Dispatch(k, hi, hi in fired), hi - 1, lo, fired);
    }
  }

  lemma BootHandshake(storage: Storage, files: seq<FileEntry>)
    ensures HandshakeOk(Boot(storage, files))
  {
    var k := Boot(storage, files);
    assert forall i :: 0 <= i < MAX_PRIORITY && k.slots[i].Some? ==> k.slots[i].value == SCHEDULER_PROCESS;
  }

  lemma AddKeepsProtocol(k: Kernel, n: NewProcess)
    requires Protocol(k) && n.parentPid == 0
    ensures Protocol(AddProc(k, n))
  {
    AddProcGood(k, n, 2, 1, 1);
    if k.added + 1 <= MAX_ADDS {
      AddKeepsHandshake(k, n);
    }
  }

  /**
    The governor/loader handshake, over every run: while at most 158 processes
    have been added, every governor's recorded life is legal and matches its
    `loaded` field, every loader with a living parent works for a governor that
    is loading, and no governor has two loaders.
    */
  lemma {:induction false} HandshakeOverRuns(storage: Storage, files: seq<FileEntry>, acts: seq<Action>)
    ensures Protocol(Run(Boot(storage, files), acts))
    decreases |acts|
  {
    if acts == [] {
      BootResting(storage, files);
      BootHandshake(storage, files);
    } else {
      var front := acts[..|acts| - 1];
      var k := Run(Boot(storage, files), front);
      HandshakeOverRuns(storage, files, front);
      match acts[|acts| - 1]
      case Add(n) => AddKeepsProtocol(k, n.(parentPid := 0));
      case Cycle(fired) =>
        RangeKeepsProtocol(k, MAX_PRIORITY - 1, FIRST_SYSTEM_SLOT, fired);
        RangeKeepsProtocol(RunRange(k, MAX_PRIORITY - 1, FIRST_SYSTEM_SLOT, fired), FIRST_SYSTEM_SLOT - 1, 0, fired);
    }
  }

  // What a legal life means, in terms of the events alone

  function Rank(ph: GovernorPhase): nat {
    match ph
    case GovFresh => 0
    case GovRequested => 1
    case GovLoaded => 2
    case GovDone => 3
    case GovBroken => 4
  }

  /** A life only moves forward. */
  lemma {:induction false} PhaseMonotone(h: seq<GovernorEvent>, n: nat, m: nat)
    requires m <= |h|
    ensures Rank(PhaseOf(h[..m], n)) <= Rank(PhaseOf(h, n))
    decreases |h|
  {
    if m < |h| {
      var front := h[..|h| - 1];
      assert front[..m] == h[..m];
      PhaseMonotone(front, n, m);
    } else {
      assert h[..m] == h;
    }
  }

  /** The phases just before and just after event number `b`, between the start and the end of a legal life. */
  lemma PhaseAround(h: seq<GovernorEvent>, n: nat, b: nat)
    requires b < |h| && h[b].serial == n && PhaseOf(h, n) != GovBroken
    ensures PhaseOf(h[..b + 1], n) == GovernorNext(PhaseOf(h[..b], n), h[b]) != GovBroken
  {
    assert h[..b + 1] == h[..b] + [h[b]];
    PhaseStep(h[..b], h[b], n);
    PhaseMonotone(h, n, b + 1);
  }

  /** In a legal life nothing happens twice except running, loading follows the request, and nothing follows the end. */
  lemma NothingTwice(h: seq<GovernorEvent>, n: nat, a: nat, b: nat)
    requires PhaseOf(h, n) != GovBroken && a < b < |h| && h[a].serial == n && h[b].serial == n
    ensures !h[a].Finished? && !h[b].LoadRequested?
    ensures h[b].VmRan? || h[a] != h[b]
    ensures h[b].ImageLoaded? ==> h[a].LoadRequested?
    ensures h[a].VmRan? ==> h[b].VmRan? || h[b].Finished?
  {
    PhaseAround(h, n, a);
    PhaseAround(h, n, b);
    assert h[..b][..a + 1] == h[..a + 1];
    PhaseMonotone(h[..b], n, a + 1);
  }

  /** The machine runs, or ends, only after its image was loaded, and that only after it was requested. */
  lemma {:induction false} LoadedBefore(h: seq<GovernorEvent>, n: nat, b: nat) returns (a: nat)
    requires PhaseOf(h, n) != GovBroken && b < |h| && h[b].serial == n && !h[b].LoadRequested?
    ensures a < b && h[a].serial == n
    ensures h[a] == if h[b].ImageLoaded? then LoadRequested(n) else ImageLoaded(n)
  {
    PhaseAround(h, n, b);
    a := ReachedBy(h[..b], n, if h[b].ImageLoaded? then 1 else 2);
  }

  /** A phase is reached only by the event that leads to it. */
  lemma {:induction false} ReachedBy(h: seq<GovernorEvent>, n: nat, rank: nat) returns (a: nat)
    requires rank in {1, 2} && rank <= Rank(PhaseOf(h, n)) < 4
    ensures a < |h| && h[a] == if rank == 1 then LoadRequested(n) else ImageLoaded(n)
    decreases |h|
  {
    var front := h[..|h| - 1];
    PhaseMonotone(h, n, |h| - 1);
    if Rank(PhaseOf(front, n)) >= rank {
      a := ReachedBy(front, n, rank);
    } else {
      a := |h| - 1;
    }
  }

  // What it means for every reachable state

  /**
    In every reachable state a governor has not requested its image, waits for
    it, or has it, exactly as recorded; a governor that is done is never seen in
    the table.
    */
  lemma GovernorsOfRuns(storage: Storage, files: seq<FileEntry>, acts: seq<Action>, g: nat)
    requires
      var k := Run(Boot(storage, files), acts);
      k.added <= MAX_ADDS && Occupied(k, g) && IsGovernor(At(k, g))
    ensures
      var k := Run(Boot(storage, files), acts);
      && At(k, g).loaded in {NOT_REQUESTED, LOADING, LOADED}
      && PhaseOf(k.history.governors, At(k, g).serial) == PhaseFor(At(k, g).loaded)
  {
    HandshakeOverRuns(storage, files, acts);
    var k := Run(Boot(storage, files), acts);
    assert PhaseOf(k.history.governors, At(k, g).serial) != GovBroken;
  }

  /** In every reachable state a loader with a living parent finds a waiting governor, and is its only loader. */
  lemma LoadersOfRuns(storage: Storage, files: seq<FileEntry>, acts: seq<Action>, g: nat, i: nat, j: nat)
    requires
      var k := Run(Boot(storage, files), acts);
      && k.added <= MAX_ADDS && Occupied(k, g) && Occupied(k, i) && Occupied(k, j)
      && IsLoader(At(k, i)) && IsLoader(At(k, j))
      && At(k, i).parentPid == At(k, j).parentPid == At(k, g).pid
    ensures
      var k := Run(Boot(storage, files), acts);
      i == j && IsGovernor(At(k, g)) && At(k, g).loaded == LOADING
  {
    HandshakeOverRuns(storage, files, acts);
    var k := Run(Boot(storage, files), acts);
    PidsDistinct(k, g, g);
    assert LoaderFits(At(k, i), At(k, g));
  }

  /**
    In every run an image is requested once and loaded once, machine code runs
    only after that, and nothing follows the end.
    */
  lemma LivesOfRuns(storage: Storage, files: seq<FileEntry>, acts: seq<Action>, a: nat, b: nat)
    requires
      var k := Run(Boot(storage, files), acts);
      var h := k.history.governors;
      k.added <= MAX_ADDS && a < b < |h| && h[a].serial == h[b].serial
    ensures
      var h := Run(Boot(storage, files), acts).history.governors;
      && !h[a].Finished? && !h[b].LoadRequested?
      && (h[b].ImageLoaded? ==> h[a].LoadRequested?)
      && (h[a].VmRan? ==> h[b].VmRan? || h[b].Finished?)
  {
    HandshakeOverRuns(storage, files, acts);
    var h := Run(Boot(storage, files), acts).history.governors;
    assert PhaseOf(h, h[a].serial) != GovBroken;
    NothingTwice(h, h[a].serial, a, b);
  }
}
