/**
  Private virtual processors: over any sequence of context switches, with the
  registers changing arbitrarily in between, a process gets back exactly the
  processor state it was last saved with.
  */
module ContextIsolation {
  import opened Words
  import opened RealMachine
  import opened KernelModel

  /** One context switch as observed: the state just before it, and whom it saved and loaded. */
  datatype Switch = Switch(cpu: Cpu, saved: Option<nat>, loaded: Option<nat>)

  /** Between switches the processor may be anything, and sleeping processes may become ready. */
  datatype Stretch = Stretch(cpu: Cpu, woken: set<nat>)

  function Woken(o: Slot, wake: bool): Slot {
    if o.Some? && wake && o.value.state != RUNNING then Some(o.value.(state := READY)) else o
  }

  function WakeAll(s: Slots, woken: set<nat>): Slots {
    seq<Slot>(MAX_PRIORITY, i requires 0 <= i < MAX_PRIORITY => Woken(s[i], i in woken))
  }

  /** The state in which the next switch happens. */
  function Before(k: Kernel, t: Stretch): Kernel {
    k.(cpu := t.cpu, slots := WakeAll(k.slots, t.woken))
  }

  function Observe(k: Kernel): Switch {
    Switch(k.cpu, SavedBy(k), NextRunnable(SwitchOut(k)))
  }

  /** The kernel after a sequence of stretches, each ended by a context switch. */
  function Switches(k: Kernel, ts: seq<Stretch>): Kernel
    decreases |ts|
  {
    if ts == [] then k else ContextSwitch(Before(Switches(k, ts[..|ts| - 1]), ts[|ts| - 1]))
  }

  /** What an observer of those switches writes down. */
  function Trace(k: Kernel, ts: seq<Stretch>): seq<Switch>
    decreases |ts|
  {
    if ts == [] then []
    else Trace(k, ts[..|ts| - 1]) + [Observe(Before(Switches(k, ts[..|ts| - 1]), ts[|ts| - 1]))]
  }

  /** Reference: the processor state slot `i` was last saved with, or its initial context. */
  function LastSaved(initial: Cpu, trace: seq<Switch>, i: nat): Cpu
    decreases |trace|
  {
    if trace == [] then initial
    else if trace[|trace| - 1].saved == Some(i) then trace[|trace| - 1].cpu
    else LastSaved(initial, trace[..|trace| - 1], i)
  }

  predicate OnlyCurrentRuns(k: Kernel) {
    forall i :: 0 <= i < MAX_PRIORITY && k.slots[i].Some? && k.slots[i].value.state == RUNNING ==> k.current == Some(i)
  }

  /** What one switch does to every slot's saved context. */
  lemma SwitchContexts(k: Kernel, i: nat)
    requires Occupied(k, i)
    ensures Occupied(ContextSwitch(k), i)
    ensures At(ContextSwitch(k), i).context == if SavedBy(k) == Some(i) then k.cpu else At(k, i).context
  {
    assert Occupied(SwitchOut(k), i);
  }

  lemma SwitchLoads(k: Kernel)
    ensures Observe(k).loaded.Some? ==>
              var j := Observe(k).loaded.value;
              Occupied(ContextSwitch(k), j) && ContextSwitch(k).current == Some(j)
              && ContextSwitch(k).cpu == At(ContextSwitch(k), j).context
              && At(ContextSwitch(k), j).state == RUNNING
    ensures Observe(k).loaded.None? ==> ContextSwitch(k).cpu == k.cpu && ContextSwitch(k).current == k.current
  {
  }

  /** The slot's context is always what the trace says it was last saved with. */
  lemma {:induction false} ContextIsLastSaved(k: Kernel, ts: seq<Stretch>, i: nat)
    requires Occupied(k, i)
    ensures Occupied(Switches(k, ts), i)
    ensures At(Switches(k, ts), i).context == LastSaved(At(k, i).context, Trace(k, ts), i)
    decreases |ts|
  {
    if ts == [] {
    } else {
      var front := ts[..|ts| - 1];
      ContextIsLastSaved(k, front, i);
      var k1 := Before(Switches(k, front), ts[|ts| - 1]);
      SwitchContexts(k1, i);
      assert Trace(k, ts)[..|ts| - 1] == Trace(k, front) by { TraceLength(k, front); }
    }
  }

  lemma {:induction false} TraceLength(k: Kernel, ts: seq<Stretch>)
    ensures |Trace(k, ts)| == |ts|
    decreases |ts|
  {
    if ts == [] {
    } else {
      TraceLength(k, ts[..|ts| - 1]);
    }
  }

  /**
    Whenever a switch loads a process, the processor holds exactly the state that
    process was last saved with, whatever the other processes did meanwhile.
    */
  lemma PrivateProcessor(k: Kernel, ts: seq<Stretch>, i: nat)
    requires ts != [] && Occupied(k, i)
    requires Trace(k, ts)[|Trace(k, ts)| - 1].loaded == Some(i)
    ensures Switches(k, ts).cpu == LastSaved(At(k, i).context, Trace(k, ts), i)
    ensures Switches(k, ts).current == Some(i) && At(Switches(k, ts), i).state == RUNNING
  {
    ContextIsLastSaved(k, ts, i);
    SwitchLoads(Before(Switches(k, ts[..|ts| - 1]), ts[|ts| - 1]));
  }

  /** If only the current process could be running before, only the current one can be running after. */
  lemma SwitchKeepsOneRunning(k: Kernel)
    requires OnlyCurrentRuns(k)
    ensures OnlyCurrentRuns(ContextSwitch(k))
  {
    var k1 := SwitchOut(k);
    assert OnlyCurrentRuns(k1);
  }

  lemma {:induction false} OneRunningAlways(k: Kernel, ts: seq<Stretch>)
    requires OnlyCurrentRuns(k)
    ensures OnlyCurrentRuns(Switches(k, ts))
    decreases |ts|
  {
    if ts == [] {
    } else {
      OneRunningAlways(k, ts[..|ts| - 1]);
      SwitchKeepsOneRunning(Before(Switches(k, ts[..|ts| - 1]), ts[|ts| - 1]));
    }
  }
}
