/**
  Counted resources with bounded first-in-first-out wait queues. The functions
  work on a resource as a count and a queue; the classes keep the queue in a
  ring buffer, as the source does.
  */
module Resources {
  import opened Words

  const MAX_RESOURCES := 8
  const MAX_WAIT_PIDS := 32

  datatype Resource = Resource(id: int, available: int, queue: seq<Byte>)

  /** The first resource registered under an identifier. */
  function FindRes(rs: seq<Resource>, id: int, i: nat := 0): (res: Option<nat>)
    requires i <= |rs|
    ensures res.Some? ==> i <= res.value < |rs| && rs[res.value].id == id
    ensures res.Some? ==> forall j :: i <= j < res.value ==> rs[j].id != id
    ensures res.None? ==> forall j :: i <= j < |rs| ==> rs[j].id != id
    decreases |rs| - i
  {
    if i == |rs| then None else if rs[i].id == id then Some(i) else FindRes(rs, id, i + 1)
  }

  /** A request is granted, queued, dropped because the ring is full, or names no resource. */
  datatype Answer = Granted | Queued | Dropped | Missing

  function RequestOne(r: Resource, pid: Byte): (Resource, Answer) {
    if r.available > 0 then (r.(available := r.available - 1), Granted)
    else if |r.queue| < MAX_WAIT_PIDS - 1 then (r.(queue := r.queue + [pid]), Queued)
    else (r, Dropped)
  }

  /** A released unit goes to the longest-waiting process, or back to the pool. */
  function ReleaseOne(r: Resource): (Resource, Option<Byte>) {
    if r.queue != [] then (r.(queue := r.queue[1..]), Some(r.queue[0]))
    else (r.(available := r.available + 1), None)
  }

  function RequestUnit(rs: seq<Resource>, id: int, pid: Byte): (seq<Resource>, Answer) {
    match FindRes(rs, id)
    case None => (rs, Missing)
    case Some(j) => var (r, a) := RequestOne(rs[j], pid); (rs[j := r], a)
  }

  function ReleaseUnit(rs: seq<Resource>, id: int): (seq<Resource>, Option<Byte>) {
    match FindRes(rs, id)
    case None => (rs, None)
    case Some(j) => var (r, w) := ReleaseOne(rs[j]); (rs[j := r], w)
  }

  // The ring buffer

  predicate RingIndices(buf: seq<Byte>, head: nat, tail: nat) {
    |buf| == MAX_WAIT_PIDS && head < MAX_WAIT_PIDS && tail < MAX_WAIT_PIDS
  }

  /** The waiting pids in a ring, longest-waiting first. */
  function QueueOf(buf: seq<Byte>, head: nat, tail: nat): seq<Byte>
    requires RingIndices(buf, head, tail)
  {
    if head <= tail then buf[head..tail] else buf[head..] + buf[..tail]
  }

  function Next(i: nat): nat {
    (i + 1) % MAX_WAIT_PIDS
  }

  /** A ring has one slot fewer than its buffer: it is full when the tail would meet the head. */
  lemma FullRing(buf: seq<Byte>, head: nat, tail: nat)
    requires RingIndices(buf, head, tail)
    ensures Next(tail) == head <==> |QueueOf(buf, head, tail)| == MAX_WAIT_PIDS - 1
    ensures |QueueOf(buf, head, tail)| < MAX_WAIT_PIDS
  {
  }

  lemma AppendToRing(buf: seq<Byte>, head: nat, tail: nat, pid: Byte)
    requires RingIndices(buf, head, tail) && Next(tail) != head
    ensures QueueOf(buf[tail := pid], head, Next(tail)) == QueueOf(buf, head, tail) + [pid]
  {
    if head <= tail {
      if tail == MAX_WAIT_PIDS - 1 {
        assert buf[tail := pid][head..] == buf[head..tail] + [pid];
      } else {
        assert buf[tail := pid][head..tail + 1] == buf[head..tail] + [pid];
      }
    } else {
      assert buf[tail := pid][..tail + 1] == buf[..tail] + [pid];
      assert buf[tail := pid][head..] == buf[head..];
    }
  }

  lemma DropFromRing(buf: seq<Byte>, head: nat, tail: nat)
    requires RingIndices(buf, head, tail) && head != tail
    ensures QueueOf(buf, head, tail) != [] && QueueOf(buf, head, tail)[0] == buf[head]
    ensures QueueOf(buf, Next(head), tail) == QueueOf(buf, head, tail)[1..]
  {
    if head < tail {
      assert Next(head) == head + 1;
      DropSlice(buf, head, tail);
    } else {
      DropFirst(buf[head..], buf[..tail]);
      if head == MAX_WAIT_PIDS - 1 {
        assert Next(head) == 0;
        LastOnly(buf, buf[..tail]);
      } else {
        assert Next(head) == head + 1;
        DropSlice(buf, head, |buf|);
      }
    }
  }

  lemma DropSlice(buf: seq<Byte>, head: nat, end: nat)
    requires head < end <= |buf|
    ensures buf[head..end] != [] && buf[head..end][0] == buf[head] && buf[head..end][1..] == buf[head + 1..end]
  {
  }

  lemma DropFirst(x: seq<Byte>, y: seq<Byte>)
    requires x != []
    ensures (x + y)[1..] == x[1..] + y
  {
  }

  lemma LastOnly(buf: seq<Byte>, y: seq<Byte>)
    requires |buf| == MAX_WAIT_PIDS
    ensures buf[MAX_WAIT_PIDS - 1..][1..] + y == y
  {
  }

  class Ring {
    const id: int
    var available: int
    const waitPids: array<Byte>
    var head: nat
    var tail: nat

    ghost predicate Valid()
      reads this
    {
      waitPids.Length == MAX_WAIT_PIDS && head < MAX_WAIT_PIDS && tail < MAX_WAIT_PIDS
    }

    ghost function Queue(): seq<Byte>
      reads this, waitPids
      requires Valid()
    {
      QueueOf(waitPids[..], head, tail)
    }

    ghost function Value(): Resource
      reads this, waitPids
      requires Valid()
    {
      Resource(id, available, Queue())
    }

    constructor (id: int, units: int)
      ensures Valid() && fresh(waitPids) && Value() == Resource(id, if units < 0 then 0 else units, [])
    {
      this.id := id;
      available := if units < 0 then 0 else units;
      waitPids := new Byte[MAX_WAIT_PIDS](i => 0);
      head, tail := 0, 0;
    }

    method Enqueue(pid: Byte) returns (ok: bool)
      requires Valid()
      modifies this`tail, waitPids
      ensures Valid()
      ensures ok == (|old(Queue())| < MAX_WAIT_PIDS - 1)
      ensures Queue() == if ok then old(Queue()) + [pid] else old(Queue())
    {
      FullRing(waitPids[..], head, tail);
      var next := (tail + 1) % MAX_WAIT_PIDS;
      if next == head { return false; }
      AppendToRing(waitPids[..], head, tail, pid);
      waitPids[tail] := pid;
      tail := next;
      return true;
    }

    method Dequeue() returns (pid: Option<Byte>)
      requires Valid()
      modifies this`head
      ensures Valid()
      ensures old(Queue()) == [] ==> pid.None? && Queue() == []
      ensures old(Queue()) != [] ==> pid == Some(old(Queue()[0])) && Queue() == old(Queue())[1..]
    {
      if head == tail { return None; }
      DropFromRing(waitPids[..], head, tail);
      pid := Some(waitPids[head]);
      head := (head + 1) % MAX_WAIT_PIDS;
    }

    method Request(pid: Byte) returns (answer: Answer)
      requires Valid()
      modifies this, waitPids
      ensures Valid() && (Value(), answer) == old(RequestOne(Value(), pid))
    {
      if available > 0 {
        available := available - 1;
        return Granted;
      }
      var ok := Enqueue(pid);
      return if ok then Queued else Dropped;
    }

    method Release() returns (woken: Option<Byte>)
      requires Valid()
      modifies this, waitPids
      ensures Valid() && (Value(), woken) == old(ReleaseOne(Value()))
    {
      woken := Dequeue();
      if woken.None? {
        available := available + 1;
      }
    }
  }

  class ResourceManager {
    var res: seq<Ring>

    ghost predicate Valid()
      reads this, res
    {
      && |res| <= MAX_RESOURCES
      && (forall i :: 0 <= i < |res| ==> res[i].Valid())
      && (forall i, j :: 0 <= i < j < |res| ==> res[i] != res[j] && res[i].waitPids != res[j].waitPids)
    }

    ghost function Buffers(): set<object>
      reads this
    {
      set r: Ring | r in res :: r.waitPids
    }

    ghost function State(): (rs: seq<Resource>)
      reads this, res, Buffers()
      requires Valid()
      ensures |rs| == |res| && forall i :: 0 <= i < |res| ==> rs[i] == res[i].Value()
    {
      seq(|res|, i requires 0 <= i < |res| && Valid() reads this, res, Buffers() => res[i].Value())
    }

    constructor ()
      ensures Valid() && State() == []
    {
      res := [];
    }

    /** Registers a resource; -1 when the table is full. */
    method CreateResource(id: int, units: int) returns (rc: int)
      requires Valid()
      modifies this
      ensures Valid()
      ensures old(|State()|) < MAX_RESOURCES ==>
                rc == id && State() == old(State()) + [Resource(id, if units < 0 then 0 else units, [])]
      ensures old(|State()|) >= MAX_RESOURCES ==> rc == -1 && State() == old(State())
    {
      if |res| >= MAX_RESOURCES { return -1; }
      var r := new Ring(id, units);
      res := res + [r];
      return id;
    }

    method Find(id: int) returns (j: Option<nat>)
      requires Valid()
      ensures j == FindRes(State(), id)
    {
      for i := 0 to |res|
        invariant FindRes(State(), id) == FindRes(State(), id, i)
      {
        if res[i].id == id { return Some(i); }
      }
      return None;
    }

    twostate lemma OnlyOneChanged(j: nat)
      requires old(Valid()) && Valid() && res == old(res) && j < |res|
      requires forall i :: 0 <= i < |res| && i != j ==> unchanged(res[i]) && unchanged(res[i].waitPids)
      ensures State() == old(State())[j := res[j].Value()]
    {
    }

    method Request(id: int, pid: Byte) returns (answer: Answer)
      requires Valid()
      modifies res, Buffers()
      ensures Valid() && (State(), answer) == old(RequestUnit(State(), id, pid))
    {
      var j := Find(id);
      if j.None? { return Missing; }
      answer := res[j.value].Request(pid);
      OnlyOneChanged(j.value);
    }

    method Release(id: int) returns (woken: Option<Byte>)
      requires Valid()
      modifies res, Buffers()
      ensures Valid() && (State(), woken) == old(ReleaseUnit(State(), id))
    {
      var j := Find(id);
      if j.None? { return None; }
      woken := res[j.value].Release();
      OnlyOneChanged(j.value);
    }
  }

  // Accounting over any sequence of calls

  datatype Call = Request(id: int, pid: Byte) | Release(id: int)

  /** What has happened to one resource so far. */
  datatype Tally = Tally(rs: seq<Resource>, grants: nat, releases: nat, accepted: seq<Byte>, handOffs: seq<Byte>)

  function Account(t: Tally, id: int, c: Call): Tally {
    match c
    case Request(cid, pid) =>
      var (rs, a) := RequestUnit(t.rs, cid, pid);
      if cid != id then t.(rs := rs)
      else if a == Granted then t.(rs := rs, grants := t.grants + 1)
      else if a == Queued then t.(rs := rs, accepted := t.accepted + [pid])
      else t.(rs := rs)
    case Release(cid) =>
      var (rs, w) := ReleaseUnit(t.rs, cid);
      if cid != id || FindRes(t.rs, cid).None? then t.(rs := rs)
      else if w.Some? then t.(rs := rs, releases := t.releases + 1, handOffs := t.handOffs + [w.value])
      else t.(rs := rs, releases := t.releases + 1)
  }

  function AccountAll(rs: seq<Resource>, id: int, calls: seq<Call>): Tally {
    if calls == [] then Tally(rs, 0, 0, [], [])
    else Account(AccountAll(rs, id, calls[..|calls| - 1]), id, calls[|calls| - 1])
  }

  /** A pool never keeps a free unit while somebody waits for it. */
  predicate WellFormed(r: Resource) {
    r.available >= 0 && |r.queue| < MAX_WAIT_PIDS && (r.available > 0 ==> r.queue == [])
  }

  /** Everything the accounting promises about resource number `j`. */
  predicate Balanced(rs: seq<Resource>, t: Tally, j: nat)
    requires j < |rs|
  {
    && |t.rs| == |rs|
    && (forall i :: 0 <= i < |rs| ==> t.rs[i].id == rs[i].id)
    && WellFormed(t.rs[j])
    && t.rs[j].available + t.grants + |t.handOffs| - t.releases == rs[j].available
    && t.handOffs + t.rs[j].queue == rs[j].queue + t.accepted
  }

  lemma SameIdsFindSame(rs: seq<Resource>, rs': seq<Resource>, id: int, i: nat)
    requires |rs| == |rs'| && i <= |rs| && forall k :: 0 <= k < |rs| ==> rs[k].id == rs'[k].id
    ensures FindRes(rs, id, i) == FindRes(rs', id, i)
    decreases |rs| - i
  {
  }

  lemma RequestKeepsBalance(rs: seq<Resource>, t: Tally, id: int, j: nat, cid: int, pid: Byte)
    requires FindRes(rs, id) == Some(j) && Balanced(rs, t, j)
    ensures Balanced(rs, Account(t, id, Request(cid, pid)), j)
  {
    SameIdsFindSame(rs, t.rs, id, 0);
    SameIdsFindSame(rs, t.rs, cid, 0);
    if cid == id {
      assert t.handOffs + (t.rs[j].queue + [pid]) == (t.handOffs + t.rs[j].queue) + [pid];
      assert rs[j].queue + (t.accepted + [pid]) == (rs[j].queue + t.accepted) + [pid];
    }
  }

  lemma ReleaseKeepsBalance(rs: seq<Resource>, t: Tally, id: int, j: nat, cid: int)
    requires FindRes(rs, id) == Some(j) && Balanced(rs, t, j)
    ensures Balanced(rs, Account(t, id, Release(cid)), j)
  {
    SameIdsFindSame(rs, t.rs, id, 0);
    SameIdsFindSame(rs, t.rs, cid, 0);
    var q := t.rs[j].queue;
    if cid == id && q != [] {
      assert (t.handOffs + [q[0]]) + q[1..] == t.handOffs + q;
    }
  }

  /**
    Accounting: over any sequence of requests and releases, free units plus
    direct grants plus hand-offs minus releases equals the initial units, units
    are handed off in the order in which waiters were accepted, and a free unit
    means nobody waits.
    */
  lemma {:induction false} AccountsBalance(rs: seq<Resource>, id: int, j: nat, calls: seq<Call>)
    requires FindRes(rs, id) == Some(j) && WellFormed(rs[j])
    ensures Balanced(rs, AccountAll(rs, id, calls), j)
  {
    if calls == [] {
    } else {
      var front, last := calls[..|calls| - 1], calls[|calls| - 1];
      AccountsBalance(rs, id, j, front);
      match last
      case Request(cid, pid) => RequestKeepsBalance(rs, AccountAll(rs, id, front), id, j, cid, pid);
      case Release(cid) => ReleaseKeepsBalance(rs, AccountAll(rs, id, front), id, j, cid);
    }
  }

  /** Calls on other identifiers leave a resource exactly as it was. */
  lemma {:induction false} OthersUntouched(rs: seq<Resource>, id: int, j: nat, calls: seq<Call>)
    requires FindRes(rs, id) == Some(j) && forall c :: c in calls ==> c.id != id
    ensures
      var t := AccountAll(rs, id, calls);
      |t.rs| == |rs| && t.rs[j] == rs[j] && forall i :: 0 <= i < |rs| ==> t.rs[i].id == rs[i].id
  {
    if calls == [] {
    } else {
      var front, last := calls[..|calls| - 1], calls[|calls| - 1];
      OthersUntouched(rs, id, j, front);
      assert last in calls;
      SameIdsFindSame(rs, AccountAll(rs, id, front).rs, last.id, 0);
    }
  }
}
