/**
  Round trips over the disk: a swapped-out machine and a written transfer come
  back byte for byte, whatever else happens on other sectors in between.
  */
module DiskTraffic {
  import opened Words
  import opened Isa
  import opened Disk
  import opened VirtualMachine
  import opened Swapper

  // Transfers of the I/O handler

  /** Bytes a transfer moves: two per word, at most a sector, and not past the end of memory. */
  function TransferBytes(address: Word, words: Word): nat
    requires address <= VM_MEMORY_SIZE
  {
    var bytes := if 2 * words as int > SECTOR_SIZE then SECTOR_SIZE else 2 * words as int;
    if address + bytes > VM_MEMORY_SIZE then VM_MEMORY_SIZE - address else bytes
  }

  /**
    The memory after a READ. For an address past the end of memory, which would
    make the source copy outside it, the model's READ has no effect; no request
    that reaches the ring has one.
    */
  function ReadTransfer(mem: VmMemory, d: DiskState, sector: Word, address: Word, words: Word): VmMemory {
    if address > VM_MEMORY_SIZE || !Ready(d, sector) then mem
    else
      var n := TransferBytes(address, words);
      mem[..address] + d.storage[sector][..n] + mem[address + n..]
  }

  /** The sector image a WRITE sends: the bytes, then zeros. */
  function TransferImage(mem: VmMemory, address: Word, words: Word): Sector
    requires address <= VM_MEMORY_SIZE
  {
    var n := TransferBytes(address, words);
    Padded(mem[address..address + n])
  }

  /** The disk after a WRITE, which like READ has no effect for an address past the end of memory. */
  function WriteTransfer(d: DiskState, mem: VmMemory, sector: Word, address: Word, words: Word): DiskState {
    if address > VM_MEMORY_SIZE then d else WriteSector(d, sector, TransferImage(mem, address, words))
  }

  /** The in-place form of a completed READ. */
  method CompleteRead(disk: HardDisk, mem: array<Byte>, sector: Word, address: Word, words: Word)
    requires disk.Valid() && mem.Length == VM_MEMORY_SIZE
    modifies disk, mem
    ensures disk.State() == old(disk.State())
    ensures mem[..] == old(ReadTransfer(mem[..], disk.State(), sector, address, words))
  {
    if address > VM_MEMORY_SIZE { return; }
    var sectorBuf := new Byte[SECTOR_SIZE](i => 0);
    var ok := disk.ReadDisk(sector, sectorBuf);
    if ok {
      var bytes: nat := words * 2;
      if bytes > SECTOR_SIZE { bytes := SECTOR_SIZE; }
      if address + bytes > VM_MEMORY_SIZE { bytes := VM_MEMORY_SIZE - address; }
      forall i | 0 <= i < bytes {
        mem[address + i] := sectorBuf[i];
      }
      assert mem[..] == old(mem[..])[..address] + disk.storage[sector][..bytes] + old(mem[..])[address + bytes..];
    }
  }

  /** The in-place form of a completed WRITE. */
  method CompleteWrite(disk: HardDisk, mem: array<Byte>, sector: Word, address: Word, words: Word)
    requires disk.Valid() && mem.Length == VM_MEMORY_SIZE
    modifies disk, disk.storage
    ensures disk.State() == old(WriteTransfer(disk.State(), mem[..], sector, address, words))
  {
    if address > VM_MEMORY_SIZE { return; }
    ghost var image := TransferImage(mem[..], address, words);
    var sectorBuf := new Byte[SECTOR_SIZE](i => 0);
    var bytes: nat := words * 2;
    if bytes > SECTOR_SIZE { bytes := SECTOR_SIZE; }
    if address + bytes > VM_MEMORY_SIZE { bytes := VM_MEMORY_SIZE - address; }
    forall i | 0 <= i < bytes {
      sectorBuf[i] := mem[address + i];
    }
    assert sectorBuf[..] == image;
    assert disk.State() == old(disk.State());
    var _ := disk.WriteDisk(sector, sectorBuf);
  }

  /** For a request the interpreter let through, the clamp to the end of memory never fires. */
  lemma ClampNeverFires(address: Word, words: Word)
    requires TransferInBounds(address, words)
    ensures TransferBytes(address, words) == Min(2 * words as int, SECTOR_SIZE)
    ensures address + TransferBytes(address, words) <= VM_MEMORY_SIZE
  {
  }

  // Anything else that may happen to the disk

  datatype DiskOp =
    | PlainWrite(sector: Word, data: Sector)
    | SlotWrite(slot: Word, mem: VmMemory)

  function Apply(d: DiskState, op: DiskOp): DiskState {
    match op
    case PlainWrite(sector, data) => WriteSector(d, sector, data)
    case SlotWrite(slot, mem) => SwapOut(d, mem, slot)
  }

  function ApplyAll(d: DiskState, ops: seq<DiskOp>): DiskState
    decreases |ops|
  {
    if ops == [] then d else ApplyAll(Apply(d, ops[0]), ops[1..])
  }

  /** The operation may write the sector. */
  predicate Touches(op: DiskOp, sector: nat) {
    match op
    case PlainWrite(s, _) => s == sector
    case SlotWrite(slot, _) => SlotExists(slot) && SlotStart(slot) <= sector < SlotStart(slot) + SLOT_SECTORS
  }

  lemma {:induction false} Untouched(d: DiskState, ops: seq<DiskOp>, sector: nat)
    requires sector < SECTOR_COUNT && forall op :: op in ops ==> !Touches(op, sector)
    ensures ApplyAll(d, ops).storage[sector] == d.storage[sector] && ApplyAll(d, ops).busy == d.busy
    decreases |ops|
  {
    if ops == [] {
    } else {
      assert ops[0] in ops;
      assert Apply(d, ops[0]).storage[sector] == d.storage[sector];
      Untouched(Apply(d, ops[0]), ops[1..], sector);
    }
  }

  // Swapping

  /**
    Swap round trip: what was swapped out to a slot comes back exactly, into any
    machine, after any operations on other sectors and other slots.
    */
  lemma SwapRoundTrip(d: DiskState, mem: VmMemory, slot: Word, ops: seq<DiskOp>, other: VmMemory)
    requires CanSwap(d, slot)
    requires forall op, s :: op in ops && SlotStart(slot) <= s < SlotStart(slot) + SLOT_SECTORS ==> !Touches(op, s)
    ensures CanSwap(ApplyAll(SwapOut(d, mem, slot), ops), slot)
    ensures SwapIn(other, ApplyAll(SwapOut(d, mem, slot), ops), slot) == mem
  {
    var start := SlotStart(slot);
    var d1 := SwapOut(d, mem, slot);
    var d2 := ApplyAll(d1, ops);
    forall b | 0 <= b < VM_MEMORY_SIZE
      ensures d2.storage[start + b / SECTOR_SIZE][b % SECTOR_SIZE] == mem[b]
    {
      Untouched(d1, ops, start + b / SECTOR_SIZE);
      assert d1.storage[start + b / SECTOR_SIZE] == Chunk(mem, b / SECTOR_SIZE);
    }
    Untouched(d1, ops, start);
    assert SwapIn(other, d2, slot) == mem;
  }

  /** A slot holds one machine: of two swapped out to the same slot only the second can come back. */
  lemma SharedSlotKeepsTheLast(d: DiskState, first: VmMemory, second: VmMemory, slot: Word, other: VmMemory)
    requires CanSwap(d, slot)
    ensures SwapIn(other, SwapOut(SwapOut(d, first, slot), second, slot), slot) == second
  {
    SwapRoundTrip(SwapOut(d, first, slot), second, slot, [], other);
  }

  /** A swap on a slot that does not fit, or on a busy disk, changes neither the disk nor the machine. */
  lemma FailedSwapChangesNothing(d: DiskState, mem: VmMemory, slot: Word)
    requires !CanSwap(d, slot)
    ensures SwapOut(d, mem, slot) == d && SwapIn(mem, d, slot) == mem
  {
  }

  /** Of the slots a process identifier can name, exactly the first three exist. */
  lemma PidSlots(slot: Word)
    requires slot < 0x100
    ensures SlotExists(slot) <==> slot < 3
    ensures slot < 3 ==> SlotStart(slot) == SWAP_START_SECTOR + SLOT_SECTORS * slot
  {
  }

  predicate SlotsDisjoint(a: Word, b: Word) {
    SlotStart(a) + SLOT_SECTORS <= SlotStart(b) || SlotStart(b) + SLOT_SECTORS <= SlotStart(a)
  }

  /**
    Slot isolation for every `uint16_t` slot number: because the start sector
    wraps, two slots are disjoint exactly when they differ modulo 4096, and a
    slot that exists stays clear of the file sectors below 80 exactly when its
    number modulo 4096 is at most 2.
    */
  lemma SlotIsolation(a: Word, b: Word)
    requires SlotExists(a) && SlotExists(b)
    ensures SlotsDisjoint(a, b) <==> a % 0x1000 != b % 0x1000
    ensures SlotStart(a) >= SWAP_START_SECTOR <==> a % 0x1000 <= 2
  {
    SlotStartMod(a);
    SlotStartMod(b);
  }

  lemma SlotStartMod(a: Word)
    ensures SlotStart(a) == Wrap16(SWAP_START_SECTOR + SLOT_SECTORS * (a % 0x1000))
  {
    assert SWAP_START_SECTOR + a * SLOT_SECTORS
        == SWAP_START_SECTOR + SLOT_SECTORS * (a % 0x1000) + 0x1_0000 * (a / 0x1000);
  }

  // Transfers

  /**
    Disk round trip: a completed WRITE to a valid sector and then, with no other
    write to that sector in between, a completed READ of it put the bytes back
    wherever the READ asks for them; the rest of the sector is zero.
    */
  lemma TransferRoundTrip(d: DiskState, mem: VmMemory, sector: Word, a: Word, words: Word,
                          ops: seq<DiskOp>, other: VmMemory, b: Word)
    requires Ready(d, sector) && TransferInBounds(a, words) && TransferInBounds(b, words)
    requires forall op :: op in ops ==> !Touches(op, sector)
    ensures
      var n := Min(2 * words as int, SECTOR_SIZE);
      var d2 := ApplyAll(WriteTransfer(d, mem, sector, a, words), ops);
      var res := ReadTransfer(other, d2, sector, b, words);
      && res[b..b + n] == mem[a..a + n]
      && res[..b] == other[..b] && res[b + n..] == other[b + n..]
      && d2.storage[sector] == Padded(mem[a..a + n])
  {
    var d1 := WriteTransfer(d, mem, sector, a, words);
    ClampNeverFires(a, words);
    ClampNeverFires(b, words);
    Untouched(d1, ops, sector);
  }

  /**
    A READ at any address, byte by byte: with the sector there and the disk idle,
    the bytes from the address on, two for every word but at most a sector and
    none past the end of memory, are the sector's; every other byte stays.
    */
  lemma ReadChangesExactly(mem: VmMemory, d: DiskState, sector: Word, a: Word, words: Word)
    ensures
      var res := ReadTransfer(mem, d, sector, a, words);
      forall k :: 0 <= k < VM_MEMORY_SIZE ==>
        res[k] == if Ready(d, sector) && a <= k < a + 16 && k < a + 2 * words as int then d.storage[sector][k - a]
                  else mem[k]
  {
  }

  /** A WRITE from any address inside memory: its sector gets those bytes and then zeros; every other sector stays. */
  lemma WriteChangesOneSector(d: DiskState, mem: VmMemory, sector: Word, a: Word, words: Word)
    requires a <= VM_MEMORY_SIZE
    ensures
      var d1 := WriteTransfer(d, mem, sector, a, words);
      && (!Ready(d, sector) ==> d1 == d)
      && (Ready(d, sector) ==>
            && d1 == d.(storage := d.storage[sector := d1.storage[sector]])
            && forall j :: 0 <= j < SECTOR_SIZE ==>
                 d1.storage[sector][j] == if j < 2 * words as int && a + j < VM_MEMORY_SIZE then mem[a + j] else 0)
  {
  }
}
