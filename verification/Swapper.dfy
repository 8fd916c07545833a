/** Swapping: 255 bytes of virtual memory cut into 16 sectors of a slot, and back. */
module Swapper {
  import opened Words
  import opened Isa
  import opened Disk
  import opened VirtualMachine

  const SWAP_START_SECTOR := 80
  const SLOT_SECTORS := 16

  /** The slot's first sector, stored in a `uint16_t`. */
  function SlotStart(slot: Word): Word {
    Wrap16(SWAP_START_SECTOR + slot * SLOT_SECTORS)
  }

  predicate SlotExists(slot: Word) {
    SlotStart(slot) + SLOT_SECTORS <= SECTOR_COUNT
  }

  predicate CanSwap(d: DiskState, slot: Word) {
    SlotExists(slot) && !d.busy
  }

  /** The sector image of bytes 16k.. of a memory; the byte past the end is zero. */
  function Chunk(mem: VmMemory, k: nat): (res: Sector)
    requires k < SLOT_SECTORS
  {
    seq<Byte>(SECTOR_SIZE, j requires 0 <= j < SECTOR_SIZE =>
      if k * SECTOR_SIZE + j < VM_MEMORY_SIZE then mem[k * SECTOR_SIZE + j] else 0)
  }

  function SwapOutSectors(storage: Storage, start: Word, mem: VmMemory, n: nat): (res: Storage)
    requires n <= SLOT_SECTORS && start + SLOT_SECTORS <= SECTOR_COUNT
    ensures forall s :: 0 <= s < SECTOR_COUNT ==>
                          res[s] == SwappedSector(storage, start, mem, n, s)
  {
    seq<Sector>(SECTOR_COUNT, s requires 0 <= s < SECTOR_COUNT => SwappedSector(storage, start, mem, n, s))
  }

  function SwappedSector(storage: Storage, start: Word, mem: VmMemory, n: nat, s: nat): Sector
    requires n <= SLOT_SECTORS && s < SECTOR_COUNT
  {
    if start <= s < start + n then Chunk(mem, s - start) else storage[s]
  }

  function SwapOut(d: DiskState, mem: VmMemory, slot: Word): DiskState {
    if CanSwap(d, slot) then d.(storage := SwapOutSectors(d.storage, SlotStart(slot), mem, SLOT_SECTORS)) else d
  }

  /** The first `n` bytes of a memory replaced by what the slot holds. */
  function SwapInBytes(mem: VmMemory, storage: Storage, start: Word, n: nat): (res: VmMemory)
    requires n <= VM_MEMORY_SIZE && start + SLOT_SECTORS <= SECTOR_COUNT
    ensures forall b :: 0 <= b < VM_MEMORY_SIZE ==>
                          res[b] == if b < n then storage[start + b / SECTOR_SIZE][b % SECTOR_SIZE] else mem[b]
  {
    seq<Byte>(VM_MEMORY_SIZE, b requires 0 <= b < VM_MEMORY_SIZE =>
      if b < n then storage[start + b / SECTOR_SIZE][b % SECTOR_SIZE] else mem[b])
  }

  function SwapIn(mem: VmMemory, d: DiskState, slot: Word): VmMemory {
    if CanSwap(d, slot) then SwapInBytes(mem, d.storage, SlotStart(slot), VM_MEMORY_SIZE) else mem
  }

  // The loops

  /** Writes up to a sector's worth of bytes from `offset` on, padded with zeros. */
  method WriteSectorChunk(disk: HardDisk, sector: Word, mem: array<Byte>, offset: nat, len: nat) returns (ok: bool)
    requires disk.Valid() && mem.Length == VM_MEMORY_SIZE && offset + len <= VM_MEMORY_SIZE && len <= SECTOR_SIZE
    modifies disk, disk.storage
    ensures ok == old(Ready(disk.State(), sector))
    ensures disk.State() == old(WriteSector(disk.State(), sector, Padded(mem[offset..offset + len])))
  {
    ghost var image := Padded(mem[offset..offset + len]);
    var buf := new Byte[SECTOR_SIZE](i => 0);
    forall i | 0 <= i < len {
      buf[i] := mem[offset + i];
    }
    assert buf[..] == image;
    assert disk.State() == old(disk.State());
    ok := disk.WriteDisk(sector, buf);
  }

  method ReadSectorChunk(disk: HardDisk, sector: Word, mem: array<Byte>, offset: nat, len: nat) returns (ok: bool)
    requires disk.Valid() && mem.Length == VM_MEMORY_SIZE && offset + len <= VM_MEMORY_SIZE && len <= SECTOR_SIZE
    modifies disk, mem
    ensures ok == old(Ready(disk.State(), sector)) && disk.State() == old(disk.State())
    ensures !ok ==> mem[..] == old(mem[..])
    ensures ok ==> forall b :: 0 <= b < VM_MEMORY_SIZE ==>
                     mem[b] == if offset <= b < offset + len then disk.storage[sector][b - offset] else old(mem[b])
  {
    var buf := new Byte[SECTOR_SIZE](i => 0);
    ok := disk.ReadDisk(sector, buf);
    if !ok { return; }
    forall i | 0 <= i < len {
      mem[offset + i] := buf[i];
    }
  }

  lemma ChunkBytes(mem: VmMemory, k: nat, len: nat)
    requires k < SLOT_SECTORS && len == Min(SECTOR_SIZE, VM_MEMORY_SIZE - k * SECTOR_SIZE)
    ensures Padded(mem[k * SECTOR_SIZE..k * SECTOR_SIZE + len]) == Chunk(mem, k)
  {
  }

  lemma OneMoreSector(storage: Storage, start: Word, mem: VmMemory, n: nat)
    requires n < SLOT_SECTORS && start + SLOT_SECTORS <= SECTOR_COUNT
    ensures SwapOutSectors(storage, start, mem, n)[start + n := Chunk(mem, n)]
            == SwapOutSectors(storage, start, mem, n + 1)
  {
  }

  method SwapOutVm(disk: HardDisk, mem: array<Byte>, slot: Word) returns (ok: bool)
    requires disk.Valid() && mem.Length == VM_MEMORY_SIZE
    modifies disk, disk.storage
    ensures ok == old(CanSwap(disk.State(), slot))
    ensures disk.State() == old(SwapOut(disk.State(), mem[..], slot))
  {
    ghost var storage: Storage := disk.storage[..];
    var start := SlotStart(slot);
    if start + SLOT_SECTORS > SECTOR_COUNT { return false; }
    var remaining := VM_MEMORY_SIZE;
    var s := 0;
    assert SwapOutSectors(storage, start, mem[..], 0) == storage;
    while s < SLOT_SECTORS && remaining > 0
      invariant 0 <= s <= SLOT_SECTORS && remaining == if s == SLOT_SECTORS then 0 else VM_MEMORY_SIZE - s * SECTOR_SIZE
      invariant disk.State() == DiskState(SwapOutSectors(storage, start, mem[..], s), old(disk.busy))
      invariant s > 0 ==> !disk.busy
    {
      var chunk := if remaining > SECTOR_SIZE then SECTOR_SIZE else remaining;
      ChunkBytes(mem[..], s, chunk);
      OneMoreSector(storage, start, mem[..], s);
      var written := WriteSectorChunk(disk, start + s, mem, s * SECTOR_SIZE, chunk);
      if !written { return false; }
      remaining := remaining - chunk;
      s := s + 1;
    }
    return true;
  }

  lemma OneMoreChunk(mem0: VmMemory, mem: VmMemory, mem': VmMemory, storage: Storage, start: Word, k: nat, len: nat)
    requires k < SLOT_SECTORS && start + SLOT_SECTORS <= SECTOR_COUNT
    requires len == Min(SECTOR_SIZE, VM_MEMORY_SIZE - k * SECTOR_SIZE)
    requires mem == SwapInBytes(mem0, storage, start, k * SECTOR_SIZE)
    requires forall b :: 0 <= b < VM_MEMORY_SIZE ==>
                           mem'[b] == if k * SECTOR_SIZE <= b < k * SECTOR_SIZE + len
                                      then storage[start + k][b - k * SECTOR_SIZE] else mem[b]
    ensures mem' == SwapInBytes(mem0, storage, start, k * SECTOR_SIZE + len)
  {
    var want := SwapInBytes(mem0, storage, start, k * SECTOR_SIZE + len);
    forall b | 0 <= b < VM_MEMORY_SIZE
      ensures mem'[b] == want[b]
    {
      if k * SECTOR_SIZE <= b < k * SECTOR_SIZE + len {
        assert b / SECTOR_SIZE == k && b % SECTOR_SIZE == b - k * SECTOR_SIZE;
      }
    }
  }

  method SwapInVm(disk: HardDisk, mem: array<Byte>, slot: Word) returns (ok: bool)
    requires disk.Valid() && mem.Length == VM_MEMORY_SIZE
    modifies disk, mem
    ensures ok == old(CanSwap(disk.State(), slot)) && disk.State() == old(disk.State())
    ensures mem[..] == old(SwapIn(mem[..], disk.State(), slot))
  {
    ghost var mem0: VmMemory := mem[..];
    ghost var storage: Storage := disk.storage[..];
    var start := SlotStart(slot);
    if start + SLOT_SECTORS > SECTOR_COUNT { return false; }
    var remaining := VM_MEMORY_SIZE;
    var s := 0;
    assert SwapInBytes(mem0, storage, start, 0) == mem0;
    while s < SLOT_SECTORS && remaining > 0
      invariant 0 <= s <= SLOT_SECTORS && remaining == if s == SLOT_SECTORS then 0 else VM_MEMORY_SIZE - s * SECTOR_SIZE
      invariant disk.State() == DiskState(storage, old(disk.busy))
      invariant s > 0 ==> !disk.busy
      invariant mem[..] == SwapInBytes(mem0, storage, start, VM_MEMORY_SIZE - remaining)
    {
      var chunk := if remaining > SECTOR_SIZE then SECTOR_SIZE else remaining;
      ghost var before: VmMemory := mem[..];
      var got := ReadSectorChunk(disk, start + s, mem, s * SECTOR_SIZE, chunk);
      if !got { return false; }
      OneMoreChunk(mem0, before, mem[..], storage, start, s, chunk);
      remaining := remaining - chunk;
      s := s + 1;
    }
    return true;
  }
}
