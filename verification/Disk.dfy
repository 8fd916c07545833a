/** The hard disk: 128 sectors of 16 bytes, transferred a whole sector at a time. */
module Disk {
  import opened Words

  const SECTOR_COUNT := 128
  const SECTOR_SIZE := 16

  type Sector = s: seq<Byte> | |s| == SECTOR_SIZE witness [0, 0, 0, 0, 0, 0, 0, 0, 0, 0, 0, 0, 0, 0, 0, 0]

  const ZERO_SECTOR: Sector := [0, 0, 0, 0, 0, 0, 0, 0, 0, 0, 0, 0, 0, 0, 0, 0]

  /** A sector that starts with the given bytes and is zero after them. */
  function Padded(data: seq<Byte>): (res: Sector)
    requires |data| <= SECTOR_SIZE
    ensures res[..|data|] == data
    ensures forall j :: |data| <= j < SECTOR_SIZE ==> res[j] == 0
  {
    data + ZERO_SECTOR[|data|..]
  }

  const ZERO_STORAGE: seq<Sector> := seq<Sector>(SECTOR_COUNT, i => ZERO_SECTOR)

  type Storage = s: seq<Sector> | |s| == SECTOR_COUNT witness ZERO_STORAGE

  datatype DiskState = DiskState(storage: Storage, busy: bool)

  /** A transfer goes through exactly when the sector exists and the device is idle. */
  predicate Ready(d: DiskState, sector: Word) {
    sector < SECTOR_COUNT && !d.busy
  }

  function WriteSector(d: DiskState, sector: Word, data: Sector): DiskState {
    if Ready(d, sector) then d.(storage := d.storage[sector := data]) else d
  }

  class HardDisk {
    var busy: bool
    var interruptFlag: bool
    const storage: array<Sector>

    ghost predicate Valid()
      reads this
    {
      storage.Length == SECTOR_COUNT
    }

    ghost function State(): DiskState
      reads this, storage
      requires Valid()
    {
      DiskState(storage[..], busy)
    }

    constructor ()
      ensures Valid() && fresh(storage) && !busy
      ensures forall s :: 0 <= s < SECTOR_COUNT ==> storage[s] == ZERO_SECTOR
    {
      busy, interruptFlag := false, false;
      storage := new Sector[SECTOR_COUNT](s => ZERO_SECTOR);
    }

    method ReadDisk(sector: Word, buffer: array<Byte>) returns (ok: bool)
      requires Valid() && buffer.Length == SECTOR_SIZE
      modifies this, buffer
      ensures ok == old(Ready(State(), sector)) && State() == old(State())
      ensures buffer[..] == if ok then storage[sector] else old(buffer[..])
      ensures interruptFlag == (ok || old(interruptFlag))
    {
      if sector >= SECTOR_COUNT { return false; }
      if busy { return false; }
      busy := true;
      forall i | 0 <= i < SECTOR_SIZE {
        buffer[i] := storage[sector][i];
      }
      busy := false;
      interruptFlag := true;
      return true;
    }

    method WriteDisk(sector: Word, buffer: array<Byte>) returns (ok: bool)
      requires Valid() && buffer.Length == SECTOR_SIZE
      modifies this, storage
      ensures ok == old(Ready(State(), sector))
      ensures State() == old(WriteSector(State(), sector, buffer[..]))
      ensures interruptFlag == (ok || old(interruptFlag))
    {
      if sector >= SECTOR_COUNT { return false; }
      if busy { return false; }
      busy := true;
      storage[sector] := buffer[..];
      busy := false;
      interruptFlag := true;
      return true;
    }
  }
}
