/**
  The Real Machine's loader, and the theorem that it and the virtual machine's
  loader put the same program in place.
  */
module ImageLoader {
  import opened Words
  import opened Isa
  import opened Disk
  import opened RealMachine
  import opened VirtualMachine
  import opened Loader

  datatype LoadResult = LoadResult(loadAddress: Word, entryPoint: Word, wordsLoaded: Word,
                                   startSector: Word, sectorsUsed: Word)

  /** The header is accepted for an image placed at `la`. */
  predicate Accepted(d: DiskState, start: Word, la: Word) {
    && AddressFits(la, 1)
    && Ready(d, start)
    && var h := ReadHeader(d.storage[start]);
    && h.wordCount != 0
    && AddressFits(la, h.wordCount)
    && h.entryOffset < h.wordCount
  }

  /** The exact condition under which an image is loaded into the Real Machine. */
  predicate ImageLoads(d: DiskState, start: Word, la: Word) {
    Accepted(d, start, la) && OnDisk(start, ReadHeader(d.storage[start]).wordCount - 1)
  }

  /** Words written before the program or the disk ends. */
  function CellsWritten(d: DiskState, start: Word, la: Word): nat {
    if !Accepted(d, start, la) then 0
    else Min(ReadHeader(d.storage[start]).wordCount, WORDS_PER_SECTOR * (SECTOR_COUNT - start) - HEADER_WORDS)
  }

  /** The cells with the words stored from `la` on and every other cell kept. */
  function PutCells(cells: Cells, la: Word, words: seq<Word>): (res: Cells)
    requires la + |words| <= MEMORY_SIZE
  {
    cells[..la] + words + cells[la + |words|..]
  }

  /** The Real Machine after a load; the instruction counter moves only on success. */
  function LoadImage(rm: Rm, d: DiskState, start: Word, la: Word): Rm {
    var n := CellsWritten(d, start, la);
    if n == 0 then rm
    else
      var h := ReadHeader(d.storage[start]);
      var rm1 := rm.(cells := PutCells(rm.cells, la, ImageWords(d.storage, start, n)));
      if ImageLoads(d, start, la) then SetIc(rm1, la + h.entryOffset) else rm1
  }

  ghost predicate CellProgress(cells: seq<Word>, cells0: Cells, storage: Storage, start: Word, la: Word, n: nat)
  {
    && (n > 0 ==> OnDisk(start, n - 1))
    && la + n <= MEMORY_SIZE
    && cells == PutCells(cells0, la, ImageWords(storage, start, n))
  }

  lemma CellProgressOneMore(cells: seq<Word>, cells0: Cells, storage: Storage, start: Word, la: Word, n: nat)
    requires CellProgress(cells, cells0, storage, start, la, n) && OnDisk(start, n) && la + n < MEMORY_SIZE
    ensures CellProgress(cells[la + n := ImageWord(storage, start, n)], cells0, storage, start, la, n + 1)
  {
    var w := ImageWord(storage, start, n);
    assert ImageWords(storage, start, n + 1) == ImageWords(storage, start, n) + [w];
    assert cells[la + n := w] == PutCells(cells0, la, ImageWords(storage, start, n) + [w]);
  }

  /** The unchecked write the loader uses; the address is always in user memory here. */
  method StoreCell(cells: array<Word>, a: nat, word: Word)
    requires cells.Length == MEMORY_SIZE && a <= USER_MEMORY_END
    modifies cells
    ensures cells[..] == old(cells[..])[a := word]
  {
    cells[a] := word;
  }

  /** The inner loop: copies words until the sector buffer or the program ends. */
  method CopyWords(buf: array<Byte>, cells: array<Word>, wordCount: Word, la: Word, index0: nat, loaded0: nat,
                   ghost cells0: Cells, ghost storage: Storage, ghost start: Word, ghost k: nat)
    returns (loaded: nat)
    requires cells.Length == MEMORY_SIZE && buf.Length == SECTOR_SIZE
    requires AddressFits(la, wordCount) && loaded0 <= wordCount && index0 <= WORDS_PER_SECTOR
    requires start + k < SECTOR_COUNT && buf[..] == storage[start + k]
    requires HEADER_WORDS + loaded0 == WORDS_PER_SECTOR * k + index0
    requires CellProgress(cells[..], cells0, storage, start, la, loaded0)
    modifies cells
    ensures loaded == Min(wordCount, WORDS_PER_SECTOR * (k + 1) - HEADER_WORDS)
    ensures CellProgress(cells[..], cells0, storage, start, la, loaded)
  {
    hide CellProgress;
    loaded := loaded0;
    var index := index0;
    while index < WORDS_PER_SECTOR && loaded < wordCount
      invariant index <= WORDS_PER_SECTOR && loaded <= wordCount
      invariant HEADER_WORDS + loaded == WORDS_PER_SECTOR * k + index
      invariant buf[..] == storage[start + k]
      invariant CellProgress(cells[..], cells0, storage, start, la, loaded)
    {
      WordPosition(storage, start, k, loaded, 2 * index);
      CellProgressOneMore(cells[..], cells0, storage, start, la, loaded);
      StoreCell(cells, la + loaded, Le16(buf[..], index * 2));
      loaded := loaded + 1;
      index := index + 1;
    }
  }

  lemma NothingPut(cells0: Cells, storage: Storage, start: Word, la: Word)
    requires la <= MEMORY_SIZE
    ensures CellProgress(cells0, cells0, storage, start, la, 0)
  {
    assert ImageWords(storage, start, 0) == [];
    assert PutCells(cells0, la, []) == cells0;
  }

  /** The outer loop; it succeeds when the disk holds the whole program. */
  method CopyAllWords(disk: HardDisk, buf: array<Byte>, cells: array<Word>, wordCount: Word, la: Word, start: Word)
    returns (ok: bool, loaded: nat, sectorsUsed: nat)
    requires disk.Valid() && cells.Length == MEMORY_SIZE && buf.Length == SECTOR_SIZE
    requires !disk.busy && start < SECTOR_COUNT && buf[..] == disk.storage[start]
    requires wordCount != 0 && AddressFits(la, wordCount)
    modifies disk, buf, cells
    ensures disk.State() == old(disk.State())
    ensures ok == OnDisk(start, wordCount - 1)
    ensures loaded == Min(wordCount, WORDS_PER_SECTOR * (SECTOR_COUNT - start) - HEADER_WORDS)
    ensures CellProgress(cells[..], old(cells[..]), disk.storage[..], start, la, loaded)
    ensures ok ==> sectorsUsed == (HEADER_WORDS + wordCount + WORDS_PER_SECTOR - 1) / WORDS_PER_SECTOR
  {
    hide CellProgress;
    ghost var cells0: Cells := cells[..];
    ghost var storage: Storage := disk.storage[..];
    loaded, sectorsUsed := 0, 0;
    var sector := start;
    var index := HEADER_WORDS;
    NothingPut(cells0, storage, start, la);
    while loaded < wordCount
      invariant disk.State() == DiskState(storage, false)
      invariant start + sectorsUsed == sector < SECTOR_COUNT && buf[..] == storage[sector]
      invariant loaded < wordCount && index == if sectorsUsed == 0 then HEADER_WORDS else 0
      invariant loaded == if sectorsUsed == 0 then 0 else WORDS_PER_SECTOR * sectorsUsed - HEADER_WORDS
      invariant CellProgress(cells[..], cells0, storage, start, la, loaded)
      decreases wordCount - loaded
    {
      loaded := CopyWords(buf, cells, wordCount, la, index, loaded, cells0, storage, start, sectorsUsed);
      if loaded >= wordCount { break; }
      sector := Wrap16(sector + 1);
      sectorsUsed := sectorsUsed + 1;
      index := 0;
      ghost var written := cells[..];
      var readable := disk.ReadDisk(sector, buf);
      assert cells[..] == written;
      if !readable { return false, loaded, sectorsUsed; }
    }
    sectorsUsed := sectorsUsed + 1;
    ok := true;
  }

  /** Loads an image into Real Machine memory: exactly `LoadImage`, successful exactly when `ImageLoads`. */
  method LoadProgramImage(disk: HardDisk, machine: Machine, start: Word, la: Word)
    returns (ok: bool, result: LoadResult)
    requires disk.Valid() && machine.Valid() && disk as object != machine
    modifies disk, machine`IC, machine.cells
    ensures disk.State() == old(disk.State())
    ensures ok == ImageLoads(old(disk.State()), start, la)
    ensures machine.State() == LoadImage(old(machine.State()), old(disk.State()), start, la)
    ensures ok ==>
              var h := ReadHeader(disk.storage[start]);
              result == LoadResult(la, la + h.entryOffset, h.wordCount, start,
                                   (HEADER_WORDS + h.wordCount + WORDS_PER_SECTOR - 1) / WORDS_PER_SECTOR)
  {
    ok, result := false, LoadResult(0, 0, 0, 0, 0);
    if !AddressFits(la, 1) { return; }
    var sectorBuf := new Byte[SECTOR_SIZE](i => 0);
    var readable := disk.ReadDisk(start, sectorBuf);
    if !readable { return; }
    var h := ReadHeader(sectorBuf[..]);
    if h.wordCount == 0 { return; }
    if !AddressFits(la, h.wordCount) { return; }
    if h.entryOffset >= h.wordCount { return; }
    var copied, loaded, sectorsUsed := CopyAllWords(disk, sectorBuf, machine.cells, h.wordCount, la, start);
    if !copied { return; }
    machine.IC := la + h.entryOffset;
    result := LoadResult(la, la + h.entryOffset, loaded, start, sectorsUsed);
    ok := true;
  }

  // The two loaders place one and the same image

  /** Virtual memory fetches the words one after another from `la` on. */
  predicate VmHolds(mem: VmMemory, la: Word, words: seq<Word>) {
    la + 2 * |words| <= VM_MEMORY_SIZE
    && forall i :: 0 <= i < |words| ==> Be16(mem, la + 2 * i) == words[i]
  }

  /** User memory of the Real Machine holds the words one after another from `la` on. */
  predicate RmHolds(cells: Cells, la: Word, words: seq<Word>) {
    la + |words| <= SUPERVISOR_MEMORY_START
    && forall i :: 0 <= i < |words| ==> cells[la + i] == words[i]
  }

  lemma VmLoaded(vm: Vm, d: DiskState, files: seq<FileEntry>, fileId: Word)
    requires LoadSucceeds(d, files, fileId)
    ensures
      var start := FindFile(files, fileId).value.startSector;
      var h := ReadHeader(d.storage[start]);
      var vm1 := LoadFile(vm, d, files, fileId);
      && VmHolds(vm1.memory, h.loadAddress, ImageWords(d.storage, start, h.wordCount))
      && vm1 == Vm(vm1.memory, ZERO_REGISTERS, h.loadAddress + 2 * h.entryOffset, 0, SI_NONE, SI_NONE, 0, 0, 0)
      && (forall b :: 0 <= b < VM_MEMORY_SIZE && !(h.loadAddress <= b < h.loadAddress + 2 * h.wordCount) ==>
            vm1.memory[b] == vm.memory[b])
  {
    var start := FindFile(files, fileId).value.startSector;
    var h := ReadHeader(d.storage[start]);
    var words := ImageWords(d.storage, start, h.wordCount);
    SucceedsWhenComplete(d, files, fileId);
    assert LoadedMemory(vm.memory, d, files, fileId) == PutWords(vm.memory, h.loadAddress, words);
    forall i | 0 <= i < h.wordCount
      ensures Be16(PutWords(vm.memory, h.loadAddress, words), h.loadAddress + 2 * i) == words[i]
    {
      FetchStored(vm.memory, h.loadAddress, words, i);
    }
  }

  lemma RmLoaded(rm: Rm, d: DiskState, start: Word, la: Word)
    requires ImageLoads(d, start, la)
    ensures
      var h := ReadHeader(d.storage[start]);
      var rm1 := LoadImage(rm, d, start, la);
      && RmHolds(rm1.cells, la, ImageWords(d.storage, start, h.wordCount))
      && rm1.cpu == rm.cpu.(ic := la + h.entryOffset)
      && (forall a :: 0 <= a < MEMORY_SIZE && !(la <= a < la + h.wordCount) ==> rm1.cells[a] == rm.cells[a])
  {
  }

  /** The two machines hold one program: equal words, the same next instruction, and nothing else changed. */
  predicate OneProgram(vm: Vm, vm1: Vm, rm: Rm, rm1: Rm, h: Header, la: Word) {
    && la + h.wordCount <= SUPERVISOR_MEMORY_START && h.loadAddress + 2 * h.wordCount <= VM_MEMORY_SIZE
    && (forall i :: 0 <= i < h.wordCount ==> Be16(vm1.memory, h.loadAddress + 2 * i) == rm1.cells[la + i])
    && vm1.pc - h.loadAddress == 2 * (rm1.cpu.ic - la)
    && la <= rm1.cpu.ic < la + h.wordCount
    && (forall b :: 0 <= b < VM_MEMORY_SIZE && !(h.loadAddress <= b < h.loadAddress + 2 * h.wordCount) ==>
          vm1.memory[b] == vm.memory[b])
    && (forall a :: 0 <= a < MEMORY_SIZE && !(la <= a < la + h.wordCount) ==> rm1.cells[a] == rm.cells[a])
  }

  lemma HoldingOneProgram(vm: Vm, vm1: Vm, rm: Rm, rm1: Rm, h: Header, la: Word, words: seq<Word>)
    requires |words| == h.wordCount && h.entryOffset < h.wordCount
    requires VmHolds(vm1.memory, h.loadAddress, words) && RmHolds(rm1.cells, la, words)
    requires vm1.pc == h.loadAddress + 2 * h.entryOffset && rm1.cpu.ic == la + h.entryOffset
    requires forall b :: 0 <= b < VM_MEMORY_SIZE && !(h.loadAddress <= b < h.loadAddress + 2 * h.wordCount) ==>
                           vm1.memory[b] == vm.memory[b]
    requires forall a :: 0 <= a < MEMORY_SIZE && !(la <= a < la + h.wordCount) ==> rm1.cells[a] == rm.cells[a]
    ensures OneProgram(vm, vm1, rm, rm1, h, la)
  {
    HoldSame(vm1.memory, h.loadAddress, rm1.cells, la, words);
  }

  /**
    Both loaders refine one image. When both succeed on the same image, what the
    virtual machine fetches word by word is what the Real Machine has cell by
    cell, both processors stand at the same instruction, the Real Machine's
    program lies in user memory, and neither loader touches anything else.
    */
  lemma LoadersAgree(vm: Vm, rm: Rm, d: DiskState, files: seq<FileEntry>, fileId: Word, la: Word)
    requires LoadSucceeds(d, files, fileId)
    requires ImageLoads(d, FindFile(files, fileId).value.startSector, la)
    ensures
      var start := FindFile(files, fileId).value.startSector;
      OneProgram(vm, LoadFile(vm, d, files, fileId), rm, LoadImage(rm, d, start, la), ReadHeader(d.storage[start]), la)
  {
    var start := FindFile(files, fileId).value.startSector;
    var h := ReadHeader(d.storage[start]);
    VmLoaded(vm, d, files, fileId);
    RmLoaded(rm, d, start, la);
    HoldingOneProgram(vm, LoadFile(vm, d, files, fileId), rm, LoadImage(rm, d, start, la), h, la,
                      ImageWords(d.storage, start, h.wordCount));
  }

  lemma HoldSame(mem: VmMemory, la: Word, cells: Cells, ra: Word, words: seq<Word>)
    requires VmHolds(mem, la, words) && RmHolds(cells, ra, words)
    ensures forall i :: 0 <= i < |words| ==> Be16(mem, la + 2 * i) == cells[ra + i]
  {
    forall i | 0 <= i < |words|
      ensures Be16(mem, la + 2 * i) == cells[ra + i]
    {
      assert Be16(mem, la + 2 * i) == words[i];
    }
  }
}
