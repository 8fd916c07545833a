/**
  The two program loaders. Both decode the same image: a three-word header
  (word count, entry offset, load address) and then the program words, low byte
  first, running on from sector to sector. One loader unpacks the words into
  virtual machine bytes, the other into Real Machine cells.
  */
module Loader {
  import opened Words
  import opened Isa
  import opened Disk
  import opened VirtualMachine

  const MAX_FILE_ENTRIES := 8
  const HEADER_WORDS := 3
  const WORDS_PER_SECTOR := 8

  // The file table

  datatype FileEntry = FileEntry(fileId: Word, startSector: Word, sectorCount: Word)

  /** The first entry registered under an identifier. */
  function FindFile(files: seq<FileEntry>, fileId: Word): (res: Option<FileEntry>)
    ensures res.Some? ==> exists i ::
                            && 0 <= i < |files| && files[i] == res.value && files[i].fileId == fileId
                            && forall j :: 0 <= j < i ==> files[j].fileId != fileId
    ensures res.None? ==> forall i :: 0 <= i < |files| ==> files[i].fileId != fileId
  {
    if files == [] then None
    else if files[|files| - 1].fileId == fileId && FindFile(files[..|files| - 1], fileId).None? then
      Some(files[|files| - 1])
    else FindFile(files[..|files| - 1], fileId)
  }

  class FileTable {
    var files: seq<FileEntry>

    constructor ()
      ensures files == []
    {
      files := [];
    }

    method RegisterFile(entry: FileEntry) returns (ok: bool)
      modifies this
      ensures ok == (old(|files|) < MAX_FILE_ENTRIES)
      ensures files == if ok then old(files) + [entry] else old(files)
    {
      if |files| >= MAX_FILE_ENTRIES { return false; }
      files := files + [entry];
      return true;
    }

    method Find(fileId: Word) returns (res: Option<FileEntry>)
      ensures res == FindFile(files, fileId)
    {
      for i := 0 to |files|
        invariant FindFile(files[..i], fileId).None?
      {
        assert files[..i + 1][..i] == files[..i];
        if files[i].fileId == fileId {
          FindFilePrefix(files, fileId, i + 1);
          return Some(files[i]);
        }
      }
      assert files[..|files|] == files;
      return None;
    }
  }

  /** Later registrations never hide an earlier one. */
  lemma {:induction false} FindFilePrefix(files: seq<FileEntry>, fileId: Word, n: nat)
    requires n <= |files| && FindFile(files[..n], fileId).Some?
    ensures FindFile(files, fileId) == FindFile(files[..n], fileId)
  {
    if n == |files| {
      assert files[..n] == files;
    } else {
      var front := files[..|files| - 1];
      assert front[..n] == files[..n];
      FindFilePrefix(front, fileId, n);
    }
  }

  // The image on disk

  datatype Header = Header(wordCount: Word, entryOffset: Word, loadAddress: Word)

  function ReadHeader(buf: Sector): Header {
    Header(Le16(buf, 0), Le16(buf, 2), Le16(buf, 4))
  }

  predicate AddressFits(loadAddress: Word, wordCount: Word) {
    loadAddress + 2 * wordCount as int <= VM_MEMORY_SIZE
  }

  /** Program word `i` of the image that starts at sector `start` is on the disk at all. */
  predicate OnDisk(start: Word, i: nat) {
    start + (HEADER_WORDS + i) / WORDS_PER_SECTOR < SECTOR_COUNT
  }

  /** Program word `i` of the image that starts at sector `start`. */
  function ImageWord(storage: Storage, start: Word, i: nat): Word
    requires OnDisk(start, i)
  {
    Le16(storage[start + (HEADER_WORDS + i) / WORDS_PER_SECTOR], (HEADER_WORDS + i) % WORDS_PER_SECTOR * 2)
  }

  function ImageWords(storage: Storage, start: Word, n: nat): (words: seq<Word>)
    requires n > 0 ==> OnDisk(start, n - 1)
    ensures |words| == n
    ensures forall i :: 0 <= i < n ==> words[i] == ImageWord(storage, start, i)
  {
    seq(n, i requires 0 <= i < n => ImageWord(storage, start, i))
  }

  // Placing words in memory

  /** Byte `b` of a memory whose bytes from `la` on hold the words, high byte first. */
  function PutByte(mem: VmMemory, la: Word, words: seq<Word>, b: nat): Byte
    requires b < VM_MEMORY_SIZE
  {
    if la <= b < la + 2 * |words| then
      var w := words[(b - la) / 2];
      if (b - la) % 2 == 0 then HighByte(w) else LowByte(w)
    else mem[b]
  }

  /** The memory with the words stored from `la` on and every other byte kept. */
  function PutWords(mem: VmMemory, la: Word, words: seq<Word>): (res: VmMemory)
    ensures forall b :: 0 <= b < VM_MEMORY_SIZE ==> res[b] == PutByte(mem, la, words, b)
  {
    seq<Byte>(VM_MEMORY_SIZE, b requires 0 <= b < VM_MEMORY_SIZE => PutByte(mem, la, words, b))
  }

  /** The big-endian fetch of a stored word gives the word back. */
  lemma FetchStored(mem: VmMemory, la: Word, words: seq<Word>, i: nat)
    requires i < |words| && la + 2 * |words| <= VM_MEMORY_SIZE
    ensures Be16(PutWords(mem, la, words), la + 2 * i) == words[i]
  {
    var b := la + 2 * i;
    assert (b - la) / 2 == i && (b - la) % 2 == 0;
    assert (b + 1 - la) / 2 == i && (b + 1 - la) % 2 == 1;
  }

  /** Storing one more word is storing its two bytes behind the others. */
  lemma PutOneMore(mem: VmMemory, la: Word, words: seq<Word>, w: Word)
    requires la + 2 * |words| + 1 < VM_MEMORY_SIZE
    ensures
      var b := la + 2 * |words|;
      PutWords(mem, la, words + [w]) == PutWords(mem, la, words)[b := HighByte(w)][b + 1 := LowByte(w)]
  {
    var p, q := la, la + 2 * |words|;
    var got := PutWords(mem, la, words + [w]);
    var want := PutWords(mem, la, words)[q := HighByte(w)][q + 1 := LowByte(w)];
    forall b | 0 <= b < VM_MEMORY_SIZE
      ensures got[b] == want[b]
    {
      if p <= b < q {
        assert (words + [w])[(b - la) / 2] == words[(b - la) / 2];
      } else if q <= b < q + 2 {
        assert (b - la) / 2 == |words| && (words + [w])[|words|] == w;
      }
    }
  }

  // Loading into a virtual machine

  /** Words that can be read before the file's sectors, or the disk, run out. */
  function Loadable(fe: FileEntry): int {
    WORDS_PER_SECTOR * Min(fe.sectorCount, SECTOR_COUNT - fe.startSector) - HEADER_WORDS
  }

  predicate GoodHeader(h: Header) {
    h.wordCount != 0 && AddressFits(h.loadAddress, h.wordCount) && h.entryOffset < h.wordCount
  }

  /** The exact condition under which loading a file into a virtual machine succeeds. */
  predicate LoadSucceeds(d: DiskState, files: seq<FileEntry>, fileId: Word) {
    && FindFile(files, fileId).Some?
    && var fe := FindFile(files, fileId).value;
    && Ready(d, fe.startSector)
    && var h := ReadHeader(d.storage[fe.startSector]);
    && GoodHeader(h)
    && HEADER_WORDS + h.wordCount <= WORDS_PER_SECTOR * fe.sectorCount as int
    && OnDisk(fe.startSector, h.wordCount - 1)
  }

  /** How many words a load writes, whether or not it succeeds. */
  function WordsWritten(d: DiskState, files: seq<FileEntry>, fileId: Word): nat {
    if FindFile(files, fileId).None? then 0
    else
      var fe := FindFile(files, fileId).value;
      if !Ready(d, fe.startSector) then 0
      else
        var h := ReadHeader(d.storage[fe.startSector]);
        if !GoodHeader(h) || fe.sectorCount == 0 then 0 else Min(h.wordCount, Loadable(fe))
  }

  lemma WrittenIsOnDisk(d: DiskState, files: seq<FileEntry>, fileId: Word)
    ensures
      var n := WordsWritten(d, files, fileId);
      n > 0 ==> OnDisk(FindFile(files, fileId).value.startSector, n - 1)
  {
  }

  /** The memory a load leaves behind: a prefix of the image when it fails, all of it when it succeeds. */
  function LoadedMemory(mem: VmMemory, d: DiskState, files: seq<FileEntry>, fileId: Word): VmMemory {
    var n := WordsWritten(d, files, fileId);
    if n == 0 then mem
    else
      WrittenIsOnDisk(d, files, fileId);
      var start := FindFile(files, fileId).value.startSector;
      PutWords(mem, ReadHeader(d.storage[start]).loadAddress, ImageWords(d.storage, start, n))
  }

  /** A fresh processor at the entry point. */
  function Started(vm: Vm, h: Header): Vm
    requires GoodHeader(h)
  {
    ClearTrap(vm.(pc := h.loadAddress + 2 * h.entryOffset, r := ZERO_REGISTERS, sf := 0, si := SI_NONE))
  }

  /** The virtual machine after a load: on success also a fresh processor at the entry point. */
  function LoadFile(vm: Vm, d: DiskState, files: seq<FileEntry>, fileId: Word): Vm {
    var vm1 := vm.(memory := LoadedMemory(vm.memory, d, files, fileId));
    if !LoadSucceeds(d, files, fileId) then vm1
    else
      var h := ReadHeader(d.storage[FindFile(files, fileId).value.startSector]);
      Started(vm1, h)
  }

  /** A load succeeds exactly when it writes the whole image. */
  lemma SucceedsWhenComplete(d: DiskState, files: seq<FileEntry>, fileId: Word)
    requires FindFile(files, fileId).Some?
    requires
      var start := FindFile(files, fileId).value.startSector;
      Ready(d, start) && GoodHeader(ReadHeader(d.storage[start]))
    ensures
      var start := FindFile(files, fileId).value.startSector;
      LoadSucceeds(d, files, fileId) <==> WordsWritten(d, files, fileId) == ReadHeader(d.storage[start]).wordCount
  {
  }

  /** One sector's worth of progress of the copying loop. */
  ghost predicate Progress(mem: seq<Byte>, mem0: VmMemory, storage: Storage, start: Word, la: Word, wordsLoaded: nat)
  {
    && (wordsLoaded > 0 ==> OnDisk(start, wordsLoaded - 1))
    && mem == PutWords(mem0, la, ImageWords(storage, start, wordsLoaded))
  }

  /** Writing the next word of the image keeps the progress predicate. */
  lemma ProgressOneMore(mem: VmMemory, mem0: VmMemory, storage: Storage, start: Word, la: Word, n: nat)
    requires Progress(mem, mem0, storage, start, la, n)
    requires OnDisk(start, n) && la + 2 * n + 1 < VM_MEMORY_SIZE
    ensures
      var w := ImageWord(storage, start, n);
      Progress(mem[la + 2 * n := HighByte(w)][la + 2 * n + 1 := LowByte(w)], mem0, storage, start, la, n + 1)
  {
    var words := ImageWords(storage, start, n);
    var w := ImageWord(storage, start, n);
    assert ImageWords(storage, start, n + 1) == words + [w];
    PutOneMore(mem0, la, words, w);
  }

  /** Where the copying loop finds program word `n` while it is in the file's sector `k`. */
  lemma WordPosition(storage: Storage, start: Word, k: nat, n: nat, byteOffset: nat)
    requires start + k < SECTOR_COUNT && byteOffset % 2 == 0 && byteOffset < SECTOR_SIZE
    requires HEADER_WORDS + n == WORDS_PER_SECTOR * k + byteOffset / 2
    ensures OnDisk(start, n) && ImageWord(storage, start, n) == Le16(storage[start + k], byteOffset)
  {
  }

  /** The VM fetch order: high byte first. The source's bounds guard always holds here. */
  method StoreWord(vm: Interpreter, byteIndex: nat, word: Word)
    requires vm.Valid() && byteIndex + 1 < VM_MEMORY_SIZE
    modifies vm.memoryCells
    ensures vm.memoryCells[..] ==
            old(vm.memoryCells[..])[byteIndex := HighByte(word)][byteIndex + 1 := LowByte(word)]
  {
    vm.memoryCells[byteIndex] := HighByte(word);
    vm.memoryCells[byteIndex + 1] := LowByte(word);
  }

  /** The inner loop: copies words until the sector buffer or the program ends. */
  method CopyFromSector(buf: array<Byte>, vm: Interpreter, h: Header, byteOffset0: nat, loaded0: nat,
                        ghost mem0: VmMemory, ghost storage: Storage, ghost start: Word, ghost k: nat)
    returns (loaded: nat)
    requires vm.Valid() && buf.Length == SECTOR_SIZE && buf != vm.memoryCells
    requires AddressFits(h.loadAddress, h.wordCount) && loaded0 <= h.wordCount
    requires start + k < SECTOR_COUNT && buf[..] == storage[start + k]
    requires byteOffset0 % 2 == 0 && byteOffset0 <= SECTOR_SIZE
    requires HEADER_WORDS + loaded0 == WORDS_PER_SECTOR * k + byteOffset0 / 2
    requires Progress(vm.memoryCells[..], mem0, storage, start, h.loadAddress, loaded0)
    modifies vm.memoryCells
    ensures loaded == Min(h.wordCount, WORDS_PER_SECTOR * (k + 1) - HEADER_WORDS)
    ensures Progress(vm.memoryCells[..], mem0, storage, start, h.loadAddress, loaded)
  {
    var byteOffset := byteOffset0;
    loaded := loaded0;
    while byteOffset + 1 < SECTOR_SIZE && loaded < h.wordCount
      invariant byteOffset % 2 == 0 && byteOffset <= SECTOR_SIZE && loaded <= h.wordCount
      invariant HEADER_WORDS + loaded == WORDS_PER_SECTOR * k + byteOffset / 2
      invariant buf[..] == storage[start + k]
      invariant Progress(vm.memoryCells[..], mem0, storage, start, h.loadAddress, loaded)
    {
      WordPosition(storage, start, k, loaded, byteOffset);
      var word := Le16(buf[..], byteOffset);
      ProgressOneMore(vm.memoryCells[..], mem0, storage, start, h.loadAddress, loaded);
      StoreWord(vm, h.loadAddress + loaded * 2, word);
      loaded := loaded + 1;
      byteOffset := byteOffset + 2;
    }
  }

  /** Where the outer loop stands: words copied, sectors of the file passed, and whether the next one could be read. */
  predicate LoopAt(fe: FileEntry, wordCount: Word, loaded: nat, sectorsRead: nat, readable: bool) {
    && loaded <= wordCount && sectorsRead <= fe.sectorCount && fe.startSector + sectorsRead <= SECTOR_COUNT
    && (loaded < wordCount ==> loaded == if sectorsRead == 0 then 0 else WORDS_PER_SECTOR * sectorsRead - HEADER_WORDS)
    && (loaded == wordCount ==> loaded <= Loadable(fe))
    && (loaded < wordCount && sectorsRead < fe.sectorCount ==>
          (readable <==> fe.startSector + sectorsRead < SECTOR_COUNT))
  }

  lemma LoopEnds(fe: FileEntry, wordCount: Word, loaded: nat, sectorsRead: nat, readable: bool)
    requires LoopAt(fe, wordCount, loaded, sectorsRead, readable)
    requires loaded == wordCount || sectorsRead == fe.sectorCount || !readable
    requires wordCount > 0 && fe.startSector < SECTOR_COUNT
    ensures loaded == if fe.sectorCount == 0 then 0 else Min(wordCount, Loadable(fe))
  {
  }

  /** The outer loop: sector after sector until the program, the file or the disk ends. */
  method CopyImage(disk: HardDisk, buf: array<Byte>, vm: Interpreter, h: Header, fe: FileEntry)
    returns (loaded: nat)
    requires disk.Valid() && vm.Valid() && buf.Length == SECTOR_SIZE
    requires buf != vm.memoryCells && disk as object != vm
    requires !disk.busy && fe.startSector < SECTOR_COUNT && buf[..] == disk.storage[fe.startSector]
    requires GoodHeader(h)
    modifies disk, buf, vm.memoryCells
    ensures disk.State() == old(disk.State())
    ensures loaded == if fe.sectorCount == 0 then 0 else Min(h.wordCount, Loadable(fe))
    ensures Progress(vm.memoryCells[..], old(vm.memoryCells[..]), disk.storage[..], fe.startSector, h.loadAddress,
                     loaded)
  {
    hide Progress;
    ghost var mem0: VmMemory := vm.memoryCells[..];
    ghost var storage: Storage := disk.storage[..];
    ghost var start := fe.startSector;
    loaded := 0;
    var byteOffset := 2 * HEADER_WORDS;
    var sector := fe.startSector;
    var sectorsRead := 0;
    var readable := true;
    NothingCopied(mem0, storage, start, h.loadAddress);
    while loaded < h.wordCount && sectorsRead < fe.sectorCount && readable
      invariant disk.State() == DiskState(storage, false)
      invariant LoopAt(fe, h.wordCount, loaded, sectorsRead, readable)
      invariant Progress(vm.memoryCells[..], mem0, storage, start, h.loadAddress, loaded)
      invariant readable && loaded < h.wordCount && sectorsRead < fe.sectorCount ==>
                  sector == start + sectorsRead && buf[..] == storage[sector]
      invariant byteOffset == if sectorsRead == 0 then 2 * HEADER_WORDS else 0
      decreases h.wordCount - loaded, if readable then 1 else 0
    {
      loaded := CopyFromSector(buf, vm, h, byteOffset, loaded, mem0, storage, start, sectorsRead);
      if loaded >= h.wordCount { break; }
      sector := Wrap16(sector + 1);
      sectorsRead := sectorsRead + 1;
      byteOffset := 0;
      readable := disk.ReadDisk(sector, buf);
    }
    LoopEnds(fe, h.wordCount, loaded, sectorsRead, readable);
  }

  lemma NothingCopied(mem0: VmMemory, storage: Storage, start: Word, la: Word)
    ensures Progress(mem0, mem0, storage, start, la, 0)
  {
    assert ImageWords(storage, start, 0) == [];
    assert PutWords(mem0, la, []) == mem0;
  }

  /** What must hold before any word is copied. */
  predicate Opens(d: DiskState, files: seq<FileEntry>, fileId: Word) {
    && FindFile(files, fileId).Some?
    && var start := FindFile(files, fileId).value.startSector;
    && Ready(d, start)
    && GoodHeader(ReadHeader(d.storage[start]))
  }

  /** Finds the file, reads its first sector and checks the header. */
  method OpenImage(disk: HardDisk, table: FileTable, fileId: Word, buf: array<Byte>)
    returns (ok: bool, fe: FileEntry, h: Header)
    requires disk.Valid() && table as object != disk && buf.Length == SECTOR_SIZE
    modifies disk, buf
    ensures disk.State() == old(disk.State())
    ensures ok == Opens(old(disk.State()), table.files, fileId)
    ensures ok ==>
              && fe == FindFile(table.files, fileId).value
              && buf[..] == disk.storage[fe.startSector] && h == ReadHeader(disk.storage[fe.startSector])
  {
    ok, fe, h := false, FileEntry(0, 0, 0), Header(0, 0, 0);
    var entry := table.Find(fileId);
    if entry.None? { return; }
    fe := entry.value;
    var readable := disk.ReadDisk(fe.startSector, buf);
    if !readable { return; }
    h := ReadHeader(buf[..]);
    if h.wordCount == 0 || !AddressFits(h.loadAddress, h.wordCount) { return; }
    if h.entryOffset >= h.wordCount { return; }
    ok := true;
  }

  method StartProcessor(vm: Interpreter, h: Header)
    requires vm.Valid() && GoodHeader(h)
    modifies vm, vm.R
    ensures vm.State() == old(Started(vm.State(), h))
  {
    vm.PC := h.loadAddress + h.entryOffset * 2;
    vm.ClearRegisters();
    vm.SF := 0;
    vm.SI := SI_NONE;
    vm.trapCode, vm.trapR0, vm.trapR1, vm.trapR2 := SI_NONE, 0, 0, 0;
  }

  lemma LoadFileParts(vm: Vm, d: DiskState, files: seq<FileEntry>, fileId: Word)
    ensures !Opens(d, files, fileId) ==> !LoadSucceeds(d, files, fileId) && LoadFile(vm, d, files, fileId) == vm
    ensures LoadSucceeds(d, files, fileId) ==>
              Opens(d, files, fileId) &&
              LoadFile(vm, d, files, fileId) ==
              Started(vm.(memory := LoadedMemory(vm.memory, d, files, fileId)),
                      ReadHeader(d.storage[FindFile(files, fileId).value.startSector]))
  {
  }

  /** Loads a file into a virtual machine: exactly `LoadFile`, successful exactly when `LoadSucceeds`. */
  method LoaderLoadFile(disk: HardDisk, vm: Interpreter, table: FileTable, fileId: Word) returns (ok: bool)
    requires disk.Valid() && vm.Valid() && disk as object != vm && table as object != disk
    modifies disk, vm, vm.memoryCells, vm.R
    ensures disk.State() == old(disk.State())
    ensures ok == LoadSucceeds(old(disk.State()), table.files, fileId)
    ensures vm.State() == LoadFile(old(vm.State()), old(disk.State()), table.files, fileId)
  {
    ghost var d := disk.State();
    ghost var vm0 := vm.State();
    LoadFileParts(vm0, d, table.files, fileId);
    var sectorBuf := new Byte[SECTOR_SIZE](i => 0);
    var found, fe, h := OpenImage(disk, table, fileId, sectorBuf);
    if !found {
      assert vm.State() == vm0;
      return false;
    }
    SucceedsWhenComplete(d, table.files, fileId);
    var loaded := CopyImage(disk, sectorBuf, vm, h, fe);
    ProgressMeansLoaded(vm.memoryCells[..], vm0.memory, d, table.files, fileId);
    assert vm.State() == vm0.(memory := LoadedMemory(vm0.memory, d, table.files, fileId));
    if loaded != h.wordCount { return false; }
    StartProcessor(vm, h);
    return true;
  }

  lemma ProgressMeansLoaded(mem: seq<Byte>, mem0: VmMemory, d: DiskState, files: seq<FileEntry>, fileId: Word)
    requires FindFile(files, fileId).Some?
    requires
      var start := FindFile(files, fileId).value.startSector;
      && Ready(d, start) && GoodHeader(ReadHeader(d.storage[start]))
      && Progress(mem, mem0, d.storage, start, ReadHeader(d.storage[start]).loadAddress,
                  WordsWritten(d, files, fileId))
    ensures mem == LoadedMemory(mem0, d, files, fileId)
  {
    if WordsWritten(d, files, fileId) == 0 {
      var start := FindFile(files, fileId).value.startSector;
      assert ImageWords(d.storage, start, 0) == [];
      assert PutWords(mem0, ReadHeader(d.storage[start]).loadAddress, []) == mem0;
    }
  }
}
