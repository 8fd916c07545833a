/**
  The program image as bytes, and both loaders measured against it: an image
  written from a program, its entry point and its load address arrives as that
  program, at that address, with the processor at that entry point.
  */
module ImageFormat {
  import opened Words
  import opened Isa
  import opened Disk
  import opened RealMachine
  import opened VirtualMachine
  import opened Loader
  import opened ImageLoader

  // The format

  /** Each word as two bytes, low byte first. */
  function Bytes(words: seq<Word>): (res: seq<Byte>)
    ensures |res| == 2 * |words|
  {
    seq(2 * |words|, b requires 0 <= b < 2 * |words| =>
      if b % 2 == 0 then words[b / 2] % 256 else words[b / 2] / 256)
  }

  /** A program of the given words with its entry point, counted in words, and the address it is to be loaded at. */
  datatype Program = Program(words: seq<Word>, entry: Word, loadAddress: Word)

  predicate Writable(p: Program) {
    0 < |p.words| <= 0xFFFF
  }

  /** The image of a program: the word count, the entry, the load address, and the words. */
  function Image(p: Program): seq<Byte>
    requires Writable(p)
  {
    Bytes([|p.words|, p.entry, p.loadAddress] + p.words)
  }

  /** The bytes stand on the disk from the sector `start` on, sixteen to a sector. */
  predicate StandsAt(storage: Storage, start: Word, bytes: seq<Byte>) {
    forall b :: 0 <= b < |bytes| ==>
      start + b / 16 < SECTOR_COUNT && storage[start + b / 16][b % 16] == bytes[b]
  }

  // Reading it back

  /** The two bytes of word `i`. */
  lemma TwoBytes(words: seq<Word>, i: nat)
    requires i < |words|
    ensures Bytes(words)[2 * i] == words[i] % 256 && Bytes(words)[2 * i + 1] == words[i] / 256
  {
    assert (2 * i) / 2 == i && (2 * i + 1) / 2 == i && (2 * i) % 2 == 0 && (2 * i + 1) % 2 == 1;
  }

  /** Word `i` of what stands on the disk, eight to a sector. */
  lemma WordStands(storage: Storage, start: Word, words: seq<Word>, i: nat)
    requires StandsAt(storage, start, Bytes(words)) && i < |words|
    ensures start + i / 8 < SECTOR_COUNT
    ensures Le16(storage[start + i / 8], i % 8 * 2) == words[i]
  {
    TwoBytes(words, i);
    assert (2 * i) / 16 == i / 8 && (2 * i) % 16 == i % 8 * 2;
    assert (2 * i + 1) / 16 == i / 8 && (2 * i + 1) % 16 == i % 8 * 2 + 1;
  }

  lemma HeaderStands(d: DiskState, start: Word, p: Program)
    requires Writable(p) && StandsAt(d.storage, start, Image(p))
    ensures start < SECTOR_COUNT
    ensures ReadHeader(d.storage[start]) == Header(|p.words|, p.entry, p.loadAddress)
  {
    var all := [|p.words|, p.entry, p.loadAddress] + p.words;
    WordStands(d.storage, start, all, 0);
    WordStands(d.storage, start, all, 1);
    WordStands(d.storage, start, all, 2);
  }

  lemma WordsStand(storage: Storage, start: Word, p: Program)
    requires Writable(p) && StandsAt(storage, start, Image(p))
    ensures OnDisk(start, |p.words| - 1) && ImageWords(storage, start, |p.words|) == p.words
  {
    var all := [|p.words|, p.entry, p.loadAddress] + p.words;
    WordStands(storage, start, all, |p.words| + 2);
    forall i | 0 <= i < |p.words|
      ensures OnDisk(start, i) && ImageWord(storage, start, i) == p.words[i]
    {
      WordStands(storage, start, all, i + 3);
      assert all[i + 3] == p.words[i];
    }
  }

  // The two loaders

  /** The program fits into virtual memory, and its entry point is one of its words. */
  predicate FitsVm(p: Program) {
    p.loadAddress + 2 * |p.words| <= 255 && p.entry < |p.words|
  }

  /** Virtual memory with the program in it, high bytes first, and every other byte kept. */
  predicate VmProgram(before: VmMemory, after: VmMemory, p: Program)
    requires p.loadAddress + 2 * |p.words| <= 255
  {
    && (forall i :: 0 <= i < |p.words| ==>
          && after[p.loadAddress + 2 * i] == p.words[i] / 256
          && after[p.loadAddress + 2 * i + 1] == p.words[i] % 256)
    && (forall b :: 0 <= b < 255 && !(p.loadAddress <= b < p.loadAddress + 2 * |p.words|) ==> after[b] == before[b])
  }

  /** The registered file holds the image of the program. */
  predicate HoldsImage(d: DiskState, files: seq<FileEntry>, fileId: Word, p: Program)
    requires Writable(p)
  {
    && FindFile(files, fileId).Some? && !d.busy
    && StandsAt(d.storage, FindFile(files, fileId).value.startSector, Image(p))
  }

  /** How many words of the program the file's sectors hold, eight to a sector after the header's three. */
  function Covered(p: Program, sectors: Word): (n: nat)
    ensures n <= |p.words|
  {
    if 8 * sectors as int < 3 then 0 else Min(|p.words|, 8 * sectors as int - 3)
  }

  /** The first words of a program. */
  function Prefix(p: Program, n: nat): Program
    requires n <= |p.words|
  {
    p.(words := p.words[..n])
  }

  lemma Placed(mem: VmMemory, p: Program)
    requires p.loadAddress + 2 * |p.words| <= 255
    ensures VmProgram(mem, PutWords(mem, p.loadAddress, p.words), p)
  {
    forall i | 0 <= i < |p.words|
      ensures PutByte(mem, p.loadAddress, p.words, p.loadAddress + 2 * i) == p.words[i] / 256
      ensures PutByte(mem, p.loadAddress, p.words, p.loadAddress + 2 * i + 1) == p.words[i] % 256
    {
      assert (2 * i) / 2 == i && (2 * i + 1) / 2 == i;
    }
  }

  lemma LoadedPrefix(mem: VmMemory, d: DiskState, files: seq<FileEntry>, fileId: Word, p: Program)
    requires Writable(p) && HoldsImage(d, files, fileId, p) && FitsVm(p)
    ensures
      var n := Covered(p, FindFile(files, fileId).value.sectorCount);
      && WordsWritten(d, files, fileId) == n
      && LoadedMemory(mem, d, files, fileId) == PutWords(mem, p.loadAddress, Prefix(p, n).words)
  {
    hide StandsAt, Image, ReadHeader;
    var fe := FindFile(files, fileId).value;
    HeaderStands(d, fe.startSector, p);
    WordsStand(d.storage, fe.startSector, p);
    var n := Covered(p, fe.sectorCount);
    FirstWords(d.storage, fe.startSector, p, n);
    assert PutWords(mem, p.loadAddress, []) == mem;
  }

  /** The image ends on the disk, so its sectors are all there. */
  lemma FirstWords(storage: Storage, start: Word, p: Program, n: nat)
    requires Writable(p) && OnDisk(start, |p.words| - 1) && ImageWords(storage, start, |p.words|) == p.words
    requires n <= |p.words|
    ensures n > 0 ==> OnDisk(start, n - 1) && ImageWords(storage, start, n) == p.words[..n]
  {
  }

  /**
    Image round trip into a virtual machine. Write the image of any program into
    a registered file. Loading succeeds if and only if the program fits into
    memory, its entry point is one of its words, and the file's sectors cover the
    image. Then every word stands high byte first at its place from the load
    address on, no other byte changed, and the machine starts afresh at the entry
    point. If only the sectors fall short, the words they hold are in place all
    the same, and the processor is as it was; otherwise a failed load changes
    nothing.
    */
  lemma VmRoundTrip(vm: Vm, d: DiskState, files: seq<FileEntry>, fileId: Word, p: Program)
    requires Writable(p) && HoldsImage(d, files, fileId, p)
    ensures
      var sectors := FindFile(files, fileId).value.sectorCount;
      var vm' := LoadFile(vm, d, files, fileId);
      && (LoadSucceeds(d, files, fileId) <==> FitsVm(p) && Covered(p, sectors) == |p.words|)
      && if !FitsVm(p) then vm' == vm
         else
           && VmProgram(vm.memory, vm'.memory, Prefix(p, Covered(p, sectors)))
           && vm' == if Covered(p, sectors) == |p.words| then
                Vm(vm'.memory, ZERO_REGISTERS, p.loadAddress + 2 * p.entry, 0, 0, 0, 0, 0, 0)
              else vm.(memory := vm'.memory)
  {
    hide StandsAt, Image, ImageWords, ReadHeader, PutWords, VmProgram;
    var fe := FindFile(files, fileId).value;
    HeaderStands(d, fe.startSector, p);
    WordsStand(d.storage, fe.startSector, p);
    if FitsVm(p) {
      LoadedPrefix(vm.memory, d, files, fileId, p);
      Placed(vm.memory, Prefix(p, Covered(p, fe.sectorCount)));
    }
  }

  /**
    Image round trip into the Real Machine, at any address the caller chooses.
    Loading succeeds if and only if two bytes for every word fit below 256 from
    there on and the entry point is one of the words. Then the words stand one to
    a cell, no other cell changed, and only the counter moved, to the entry
    point. Otherwise nothing changes.
    */
  lemma RmRoundTrip(rm: Rm, d: DiskState, start: Word, la: Word, p: Program)
    requires Writable(p) && !d.busy && StandsAt(d.storage, start, Image(p))
    ensures ImageLoads(d, start, la) <==> la + 2 * |p.words| <= 255 && p.entry < |p.words|
    ensures
      var rm' := LoadImage(rm, d, start, la);
      if la + 2 * |p.words| <= 255 && p.entry < |p.words| then
        && (forall i :: 0 <= i < |p.words| ==> rm'.cells[la + i] == p.words[i])
        && (forall a :: 0 <= a < MEMORY_SIZE && !(la <= a < la + |p.words|) ==> rm'.cells[a] == rm.cells[a])
        && rm'.cpu == rm.cpu.(ic := la + p.entry)
      else rm' == rm
  {
    HeaderStands(d, start, p);
    WordsStand(d.storage, start, p);
    if ImageLoads(d, start, la) {
      RmLoaded(rm, d, start, la);
    }
  }
}
