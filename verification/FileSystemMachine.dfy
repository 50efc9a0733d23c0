/** Directory, FileHeader and FileSystem as the program they are: tables and bitmaps fetched from the
    disk, searched and changed in place, and written back. Every method does what FileSystem says. */
module FileSystemMachine {
  import opened Bits
  import opened Bytes
  import opened Disk
  import opened FileCodec
  import opened FreeMap
  import opened FileSystem
  import opened FileSystemRuns
  import opened OpenFiles
  import opened Seqs

  class Directory {
    const table: array<Entry>

    ghost predicate Valid() { table.Length == DIR_ENTRIES }

    ghost function Contents(): Table
      requires Valid()
      reads table
    {
      table[..]
    }

    constructor ()
      ensures Valid() && fresh(table)
    {
      table := new Entry[DIR_ENTRIES](_ => Entry(false, 0, seq(NAME_LENGTH, i => 0)));
    }

    method Index(key: Name) returns (index: int)
      requires Valid()
      ensures index == FindIndex(Contents(), key, 0)
    {
      var i := 0;
      while i < table.Length
        invariant 0 <= i <= table.Length && FindIndex(table[..], key, 0) == FindIndex(table[..], key, i)
      {
        if table[i].inUse && table[i].name == key { return i; }
        i := i + 1;
      }
      return -1;
    }

    method Find(key: Name) returns (sector: int)
      requires Valid()
      ensures sector == FindSector(Contents(), key)
    {
      var i := Index(key);
      if i != -1 { return table[i].sector; }
      return -1;
    }

    method Add(key: Name, sector: int) returns (ok: bool)
      requires Valid()
      modifies table
      ensures var i := FreeIndex(old(Contents()), 0);
              && ok == (FindIndex(old(Contents()), key, 0) == -1 && i != -1)
              && Contents() == if ok then old(Contents())[i := Entry(true, sector, key)] else old(Contents())
    {
      var found := Index(key);
      if found != -1 { return false; }
      var i := 0;
      while i < table.Length
        invariant 0 <= i <= table.Length && table[..] == old(table[..]) && FreeIndex(table[..], 0) == FreeIndex(table[..], i)
      {
        if !table[i].inUse {
          table[i] := Entry(true, sector, key);
          return true;
        }
        i := i + 1;
      }
      return false;
    }

    method Remove(key: Name) returns (ok: bool)
      requires Valid()
      modifies table
      ensures var i := FindIndex(old(Contents()), key, 0);
              && ok == (i != -1)
              && Contents() == if ok then old(Contents())[i := old(Contents())[i].(inUse := false)] else old(Contents())
    {
      var i := Index(key);
      if i == -1 { return false; }
      table[i] := table[i].(inUse := false);
      return true;
    }

    method FetchFrom(file: OpenFile)
      requires Valid() && file.Valid() && file.hdr.numBytes == DIR_SIZE
      modifies table
      ensures Contents() == DecodeTable(Disk.Contents(old(file.Image()), file.hdr))
    {
      var bytes, n := file.ReadAt(DIR_SIZE, 0);
      assert bytes == Disk.Contents(file.Image(), file.hdr);
      for i := 0 to DIR_ENTRIES
        invariant forall k :: 0 <= k < i ==> table[k] == DecodeTable(bytes)[k]
      {
        table[i] := EntryOf(bytes[ENTRY_SIZE * i..ENTRY_SIZE * i + ENTRY_SIZE]);
      }
    }

    method WriteBack(file: OpenFile, fill: Sector)
      requires Valid() && file.Valid()
      modifies file.disk
      ensures file.Image() == SaveTable(old(file.Image()), file.hdr, old(Contents()), fill)
    {
      var n := file.WriteAt(EncodeTable(table[..]), DIR_SIZE, 0, fill);
    }
  }

  /** BitMap::FetchFrom: the words, bit by bit. */
  method FetchMap(file: OpenFile) returns (freeMap: BitMap)
    requires file.Valid() && file.hdr.numBytes == SECTOR_SIZE
    ensures fresh(freeMap) && fresh(freeMap.words) && freeMap.Valid() && freeMap.numBits == NUM_SECTORS
    ensures freeMap.Contents() == DecodeMap(Disk.Contents(file.Image(), file.hdr))
  {
    hide Unpacked, UnpackBits;
    var bytes, n := file.ReadAt(SECTOR_SIZE, 0);
    assert bytes == Disk.Contents(file.Image(), file.hdr);
    var memory := new bv32[32];
    freeMap := new BitMap(NUM_SECTORS, memory);
    var marks := DecodeMap(bytes);
    for i := 0 to NUM_SECTORS
      invariant fresh(freeMap.words) && freeMap.Valid()
      invariant forall k :: 0 <= k < NUM_SECTORS ==> freeMap.Contents()[k] == (k < i && marks[k])
    {
      if marks[i] { freeMap.Mark(i); }
    }
  }

  /** BitMap::WriteBack. */
  method StoreMap(freeMap: BitMap, file: OpenFile, fill: Sector)
    requires freeMap.Valid() && freeMap.numBits == NUM_SECTORS && file.Valid()
    modifies file.disk
    ensures file.Image() == SaveMap(old(file.Image()), file.hdr, old(freeMap.Contents()), fill)
  {
    hide Unpacked;
    var marks := [];
    for i := 0 to NUM_SECTORS
      invariant |marks| == i && file.Image() == old(file.Image()) && forall k :: 0 <= k < i ==> marks[k] == freeMap.Contents()[k]
    {
      var taken := freeMap.Test(i);
      marks := marks + [taken];
    }
    assert marks == freeMap.Contents();
    var n := file.WriteAt(EncodeMap(marks), SECTOR_SIZE, 0, fill);
  }

  lemma RoundUpBound(size: int)
    requires size <= MAX_FILE_SIZE
    ensures DivRoundUp(size, SECTOR_SIZE) <= NUM_DIRECT
  {
  }

  /** dataSectors after i rounds of Allocate's loop. */
  ghost function Filled(bits: seq<bool>, junk: seq<int>, i: nat): (r: seq<int>)
    requires i <= |junk|
    ensures |r| == |junk|
  {
    Take(bits, i).1 + junk[i..]
  }

  lemma FilledNone(bits: seq<bool>, junk: seq<int>)
    ensures Take(bits, 0).0 == bits && Filled(bits, junk, 0) == junk
  {
    assert [] + junk[0..] == junk;
  }

  lemma FilledStep(bits: seq<bool>, junk: seq<int>, i: nat, f: int)
    requires i < |junk| && f == FirstClear(Take(bits, i).0, 0)
    ensures Take(bits, i + 1).0 == if f == -1 then Take(bits, i).0 else Take(bits, i).0[f := true]
    ensures Filled(bits, junk, i + 1) == Filled(bits, junk, i)[i := f]
  {
  }

  lemma FilledAll(bits: seq<bool>, junk: seq<int>, n: int)
    requires n <= |junk|
    ensures Take(bits, n).0 == Take(bits, if n < 0 then 0 else n).0
    ensures Filled(bits, junk, if n < 0 then 0 else n) == Take(bits, n).1 + junk[|Take(bits, n).1|..]
  {
  }

  class FileHeader {
    var h: Header

    constructor (h: Header)
      ensures this.h == h
    {
      this.h := h;
    }

    /** FileHeader::Allocate, over whatever the header's memory held. When there are too few sectors the two
        sizes have been set already; nothing else has changed. */
    method Allocate(freeMap: BitMap, size: int) returns (ok: bool)
      requires freeMap.Valid() && freeMap.numBits == NUM_SECTORS && size <= MAX_FILE_SIZE && |h.slots| == NUM_DIRECT
      modifies this, freeMap.words
      ensures match FreeMap.Allocate(old(freeMap.Contents()), size, old(h.slots))
              case None =>
                && !ok && freeMap.Contents() == old(freeMap.Contents())
                && h == old(h).(numBytes := size, numSectors := DivRoundUp(size, SECTOR_SIZE))
              case Some(r) => ok && freeMap.Contents() == r.0 && h == r.1
    {
      hide Unpacked, DivRoundUp, Data;
      RoundUpBound(size);
      h := h.(numBytes := size, numSectors := DivRoundUp(size, SECTOR_SIZE));
      var clear := freeMap.NumClear();
      if clear < h.numSectors { return false; }
      FillSlots(freeMap, h.numSectors);
      return true;
    }

    /** The loop of Allocate. */
    method FillSlots(freeMap: BitMap, n: int)
      requires freeMap.Valid() && |h.slots| == NUM_DIRECT && n <= NUM_DIRECT
      modifies this, freeMap.words
      ensures var (b, q) := Take(old(freeMap.Contents()), n);
              freeMap.Contents() == b && h == old(h).(slots := q + old(h.slots)[|q|..])
    {
      hide *;
      ghost var was := freeMap.Contents();
      ghost var junk := h.slots;
      FilledNone(was, junk);
      var i := 0;
      while i < n
        invariant 0 <= i && (i <= n || i == 0)
        invariant freeMap.Contents() == Take(was, i).0 && h == old(h).(slots := Filled(was, junk, i))
      {
        var f := freeMap.Find();
        FilledStep(was, junk, i, f);
        h := h.(slots := h.slots[i := f]);
        i := i + 1;
      }
      FilledAll(was, junk, n);
    }

    /** FileHeader::Deallocate. Its ASSERT is the precondition. */
    method Deallocate(freeMap: BitMap)
      requires freeMap.Valid() && freeMap.numBits == NUM_SECTORS && |h.slots| == NUM_DIRECT && h.numSectors <= NUM_DIRECT
      requires forall j :: 0 <= j < |Data(h)| ==> 0 <= Data(h)[j] < NUM_SECTORS && freeMap.Contents()[Data(h)[j]]
      requires Distinct(Data(h))
      modifies freeMap.words
      ensures freeMap.Contents() == ClearAll(old(freeMap.Contents()), Data(h))
    {
      hide Unpacked;
      ghost var was := freeMap.Contents();
      var i := 0;
      while i < h.numSectors
        invariant 0 <= i && (i <= h.numSectors || i == 0)
        invariant freeMap.Contents() == ClearAll(was, Data(h)[..i])
      {
        ClearAllAt(was, Data(h)[..i]);
        assert Data(h)[i] == h.slots[i] && Data(h)[i] !in Data(h)[..i];
        var marked := freeMap.Test(h.slots[i]);
        assert marked;
        freeMap.Clear(h.slots[i]);
        assert Data(h)[..i + 1][..i] == Data(h)[..i];
        i := i + 1;
      }
      assert Data(h)[..i] == Data(h);
    }
  }

  class Files {
    const disk: array<Sector>
    const freeMapFile: OpenFile
    const directoryFile: OpenFile

    ghost predicate Valid()
    {
      && disk.Length == NUM_SECTORS && freeMapFile.disk == disk && directoryFile.disk == disk
      && freeMapFile.Valid() && freeMapFile.hdr.numBytes == SECTOR_SIZE
      && directoryFile.Valid() && directoryFile.hdr.numBytes == DIR_SIZE
    }

    ghost function State(): Mounted
      requires Valid()
      reads disk
    {
      Mounted(disk[..], freeMapFile.hdr, directoryFile.hdr)
    }

    /** FileSystem(FALSE): open the system files of a formatted disk. */
    constructor (disk: array<Sector>)
      requires disk.Length == NUM_SECTORS && SystemFiles(Mount(disk[..]))
      ensures Valid() && this.disk == disk && State() == Mount(disk[..])
    {
      this.disk := disk;
      freeMapFile := new OpenFile(disk, DecodeHeader(disk[FREE_MAP_SECTOR]));
      directoryFile := new OpenFile(disk, DecodeHeader(disk[DIRECTORY_SECTOR]));
    }

    /** FileSystem::Create. */
    method Create(name: seq<Byte>, size: int, noise: Noise) returns (ok: bool)
      requires Valid() && size <= MAX_FILE_SIZE && NoiseOk(noise)
      modifies disk
      ensures (State(), ok) == CreateFile(old(State()), name, size, noise)
    {
      hide DecodeMap, DecodeTable, Disk.Contents, SaveMap, SaveTable, EncodeHeader, Unpacked, FreeMap.Allocate;
      var directory := new Directory();
      directory.FetchFrom(directoryFile);
      ghost var table := directory.Contents();
      var sector := directory.Index(Key(name));
      if sector != -1 { return false; }
      var freeMap := FetchMap(freeMapFile);
      ghost var marks := freeMap.Contents();
      sector := freeMap.Find();
      if sector == -1 { return false; }
      var added := directory.Add(Key(name), sector);
      if !added { return false; }
      var hdr := new FileHeader(Header(0, 0, noise.junk));
      ok := hdr.Allocate(freeMap, size);
      if !ok { return; }
      ghost var p := PlanCreate(marks, table, Key(name), size, noise.junk).value;
      PlanFresh(marks, table, Key(name), size, noise.junk, p);
      disk[sector] := EncodeHeader(hdr.h);
      directory.WriteBack(directoryFile, noise.f1);
      StoreMap(freeMap, freeMapFile, noise.f2);
    }

    /** FileSystem::Open. */
    method Open(name: seq<Byte>) returns (file: OpenFile?)
      requires Valid() && Ready(State())
      ensures file == null <==> Opened(State(), name).None?
      ensures file != null ==> fresh(file) && file.Valid() && file.disk == disk && file.hdr == Opened(State(), name).value && file.seekPosition == 0
    {
      hide DecodeMap, DecodeTable, Disk.Contents, EncodeHeader, DecodeHeader, Sound, Key;
      OpenFinds(State(), name);
      FoundInRange(State(), name);
      var directory := new Directory();
      directory.FetchFrom(directoryFile);
      var sector := directory.Find(Key(name));
      file := null;
      if sector >= 0 { file := new OpenFile(disk, DecodeHeader(disk[sector])); }
    }

    /** Fetch the free map and give back the header and data sectors of the file in entry i. */
    method FreeSectors(name: seq<Byte>, i: int, sector: int) returns (freeMap: BitMap)
      requires Valid() && Ready(State())
      requires var v := ViewOf(State()); i == FindIndex(v.table, Key(name), 0) != -1 && sector == v.table[i].sector
      ensures fresh(freeMap) && fresh(freeMap.words) && freeMap.Valid() && freeMap.numBits == NUM_SECTORS
      ensures freeMap.Contents() == FreeMap.Remove(ViewOf(State()), Key(name)).bits
    {
      hide DecodeMap, DecodeTable, Disk.Contents, EncodeHeader, DecodeHeader, Unpacked, Sound, ClearAll, LoadTable, Key, FindIndex;
      ghost var v := ViewOf(State());
      SectorsInRange(v, i);
      HeadersAt(State(), i);
      var hdr := new FileHeader(DecodeHeader(disk[sector]));
      freeMap := FetchMap(freeMapFile);
      forall j | 0 <= j < |Data(hdr.h)| ensures 0 <= Data(hdr.h)[j] < NUM_SECTORS && freeMap.Contents()[Data(hdr.h)[j]] {
        DeallocateFindsMarked(v, Key(name), j);
      }
      hdr.Deallocate(freeMap);
      freeMap.Clear(sector);
    }

    /** FileSystem::Remove. */
    method Remove(name: seq<Byte>, noise: Noise) returns (ok: bool)
      requires Valid() && Ready(State())
      modifies disk
      ensures (State(), ok) == RemoveFile(old(State()), name, noise)
    {
      hide DecodeMap, DecodeTable, Disk.Contents, SaveMap, SaveTable, EncodeHeader, DecodeHeader, Unpacked, Sound, ClearAll, Key;
      ghost var v := ViewOf(State());
      var directory := new Directory();
      directory.FetchFrom(directoryFile);
      var i := directory.Index(Key(name));
      if i == -1 { return false; }
      var freeMap := FreeSectors(name, i, directory.table[i].sector);
      var removed := directory.Remove(Key(name));
      RemovedTable(v, Key(name));
      StoreMap(freeMap, freeMapFile, noise.f2);
      directory.WriteBack(directoryFile, noise.f1);
      return true;
    }
  }
}
