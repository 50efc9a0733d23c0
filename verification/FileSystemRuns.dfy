/** Formatting gives a sound file system, every Create and Remove on the disk is the one of FreeMap,
    and so the free map is exact after any run. */
module FileSystemRuns {
  import opened Options
  import opened Bits
  import opened Bytes
  import opened Disk
  import opened FileCodec
  import opened FreeMap
  import opened FileSystem

  /** A sector that is not marked belongs to nobody. */
  lemma UnmarkedIsFree(v: View, s: int)
    requires Sound(v) && 0 <= s < NUM_SECTORS && !v.bits[s]
    ensures s !in [0, 1] && s !in Data(v.mapHdr) && s !in Data(v.dirHdr)
    ensures forall i :: 0 <= i < DIR_ENTRIES && v.table[i].inUse ==> s != v.table[i].sector && s !in Data(v.headers[i])
  {
    hide Data, HeadersOk, Disjoint, NamesDistinct;
    assert !HasOwner(v, s);
    assert s !in Owned(v, 0) && s !in Owned(v, 1) && s !in Owned(v, 2);
    forall i | 0 <= i < DIR_ENTRIES && v.table[i].inUse ensures s != v.table[i].sector && s !in Data(v.headers[i]) {
      assert s !in Owned(v, 3 + i);
      assert Owned(v, 3 + i) == [v.table[i].sector] + Data(v.headers[i]);
    }
  }

  /** The headers of the files are where the directory says. */
  lemma HeadersAt(fs: Mounted, i: int)
    requires Ready(fs) && 0 <= i < DIR_ENTRIES
    ensures ViewOf(fs).headers[i] == HeaderOf(fs.disk, ViewOf(fs).table[i])
  {
  }

  lemma HeaderKept(fs: Mounted, d: Image, i: int)
    requires Ready(fs) && 0 <= i < DIR_ENTRIES
    requires var v := ViewOf(fs); v.table[i].inUse && 0 <= v.table[i].sector < NUM_SECTORS ==> d[v.table[i].sector] == fs.disk[v.table[i].sector]
    ensures HeaderOf(d, ViewOf(fs).table[i]) == ViewOf(fs).headers[i]
  {
    HeadersAt(fs, i);
  }

  lemma SectorsInRange(v: View, i: int)
    requires Sound(v) && 0 <= i < DIR_ENTRIES && v.table[i].inUse
    ensures 0 <= v.table[i].sector < NUM_SECTORS && HeaderOk(v.headers[i])
  {
  }

  // ---- Create ----

  lemma PlanWritable(bits: Marks, table: Table, key: Name, size: int, n: Noise, p: Plan)
    requires size <= MAX_FILE_SIZE && NoiseOk(n) && Int32(size) && PlanCreate(bits, table, key, size, n.junk) == Some(p)
    ensures Writable(p.header)
  {
    hide HeaderOk, DivRoundUp;
    var marked := bits[p.sector := true];
    var (b, q) := Take(marked, DivRoundUp(size, SECTOR_SIZE));
    TakeFresh(marked, DivRoundUp(size, SECTOR_SIZE));
    RoundUpRange(size);
    assert p.header.slots == q + n.junk[|q|..];
    forall i | 0 <= i < NUM_DIRECT ensures Int32(p.header.slots[i]) {
      if i < |q| { assert 0 <= q[i] < |bits|; }
    }
  }

  lemma RoundUpRange(size: int)
    requires Int32(size) && size <= MAX_FILE_SIZE
    ensures Int32(DivRoundUp(size, SECTOR_SIZE)) && DivRoundUp(size, SECTOR_SIZE) <= NUM_DIRECT
  {
  }

  /** The disk after a successful Create, sector by sector. */
  lemma CreatedDisk(fs: Mounted, name: seq<Byte>, size: int, n: Noise, p: Plan)
    requires Ready(fs) && size <= MAX_FILE_SIZE && NoiseOk(n)
    requires PlanCreate(LoadMap(fs), LoadTable(fs), Key(name), size, n.junk) == Some(p)
    ensures 0 <= p.sector < NUM_SECTORS && |p.header.slots| == NUM_DIRECT
    ensures Saved(fs.disk[p.sector := EncodeHeader(p.header)], CreateFile(fs, name, size, n).0.disk, fs.mapHdr, fs.dirHdr, p.bits, p.table)
    ensures CreateFile(fs, name, size, n).0 == fs.(disk := CreateFile(fs, name, size, n).0.disk) && CreateFile(fs, name, size, n).1
  {
    hide PlanCreate, Sound, SaveMap, SaveTable, LoadMap, LoadTable, EncodeHeader, Key;
    PlanFresh(LoadMap(fs), LoadTable(fs), Key(name), size, n.junk, p);
    SystemApart(ViewOf(fs));
    forall i | 0 <= i < DIR_ENTRIES ensures Int32(p.table[i].sector) { TableInt32(fs, i); }
    SavedBoth(fs.disk[p.sector := EncodeHeader(p.header)], fs.mapHdr, fs.dirHdr, p.bits, p.table, n.f1, n.f2);
  }

  /** Where the planned sector is not, and what the rest of the disk keeps. */
  lemma CreatedElsewhere(fs: Mounted, name: seq<Byte>, size: int, n: Noise, p: Plan, k: int)
    requires Ready(fs) && size <= MAX_FILE_SIZE && NoiseOk(n)
    requires PlanCreate(LoadMap(fs), LoadTable(fs), Key(name), size, n.junk) == Some(p)
    requires 0 <= k < NUM_SECTORS && k != p.sector && k !in Data(fs.mapHdr) && k !in Data(fs.dirHdr)
    ensures CreateFile(fs, name, size, n).0.disk[k] == fs.disk[k]
  {
    hide PlanCreate, Sound, CreateFile, LoadMap, LoadTable, EncodeHeader, Key;
    CreatedDisk(fs, name, size, n, p);
  }

  lemma CreatedHeaders(fs: Mounted, name: seq<Byte>, size: int, n: Noise, p: Plan, i: int)
    requires Ready(fs) && size <= MAX_FILE_SIZE && NoiseOk(n) && Int32(size) && 0 <= i < DIR_ENTRIES
    requires PlanCreate(LoadMap(fs), LoadTable(fs), Key(name), size, n.junk) == Some(p)
    ensures HeaderOf(CreateFile(fs, name, size, n).0.disk, p.table[i]) == if i == p.index then p.header else ViewOf(fs).headers[i]
  {
    hide PlanCreate, Sound, CreateFile, LoadMap, LoadTable, EncodeHeader, Key, DecodeHeader;
    var v := ViewOf(fs);
    var d := CreateFile(fs, name, size, n).0.disk;
    PlanFresh(v.bits, v.table, Key(name), size, n.junk, p);
    PlanWritable(v.bits, v.table, Key(name), size, n, p);
    assert p.sector in [p.sector] + Data(p.header) && ([p.sector] + Data(p.header))[0] == p.sector;
    UnmarkedIsFree(v, p.sector);
    if i == p.index {
      CreatedDisk(fs, name, size, n, p);
      HeaderRoundTrip(p.header);
    } else if v.table[i].inUse {
      SectorsInRange(v, i);
      SystemApart(v);
      CreatedElsewhere(fs, name, size, n, p, v.table[i].sector);
      HeaderKept(fs, d, i);
    } else {
      HeaderKept(fs, d, i);
    }
  }

  /** Create on the disk is Create on what the disk says; when it fails, the disk is untouched. */
  lemma CreateOnDisk(fs: Mounted, name: seq<Byte>, size: int, n: Noise)
    requires Ready(fs) && size <= MAX_FILE_SIZE && NoiseOk(n) && Int32(size)
    ensures var (after, ok) := CreateFile(fs, name, size, n);
            && Ready(after) && ViewOf(after) == Create(ViewOf(fs), Key(name), size, n.junk)
            && (!ok ==> after == fs)
            && ok == PlanCreate(LoadMap(fs), LoadTable(fs), Key(name), size, n.junk).Some?
  {
    hide PlanCreate, Sound, LoadMap, LoadTable, EncodeHeader, Key, DecodeHeader, SaveMap, SaveTable, Owned;
    var v := ViewOf(fs);
    match PlanCreate(v.bits, v.table, Key(name), size, n.junk)
    case None =>
    case Some(p) =>
      CreatedView(fs, name, size, n, p);
      CreateKeeps(v, Key(name), size, n.junk);
  }

  lemma CreatedView(fs: Mounted, name: seq<Byte>, size: int, n: Noise, p: Plan)
    requires Ready(fs) && size <= MAX_FILE_SIZE && NoiseOk(n) && Int32(size)
    requires PlanCreate(LoadMap(fs), LoadTable(fs), Key(name), size, n.junk) == Some(p)
    ensures var after := CreateFile(fs, name, size, n).0;
            && after == fs.(disk := after.disk)
            && ViewOf(after) == Create(ViewOf(fs), Key(name), size, n.junk)
            && after.disk[0] == fs.disk[0] && after.disk[1] == fs.disk[1] && CreateFile(fs, name, size, n).1
  {
    hide PlanCreate, Sound, CreateFile, EncodeHeader, Key, DecodeHeader, HeaderOf;
    var v := ViewOf(fs);
    var after := CreateFile(fs, name, size, n).0;
    CreatedDisk(fs, name, size, n, p);
    PlanFresh(v.bits, v.table, Key(name), size, n.junk, p);
    assert ([p.sector] + Data(p.header))[0] == p.sector;
    UnmarkedIsFree(v, p.sector);
    SystemApart(v);
    CreatedElsewhere(fs, name, size, n, p, 0);
    CreatedElsewhere(fs, name, size, n, p, 1);
    forall i | 0 <= i < DIR_ENTRIES ensures HeadersOf(after.disk, p.table)[i] == v.headers[p.index := p.header][i] {
      CreatedHeaders(fs, name, size, n, p, i);
    }
    assert HeadersOf(after.disk, p.table) == v.headers[p.index := p.header];
  }

  // ---- Remove ----

  lemma RemovedDisk(fs: Mounted, name: seq<Byte>, n: Noise)
    requires Ready(fs) && FindIndex(ViewOf(fs).table, Key(name), 0) != -1
    ensures var w := Remove(ViewOf(fs), Key(name));
            && Saved(fs.disk, RemoveFile(fs, name, n).0.disk, fs.mapHdr, fs.dirHdr, w.bits, w.table)
            && RemoveFile(fs, name, n) == (fs.(disk := RemoveFile(fs, name, n).0.disk), true)
  {
    hide Sound, SaveMap, SaveTable, LoadMap, LoadTable, Key, ClearAll;
    var w := Remove(ViewOf(fs), Key(name));
    SystemApart(ViewOf(fs));
    forall i | 0 <= i < DIR_ENTRIES ensures Int32(w.table[i].sector) { TableInt32(fs, i); }
    SavedBoth(fs.disk, fs.mapHdr, fs.dirHdr, w.bits, w.table, n.f1, n.f2);
  }

  lemma RemovedHeaders(fs: Mounted, name: seq<Byte>, n: Noise, i: int)
    requires Ready(fs) && FindIndex(ViewOf(fs).table, Key(name), 0) != -1 && 0 <= i < DIR_ENTRIES
    ensures var w := Remove(ViewOf(fs), Key(name)); HeaderOf(RemoveFile(fs, name, n).0.disk, w.table[i]) == w.headers[i]
  {
    hide Sound, LoadMap, LoadTable, Key, ClearAll, RemoveFile, DecodeHeader;
    var v := ViewOf(fs);
    RemovedDisk(fs, name, n);
    SystemApart(v);
    if i != FindIndex(v.table, Key(name), 0) {
      if v.table[i].inUse { SectorsInRange(v, i); }
      HeaderKept(fs, RemoveFile(fs, name, n).0.disk, i);
    }
  }

  /** Remove on the disk is Remove on what the disk says. */
  lemma RemoveOnDisk(fs: Mounted, name: seq<Byte>, n: Noise)
    requires Ready(fs)
    ensures var (after, ok) := RemoveFile(fs, name, n);
            && Ready(after) && ViewOf(after) == Remove(ViewOf(fs), Key(name))
            && ok == (FindSector(ViewOf(fs).table, Key(name)) != -1) && (!ok ==> after == fs)
  {
    hide Sound, LoadMap, LoadTable, Key, ClearAll, SaveMap, SaveTable, EncodeHeader, Owned;
    var v := ViewOf(fs);
    var i := FindIndex(v.table, Key(name), 0);
    RemoveKeeps(v, Key(name));
    if i != -1 {
      SectorsInRange(v, i);
      RemovedView(fs, name, n);
    }
  }

  lemma RemovedView(fs: Mounted, name: seq<Byte>, n: Noise)
    requires Ready(fs) && FindIndex(ViewOf(fs).table, Key(name), 0) != -1
    ensures var after := RemoveFile(fs, name, n).0;
            && after == fs.(disk := after.disk) && RemoveFile(fs, name, n).1
            && ViewOf(after) == Remove(ViewOf(fs), Key(name))
            && after.disk[0] == fs.disk[0] && after.disk[1] == fs.disk[1]
  {
    hide Sound, Key, ClearAll, RemoveFile, HeaderOf;
    var w := Remove(ViewOf(fs), Key(name));
    var after := RemoveFile(fs, name, n).0;
    RemovedDisk(fs, name, n);
    SystemApart(ViewOf(fs));
    forall i | 0 <= i < DIR_ENTRIES ensures HeadersOf(after.disk, w.table)[i] == w.headers[i] { RemovedHeaders(fs, name, n, i); }
    assert HeadersOf(after.disk, w.table) == w.headers;
  }

  // ---- other files ----

  /** Creating a file leaves the bytes of every other file as they were. */
  lemma CreateKeepsFiles(fs: Mounted, name: seq<Byte>, size: int, n: Noise, i: int)
    requires Ready(fs) && size <= MAX_FILE_SIZE && NoiseOk(n) && 0 <= i < DIR_ENTRIES && ViewOf(fs).table[i].inUse
    ensures HeaderOk(ViewOf(fs).headers[i])
    ensures Contents(CreateFile(fs, name, size, n).0.disk, ViewOf(fs).headers[i]) == Contents(fs.disk, ViewOf(fs).headers[i])
  {
    hide PlanCreate, CreateFile, Contents, LoadMap, LoadTable, HeadersOf, Owned, Key;
    var v := ViewOf(fs);
    var h := v.headers[i];
    SectorsInRange(v, i);
    InRangeData(h);
    match PlanCreate(v.bits, v.table, Key(name), size, n.junk)
    case None => FailedCreate(fs, name, size, n);
    case Some(p) =>
      PlanFresh(v.bits, v.table, Key(name), size, n.junk, p);
      assert ([p.sector] + Data(p.header))[0] == p.sector;
      UnmarkedIsFree(v, p.sector);
      forall j | 0 <= j < |Data(h)| ensures CreateFile(fs, name, size, n).0.disk[Data(h)[j]] == fs.disk[Data(h)[j]] {
        DataApart(v, i, j);
        CreatedElsewhere(fs, name, size, n, p, Data(h)[j]);
      }
      ContentsFrame(fs.disk, CreateFile(fs, name, size, n).0.disk, h);
  }

  lemma FailedCreate(fs: Mounted, name: seq<Byte>, size: int, n: Noise)
    requires SystemFiles(fs) && size <= MAX_FILE_SIZE && NoiseOk(n)
    requires PlanCreate(LoadMap(fs), LoadTable(fs), Key(name), size, n.junk).None?
    ensures CreateFile(fs, name, size, n) == (fs, false)
  {
  }

  lemma DataApart(v: View, i: int, j: int)
    requires Sound(v) && 0 <= i < DIR_ENTRIES && v.table[i].inUse && 0 <= j < |Data(v.headers[i])|
    ensures Data(v.headers[i])[j] !in Data(v.mapHdr) && Data(v.headers[i])[j] !in Data(v.dirHdr)
  {
    hide Data, HeadersOk, MarksExact, NamesDistinct;
    EntryOwns(v, i, j);
    assert Owned(v, 1) == Data(v.mapHdr) && Owned(v, 2) == Data(v.dirHdr);
  }

  /** Removing a file leaves the bytes of every file as they were. */
  lemma RemoveKeepsFiles(fs: Mounted, name: seq<Byte>, n: Noise, i: int)
    requires Ready(fs) && 0 <= i < DIR_ENTRIES && ViewOf(fs).table[i].inUse
    ensures HeaderOk(ViewOf(fs).headers[i])
    ensures Contents(RemoveFile(fs, name, n).0.disk, ViewOf(fs).headers[i]) == Contents(fs.disk, ViewOf(fs).headers[i])
  {
    hide Contents, LoadMap, LoadTable, HeadersOf, Owned, Key, SaveMap, SaveTable;
    var v := ViewOf(fs);
    var h := v.headers[i];
    SectorsInRange(v, i);
    InRangeData(h);
    if FindIndex(v.table, Key(name), 0) != -1 {
      RemovedDisk(fs, name, n);
      forall j | 0 <= j < |Data(h)| ensures RemoveFile(fs, name, n).0.disk[Data(h)[j]] == fs.disk[Data(h)[j]] { DataApart(v, i, j); }
      ContentsFrame(fs.disk, RemoveFile(fs, name, n).0.disk, h);
    }
  }

  /** Open finds the header of the file with the name, if there is one. */
  lemma OpenFinds(fs: Mounted, name: seq<Byte>)
    requires Ready(fs)
    ensures var v := ViewOf(fs);
            var i := FindIndex(v.table, Key(name), 0);
            Opened(fs, name) == if i == -1 then None else Some(v.headers[i])
    ensures Opened(fs, name).Some? ==> HeaderOk(Opened(fs, name).value)
  {
    hide LoadMap, LoadTable, Key, DecodeHeader, Sound;
    var v := ViewOf(fs);
    var i := FindIndex(v.table, Key(name), 0);
    if i != -1 {
      SectorsInRange(v, i);
      HeadersAt(fs, i);
    }
  }

  lemma FoundInRange(fs: Mounted, name: seq<Byte>)
    requires Ready(fs)
    ensures -1 <= FindSector(ViewOf(fs).table, Key(name)) < NUM_SECTORS
  {
    hide LoadMap, LoadTable, Key, DecodeHeader, Sound;
    var i := FindIndex(ViewOf(fs).table, Key(name), 0);
    if i != -1 { SectorsInRange(ViewOf(fs), i); }
  }

  /** FileSystem::Open and then WriteAt. */
  ghost function PutFile(fs: Mounted, name: seq<Byte>, from: seq<Byte>, position: nat, fill: Sector): Mounted
    requires Ready(fs)
  {
    OpenFinds(fs, name);
    match Opened(fs, name)
    case None => fs
    case Some(h) => fs.(disk := WriteAt(fs.disk, h, from, |from|, position, fill))
  }

  /** FileSystem::Open and then ReadAt; None if there is no such file. */
  ghost function GetFile(fs: Mounted, name: seq<Byte>, numBytes: int, position: nat): Option<seq<Byte>>
    requires Ready(fs)
  {
    OpenFinds(fs, name);
    match Opened(fs, name)
    case None => None
    case Some(h) => Some(ReadSlice(fs.disk, h, numBytes, position))
  }

  /** A file's data sectors hold no header and no system file. */
  lemma DataIsPrivate(v: View, i: int, s: int)
    requires Sound(v) && 0 <= i < DIR_ENTRIES && v.table[i].inUse && s in Data(v.headers[i])
    ensures s !in [0, 1] && s !in Data(v.mapHdr) && s !in Data(v.dirHdr)
    ensures forall k :: 0 <= k < DIR_ENTRIES && v.table[k].inUse ==>
              s != v.table[k].sector && (k != i ==> s !in Data(v.headers[k]))
  {
    hide Data, HeadersOk, MarksExact, NamesDistinct;
    var j :| 0 <= j < |Data(v.headers[i])| && Data(v.headers[i])[j] == s;
    EntryOwns(v, i, j);
    assert Owned(v, 0) == [0, 1] && Owned(v, 1) == Data(v.mapHdr) && Owned(v, 2) == Data(v.dirHdr);
    forall k | 0 <= k < DIR_ENTRIES && v.table[k].inUse ensures s != v.table[k].sector && (k != i ==> s !in Data(v.headers[k])) {
      assert Owned(v, 3 + k) == [v.table[k].sector] + Data(v.headers[k]);
      assert Owned(v, 3 + k)[0] == v.table[k].sector;
      assert forall m :: 0 <= m < |Data(v.headers[k])| ==> Owned(v, 3 + k)[m + 1] == Data(v.headers[k])[m];
    }
  }

  /** Writing a file's bytes changes neither the free map nor the directory nor any header. */
  lemma PutOnDisk(fs: Mounted, name: seq<Byte>, from: seq<Byte>, position: nat, fill: Sector)
    requires Ready(fs)
    ensures var after := PutFile(fs, name, from, position, fill); Ready(after) && ViewOf(after) == ViewOf(fs)
  {
    hide WriteAt, Contents, DecodeMap, DecodeTable, DecodeHeader, EncodeHeader, Sound, Data, Key, Opened;
    var v := ViewOf(fs);
    var i := FindIndex(v.table, Key(name), 0);
    OpenFinds(fs, name);
    if i != -1 {
      SectorsInRange(v, i);
      var after := PutFile(fs, name, from, position, fill);
      forall s | 0 <= s < NUM_SECTORS && s !in Data(v.headers[i]) ensures after.disk[s] == fs.disk[s] {
        WriteTouchesOnlyFile(fs.disk, v.headers[i], from, |from|, position, fill, s);
      }
      PutElsewhere(fs, after.disk, i);
      assert HeadersOf(after.disk, v.table) == v.headers;
    }
  }

  lemma PutElsewhere(fs: Mounted, d: Image, i: int)
    requires Ready(fs) && 0 <= i < DIR_ENTRIES && ViewOf(fs).table[i].inUse
    requires forall s :: 0 <= s < NUM_SECTORS && s !in Data(ViewOf(fs).headers[i]) ==> d[s] == fs.disk[s]
    ensures Contents(d, fs.mapHdr) == Contents(fs.disk, fs.mapHdr) && Contents(d, fs.dirHdr) == Contents(fs.disk, fs.dirHdr)
    ensures d[0] == fs.disk[0] && d[1] == fs.disk[1]
    ensures forall k :: 0 <= k < DIR_ENTRIES ==> HeaderOf(d, ViewOf(fs).table[k]) == ViewOf(fs).headers[k]
  {
    hide Contents, DecodeMap, DecodeTable, DecodeHeader, EncodeHeader, Sound, Data, HeaderOk;
    var v := ViewOf(fs);
    forall s | s in Data(v.headers[i])
      ensures s !in [0, 1] && s !in Data(v.mapHdr) && s !in Data(v.dirHdr)
      ensures forall k :: 0 <= k < DIR_ENTRIES && v.table[k].inUse ==> s != v.table[k].sector
    {
      DataIsPrivate(v, i, s);
    }
    InRangeData(fs.mapHdr);
    InRangeData(fs.dirHdr);
    ContentsFrame(fs.disk, d, fs.mapHdr);
    ContentsFrame(fs.disk, d, fs.dirHdr);
    forall k | 0 <= k < DIR_ENTRIES ensures HeaderOf(d, v.table[k]) == v.headers[k] { HeaderKept(fs, d, k); }
  }

  /** Create and then Remove of the same name: the free map on the disk is restored bit for bit and
      the directory finds every name where it found it before. */
  lemma RestoredOnDisk(fs: Mounted, name: seq<Byte>, size: int, n: Noise, m: Noise)
    requires Ready(fs) && size <= MAX_FILE_SIZE && NoiseOk(n) && Int32(size) && CreateFile(fs, name, size, n).1
    ensures var (after, ok) := RemoveFile(CreateFile(fs, name, size, n).0, name, m);
            && ok && SystemFiles(after) && LoadMap(after) == LoadMap(fs)
            && forall other :: FindSector(LoadTable(after), other) == FindSector(LoadTable(fs), other)
  {
    hide CreateFile, RemoveFile, Sound, LoadMap, LoadTable, PlanCreate, HeadersOf, Key;
    CreateOnDisk(fs, name, size, n);
    var made := CreateFile(fs, name, size, n).0;
    RemoveOnDisk(made, name, m);
    RemoveUndoesCreate(ViewOf(fs), Key(name), size, n.junk);
    MadeIsFound(ViewOf(fs), Key(name), size, n.junk);
  }

  lemma MadeIsFound(v: View, key: Name, size: int, junk: seq<int>)
    requires Sound(v) && size <= MAX_FILE_SIZE && |junk| == NUM_DIRECT && PlanCreate(v.bits, v.table, key, size, junk).Some?
    ensures FindSector(Create(v, key, size, junk).table, key) != -1
  {
    hide PlanCreate, Sound;
    var p := PlanCreate(v.bits, v.table, key, size, junk).value;
    PlanFresh(v.bits, v.table, key, size, junk, p);
    FoundAfterCreate(v.table, p.index, p.sector, key);
  }

  // ---- formatting ----

  /** A new BitMap, with the two header sectors marked. */
  function SystemMarks(): (b: Marks)
    ensures forall s :: 0 <= s < NUM_SECTORS ==> (b[s] <==> s == FREE_MAP_SECTOR || s == DIRECTORY_SECTOR)
  {
    var b := seq<bool>(NUM_SECTORS, s => s == FREE_MAP_SECTOR || s == DIRECTORY_SECTOR);
    b
  }

  ghost predicate EmptyTable(t: Table) {
    forall i :: 0 <= i < DIR_ENTRIES ==> !t[i].inUse && Int32(t[i].sector)
  }

  /** FileSystem(TRUE); None if one of its two ASSERTs fails. */
  ghost function Format(d: Image, t: Table, junk: seq<int>, n: Noise): Option<Mounted>
    requires |junk| == NUM_DIRECT && NoiseOk(n)
  {
    match Allocate(SystemMarks(), SECTOR_SIZE, junk)
    case None => None
    case Some((b1, mapHdr)) =>
      match Allocate(b1, DIR_SIZE, n.junk)
      case None => None
      case Some((b2, dirHdr)) =>
        assert HeaderOk(mapHdr) && mapHdr.numBytes == SECTOR_SIZE by { AllocateFresh(SystemMarks(), SECTOR_SIZE, junk); }
        assert HeaderOk(dirHdr) && dirHdr.numBytes == DIR_SIZE by { AllocateFresh(b1, DIR_SIZE, n.junk); }
        var d1 := d[FREE_MAP_SECTOR := EncodeHeader(mapHdr)][DIRECTORY_SECTOR := EncodeHeader(dirHdr)];
        Some(Mounted(SaveTable(SaveMap(d1, mapHdr, b2, n.f2), dirHdr, t, n.f1), mapHdr, dirHdr))
  }

  lemma SystemMarksCount()
    ensures CountClear(SystemMarks()) == NUM_SECTORS - 2
  {
    var none := SystemMarks()[FREE_MAP_SECTOR := false][DIRECTORY_SECTOR := false];
    CountAllClear(none);
    CountClearSet(SystemMarks(), FREE_MAP_SECTOR, false);
    CountClearSet(SystemMarks()[FREE_MAP_SECTOR := false], DIRECTORY_SECTOR, false);
  }

  lemma AllocateSucceeds(bits: Marks, size: int, junk: seq<int>)
    requires size <= MAX_FILE_SIZE && |junk| == NUM_DIRECT && CountClear(bits) >= NUM_DIRECT
    ensures Allocate(bits, size, junk).Some?
    ensures CountClear(Allocate(bits, size, junk).value.0) >= CountClear(bits) - NUM_DIRECT
  {
    TakeFresh(bits, DivRoundUp(size, SECTOR_SIZE));
  }

  /** A view with an empty directory whose two system files are as freshly allocated. */
  ghost predicate JustFormatted(v: View, b1: Marks) {
    && HeaderOk(v.mapHdr) && v.mapHdr.numBytes == SECTOR_SIZE && HeaderOk(v.dirHdr) && v.dirHdr.numBytes == DIR_SIZE && EmptyTable(v.table)
    && (forall i :: 0 <= i < |Data(v.mapHdr)| ==> !SystemMarks()[Data(v.mapHdr)[i]])
    && (forall s :: 0 <= s < NUM_SECTORS ==> (b1[s] <==> SystemMarks()[s] || s in Data(v.mapHdr)))
    && (forall i :: 0 <= i < |Data(v.dirHdr)| ==> !b1[Data(v.dirHdr)[i]])
    && (forall s :: 0 <= s < NUM_SECTORS ==> (v.bits[s] <==> b1[s] || s in Data(v.dirHdr)))
  }

  lemma FormatDisjoint(v: View, b1: Marks)
    requires JustFormatted(v, b1)
    ensures Disjoint(v)
  {
    hide Data, HeaderOk, Owned;
    DataDistinct(v.mapHdr);
    DataDistinct(v.dirHdr);
    InRangeData(v.mapHdr);
    InRangeData(v.dirHdr);
    FormatOwned(v);
  }

  lemma FormatOwned(v: View)
    requires EmptyTable(v.table)
    ensures Owned(v, 0) == [0, 1] && Owned(v, 1) == Data(v.mapHdr) && Owned(v, 2) == Data(v.dirHdr)
    ensures forall k: nat :: 3 <= k < OWNERS ==> Owned(v, k) == []
  {
    hide Data;
  }

  lemma FormatSound(v: View, b1: Marks)
    requires JustFormatted(v, b1)
    ensures Sound(v)
  {
    hide Data, HeaderOk, Owned, HasOwner, Disjoint;
    FormatDisjoint(v, b1);
    forall s | 0 <= s < NUM_SECTORS ensures v.bits[s] <==> HasOwner(v, s) { OwnersListed(v, s); }
  }

  lemma SystemWritable(h: Header, bits: Marks, size: int, junk: seq<int>)
    requires |junk| == NUM_DIRECT && Int32(size) && size <= MAX_FILE_SIZE && (forall i :: 0 <= i < NUM_DIRECT ==> Int32(junk[i]))
    requires Allocate(bits, size, junk).Some? && h == Allocate(bits, size, junk).value.1
    ensures Writable(h)
  {
    TakeFresh(bits, DivRoundUp(size, SECTOR_SIZE));
    var (b, q) := Take(bits, DivRoundUp(size, SECTOR_SIZE));
    forall i | 0 <= i < NUM_DIRECT ensures Int32(h.slots[i]) {
      if i < |q| { assert 0 <= q[i] < |bits|; }
    }
  }

  /** Formatting succeeds on any disk, and leaves an empty, sound file system that is read back. */
  lemma FormatReady(d: Image, t: Table, junk: seq<int>, n: Noise)
    requires |junk| == NUM_DIRECT && (forall i :: 0 <= i < NUM_DIRECT ==> Int32(junk[i])) && NoiseOk(n) && EmptyTable(t)
    ensures Format(d, t, junk, n).Some? && Ready(Format(d, t, junk, n).value)
    ensures LoadTable(Format(d, t, junk, n).value) == t
  {
    hide Allocate, Data, HeaderOk, SaveMap, SaveTable, EncodeHeader, DecodeHeader, Sound, DecodeMap, DecodeTable, Contents, SystemMarks;
    SystemMarksCount();
    AllocateSucceeds(SystemMarks(), SECTOR_SIZE, junk);
    var (b1, mapHdr) := Allocate(SystemMarks(), SECTOR_SIZE, junk).value;
    AllocateSucceeds(b1, DIR_SIZE, n.junk);
    var (b2, dirHdr) := Allocate(b1, DIR_SIZE, n.junk).value;
    AllocateFresh(SystemMarks(), SECTOR_SIZE, junk);
    AllocateFresh(b1, DIR_SIZE, n.junk);
    var fs := Format(d, t, junk, n).value;
    FormatSound(View(b2, t, HeadersOf(fs.disk, t), mapHdr, dirHdr), b1);
    SystemApart(View(b2, t, HeadersOf(fs.disk, t), mapHdr, dirHdr));
    SystemWritable(mapHdr, SystemMarks(), SECTOR_SIZE, junk);
    SystemWritable(dirHdr, b1, DIR_SIZE, n.junk);
    var d1 := d[FREE_MAP_SECTOR := EncodeHeader(mapHdr)][DIRECTORY_SECTOR := EncodeHeader(dirHdr)];
    SavedBoth(d1, mapHdr, dirHdr, b2, t, n.f1, n.f2);
  }

  // ---- runs ----

  datatype Op =
    | Make(name: seq<Byte>, size: int, noise: Noise)
    | Delete(name: seq<Byte>, noise: Noise)
    | Put(name: seq<Byte>, bytes: seq<Byte>, position: nat, fill: Sector)

  ghost predicate OpOk(o: Op) {
    o.Make? ==> NoiseOk(o.noise) && o.size <= MAX_FILE_SIZE && Int32(o.size)
  }

  ghost function Done(fs: Mounted, o: Op): Mounted
    requires Ready(fs) && OpOk(o)
  {
    match o
    case Make(name, size, n) => CreateFile(fs, name, size, n).0
    case Delete(name, n) => RemoveFile(fs, name, n).0
    case Put(name, bytes, position, fill) => PutFile(fs, name, bytes, position, fill)
  }

  lemma DoneReady(fs: Mounted, o: Op)
    requires Ready(fs) && OpOk(o)
    ensures Ready(Done(fs, o))
  {
    hide Ready, CreateFile, RemoveFile, PutFile, ViewOf;
    match o
    case Make(name, size, n) => CreateOnDisk(fs, name, size, n);
    case Delete(name, n) => RemoveOnDisk(fs, name, n);
    case Put(name, bytes, position, fill) => PutOnDisk(fs, name, bytes, position, fill);
  }

  ghost function After(fs: Mounted, ops: seq<Op>): (end: Mounted)
    requires Ready(fs) && forall k :: 0 <= k < |ops| ==> OpOk(ops[k])
    ensures Ready(end)
    decreases |ops|
  {
    hide Ready, Done;
    if ops == [] then fs
    else
      assert OpOk(ops[0]);
      DoneReady(fs, ops[0]);
      After(Done(fs, ops[0]), ops[1..])
  }

  lemma ReadyFiles(fs: Mounted)
    requires Ready(fs)
    ensures SystemFiles(fs)
  {
  }

  /** Sector s is a system header, belongs to a system file, or is a file's header or data. */
  ghost predicate Reachable(fs: Mounted, s: int)
    requires SystemFiles(fs)
  {
    || s == FREE_MAP_SECTOR || s == DIRECTORY_SECTOR || s in Data(fs.mapHdr) || s in Data(fs.dirHdr)
    || exists i :: 0 <= i < DIR_ENTRIES && LoadTable(fs)[i].inUse
         && (s == LoadTable(fs)[i].sector || s in Data(HeaderOf(fs.disk, LoadTable(fs)[i])))
  }

  lemma ReachableIsOwned(fs: Mounted, s: int)
    requires SystemFiles(fs)
    ensures Reachable(fs, s) <==> HasOwner(ViewOf(fs), s)
  {
    hide Data, HeaderOf, LoadTable, LoadMap, HasOwner, HeaderOk;
    OwnersListed(ViewOf(fs), s);
    assert forall i :: 0 <= i < DIR_ENTRIES ==> ViewOf(fs).headers[i] == HeaderOf(fs.disk, LoadTable(fs)[i]);
  }

  /** Free-map ownership: after formatting any disk and any run of creates, removes and writes, the
      sectors marked on the disk are exactly those that the two system headers, the two system files
      and the directory's files own, and no sector has two owners. */
  lemma FreeMapIsExact(d: Image, t: Table, junk: seq<int>, n: Noise, ops: seq<Op>)
    requires |junk| == NUM_DIRECT && (forall i :: 0 <= i < NUM_DIRECT ==> Int32(junk[i])) && NoiseOk(n) && EmptyTable(t)
    requires forall k :: 0 <= k < |ops| ==> OpOk(ops[k])
    ensures Format(d, t, junk, n).Some? && Ready(Format(d, t, junk, n).value)
    ensures var fs := After(Format(d, t, junk, n).value, ops);
            && SystemFiles(fs) && Disjoint(ViewOf(fs)) && NamesDistinct(LoadTable(fs))
            && (forall s :: 0 <= s < NUM_SECTORS ==> (LoadMap(fs)[s] <==> Reachable(fs, s)))
            && Mount(fs.disk) == fs
  {
    hide Format, LoadMap, LoadTable, Disjoint, NamesDistinct, Reachable, HasOwner, After;
    FormatReady(d, t, junk, n);
    var fs := After(Format(d, t, junk, n).value, ops);
    RemountIsSame(fs);
    forall s | 0 <= s < NUM_SECTORS ensures LoadMap(fs)[s] <==> Reachable(fs, s) { ReachableIsOwned(fs, s); }
  }

  /** Who can own a sector. */
  lemma OwnersListed(v: View, s: int)
    ensures HasOwner(v, s) <==>
              || s == 0 || s == 1 || s in Data(v.mapHdr) || s in Data(v.dirHdr)
              || exists i :: 0 <= i < DIR_ENTRIES && v.table[i].inUse && (s == v.table[i].sector || s in Data(v.headers[i]))
  {
    hide Data;
    if HasOwner(v, s) {
      var k: nat :| k < OWNERS && s in Owned(v, k);
      if k >= 3 { assert v.table[k - 3].inUse; }
    }
    if s == 0 || s == 1 { assert s in Owned(v, 0); }
    if s in Data(v.mapHdr) { assert s in Owned(v, 1); }
    if s in Data(v.dirHdr) { assert s in Owned(v, 2); }
    if exists i :: 0 <= i < DIR_ENTRIES && v.table[i].inUse && (s == v.table[i].sector || s in Data(v.headers[i])) {
      var i :| 0 <= i < DIR_ENTRIES && v.table[i].inUse && (s == v.table[i].sector || s in Data(v.headers[i]));
      assert Owned(v, 3 + i) == [v.table[i].sector] + Data(v.headers[i]);
      assert s in Owned(v, 3 + i);
    }
  }
}
