/** The file system on the disk itself: formatting, mounting, creating and removing files write bytes
    to sectors, and what is read back is exactly what FreeMap says. */
module FileSystem {
  import opened Options
  import opened Bytes
  import opened Disk
  import opened FileCodec
  import opened FreeMap

  const FREE_MAP_SECTOR := 0
  const DIRECTORY_SECTOR := 1

  /** The disk and the two system files that stay open. */
  datatype Mounted = Mounted(disk: Image, mapHdr: Header, dirHdr: Header)

  ghost predicate SystemFiles(fs: Mounted) {
    HeaderOk(fs.mapHdr) && fs.mapHdr.numBytes == SECTOR_SIZE && HeaderOk(fs.dirHdr) && fs.dirHdr.numBytes == DIR_SIZE
  }

  /** BitMap::FetchFrom and Directory::FetchFrom. */
  ghost function LoadMap(fs: Mounted): Marks
    requires SystemFiles(fs)
  {
    DecodeMap(Contents(fs.disk, fs.mapHdr))
  }

  ghost function LoadTable(fs: Mounted): Table
    requires SystemFiles(fs)
  {
    DecodeTable(Contents(fs.disk, fs.dirHdr))
  }

  function HeaderOf(d: Image, e: Entry): Header {
    if e.inUse && 0 <= e.sector < NUM_SECTORS then DecodeHeader(d[e.sector]) else NO_FILE
  }

  function HeadersOf(d: Image, t: Table): (h: Headers) {
    var h := seq<Header>(DIR_ENTRIES, (i: nat) requires i < DIR_ENTRIES => HeaderOf(d, t[i]));
    h
  }

  /** Everything FreeMap speaks of, read from the disk. */
  ghost function ViewOf(fs: Mounted): View
    requires SystemFiles(fs)
  {
    View(LoadMap(fs), LoadTable(fs), HeadersOf(fs.disk, LoadTable(fs)), fs.mapHdr, fs.dirHdr)
  }

  /** The open headers are those on the disk, and the marks are exact. */
  ghost predicate Ready(fs: Mounted) {
    && SystemFiles(fs) && Sound(ViewOf(fs)) && Writable(fs.mapHdr) && Writable(fs.dirHdr)
    && fs.disk[FREE_MAP_SECTOR] == EncodeHeader(fs.mapHdr) && fs.disk[DIRECTORY_SECTOR] == EncodeHeader(fs.dirHdr)
  }

  /** Opening the two system files of a formatted disk (format = FALSE). */
  function Mount(d: Image): Mounted {
    Mounted(d, DecodeHeader(d[FREE_MAP_SECTOR]), DecodeHeader(d[DIRECTORY_SECTOR]))
  }

  lemma RemountIsSame(fs: Mounted)
    requires Ready(fs)
    ensures Mount(fs.disk) == fs
  {
    HeaderRoundTrip(fs.mapHdr);
    HeaderRoundTrip(fs.dirHdr);
  }

  // ---- writing the system files ----

  function SaveTable(d: Image, dirHdr: Header, t: Table, fill: Sector): Image
    requires HeaderOk(dirHdr)
  {
    WriteAt(d, dirHdr, EncodeTable(t), DIR_SIZE, 0, fill)
  }

  function SaveMap(d: Image, mapHdr: Header, bits: Marks, fill: Sector): Image
    requires HeaderOk(mapHdr)
  {
    WriteAt(d, mapHdr, EncodeMap(bits), SECTOR_SIZE, 0, fill)
  }

  lemma WholeFile(d: Image, h: Header, bytes: seq<Byte>, fill: Sector)
    requires HeaderOk(h) && |bytes| == h.numBytes > 0
    ensures Contents(WriteAt(d, h, bytes, |bytes|, 0, fill), h) == bytes
  {
    hide WriteAt, Contents;
    WriteUpdatesContents(d, h, bytes, |bytes|, 0, fill);
    assert bytes[..|bytes|] == bytes;
    assert Overwritten(Contents(d, h), 0, bytes) == bytes;
  }

  /** The table is read back as written; only the directory file's sectors change. */
  lemma SavedTable(d: Image, dirHdr: Header, t: Table, fill: Sector)
    requires HeaderOk(dirHdr) && dirHdr.numBytes == DIR_SIZE && forall i :: 0 <= i < DIR_ENTRIES ==> Int32(t[i].sector)
    ensures var d' := SaveTable(d, dirHdr, t, fill);
            && DecodeTable(Contents(d', dirHdr)) == t
            && forall k :: 0 <= k < NUM_SECTORS && k !in Data(dirHdr) ==> d'[k] == d[k]
  {
    hide WriteAt, Contents, EncodeTable, DecodeTable;
    WholeFile(d, dirHdr, EncodeTable(t), fill);
    TableRoundTrip(t);
    forall k | 0 <= k < NUM_SECTORS && k !in Data(dirHdr) ensures SaveTable(d, dirHdr, t, fill)[k] == d[k] {
      WriteTouchesOnlyFile(d, dirHdr, EncodeTable(t), DIR_SIZE, 0, fill, k);
    }
  }

  lemma SavedMap(d: Image, mapHdr: Header, bits: Marks, fill: Sector)
    requires HeaderOk(mapHdr) && mapHdr.numBytes == SECTOR_SIZE
    ensures var d' := SaveMap(d, mapHdr, bits, fill);
            && DecodeMap(Contents(d', mapHdr)) == bits
            && forall k :: 0 <= k < NUM_SECTORS && k !in Data(mapHdr) ==> d'[k] == d[k]
  {
    hide WriteAt, Contents, EncodeMap, DecodeMap;
    WholeFile(d, mapHdr, EncodeMap(bits), fill);
    MapRoundTrip(bits);
    forall k | 0 <= k < NUM_SECTORS && k !in Data(mapHdr) ensures SaveMap(d, mapHdr, bits, fill)[k] == d[k] {
      WriteTouchesOnlyFile(d, mapHdr, EncodeMap(bits), SECTOR_SIZE, 0, fill, k);
    }
  }

  /** Both written, in either order: both are read back, and nothing outside the two files changes. */
  ghost predicate Saved(d: Image, d': Image, mapHdr: Header, dirHdr: Header, bits: Marks, t: Table)
    requires HeaderOk(mapHdr) && mapHdr.numBytes == SECTOR_SIZE && HeaderOk(dirHdr) && dirHdr.numBytes == DIR_SIZE
  {
    && DecodeMap(Contents(d', mapHdr)) == bits && DecodeTable(Contents(d', dirHdr)) == t
    && forall k :: 0 <= k < NUM_SECTORS && k !in Data(mapHdr) && k !in Data(dirHdr) ==> d'[k] == d[k]
  }

  ghost predicate Apart(a: Header, b: Header) {
    forall i, j :: 0 <= i < |Data(a)| && 0 <= j < |Data(b)| ==> Data(a)[i] != Data(b)[j]
  }

  lemma SavedBoth(d: Image, mapHdr: Header, dirHdr: Header, bits: Marks, t: Table, f1: Sector, f2: Sector)
    requires HeaderOk(mapHdr) && mapHdr.numBytes == SECTOR_SIZE && HeaderOk(dirHdr) && dirHdr.numBytes == DIR_SIZE
    requires Apart(mapHdr, dirHdr) && forall i :: 0 <= i < DIR_ENTRIES ==> Int32(t[i].sector)
    ensures Saved(d, SaveMap(SaveTable(d, dirHdr, t, f1), mapHdr, bits, f2), mapHdr, dirHdr, bits, t)
    ensures Saved(d, SaveTable(SaveMap(d, mapHdr, bits, f2), dirHdr, t, f1), mapHdr, dirHdr, bits, t)
  {
    hide SaveMap, SaveTable, Contents, DecodeMap, DecodeTable, HeaderOk;
    SavedTable(d, dirHdr, t, f1);
    SavedMap(SaveTable(d, dirHdr, t, f1), mapHdr, bits, f2);
    InRangeData(dirHdr);
    InRangeData(mapHdr);
    ContentsFrame(SaveTable(d, dirHdr, t, f1), SaveMap(SaveTable(d, dirHdr, t, f1), mapHdr, bits, f2), dirHdr);
    SavedMap(d, mapHdr, bits, f2);
    SavedTable(SaveMap(d, mapHdr, bits, f2), dirHdr, t, f1);
    ContentsFrame(SaveMap(d, mapHdr, bits, f2), SaveTable(SaveMap(d, mapHdr, bits, f2), dirHdr, t, f1), mapHdr);
  }

  lemma InRangeData(h: Header)
    requires HeaderOk(h)
    ensures forall i :: 0 <= i < |Data(h)| ==> 0 <= Data(h)[i] < NUM_SECTORS
  {
  }

  // ---- Create and Remove on the disk ----

  /** What the uninitialised memory of one Create holds. */
  datatype Noise = Noise(junk: seq<int>, f1: Sector, f2: Sector)

  ghost predicate NoiseOk(n: Noise) {
    |n.junk| == NUM_DIRECT && forall i :: 0 <= i < NUM_DIRECT ==> Int32(n.junk[i])
  }

  /** FileSystem::Create: the header, the directory and the free map are written when all went well. */
  ghost function CreateFile(fs: Mounted, name: seq<Byte>, size: int, n: Noise): (Mounted, bool)
    requires SystemFiles(fs) && size <= MAX_FILE_SIZE && NoiseOk(n)
  {
    match PlanCreate(LoadMap(fs), LoadTable(fs), Key(name), size, n.junk)
    case None => (fs, false)
    case Some(p) =>
      assert 0 <= p.sector < NUM_SECTORS && |p.header.slots| == NUM_DIRECT by {
        PlanFresh(LoadMap(fs), LoadTable(fs), Key(name), size, n.junk, p);
      }
      var d := fs.disk[p.sector := EncodeHeader(p.header)];
      (fs.(disk := SaveMap(SaveTable(d, fs.dirHdr, p.table, n.f1), fs.mapHdr, p.bits, n.f2)), true)
  }

  /** FileSystem::Open: the header in the sector that the directory finds, or None where it returns NULL. */
  ghost function Opened(fs: Mounted, name: seq<Byte>): Option<Header>
    requires SystemFiles(fs)
  {
    var sector := FindSector(LoadTable(fs), Key(name));
    if 0 <= sector < NUM_SECTORS then Some(DecodeHeader(fs.disk[sector])) else None
  }

  /** FileSystem::Remove: only the free map and the directory are written. */
  ghost function RemoveFile(fs: Mounted, name: seq<Byte>, n: Noise): (Mounted, bool)
    requires SystemFiles(fs)
  {
    var v := ViewOf(fs);
    if FindIndex(v.table, Key(name), 0) == -1 then (fs, false)
    else
      var w := Remove(v, Key(name));
      (fs.(disk := SaveTable(SaveMap(fs.disk, fs.mapHdr, w.bits, n.f2), fs.dirHdr, w.table, n.f1)), true)
  }

  lemma TableInt32(fs: Mounted, i: int)
    requires SystemFiles(fs) && 0 <= i < DIR_ENTRIES
    ensures Int32(LoadTable(fs)[i].sector)
  {
    WordRange(Contents(fs.disk, fs.dirHdr)[ENTRY_SIZE * i..ENTRY_SIZE * i + ENTRY_SIZE][4..8]);
  }

  lemma WordRange(b: seq<Byte>)
    requires |b| == 4
    ensures Int32(Assemble(b))
  {
  }

  /** What Disjoint says about the system files and the files in the directory. */
  lemma SystemApart(v: View)
    requires Sound(v)
    ensures Apart(v.mapHdr, v.dirHdr)
    ensures forall k :: k in [0, 1] ==> k !in Data(v.mapHdr) && k !in Data(v.dirHdr)
    ensures forall i :: 0 <= i < DIR_ENTRIES && v.table[i].inUse ==>
              v.table[i].sector !in Data(v.mapHdr) && v.table[i].sector !in Data(v.dirHdr) && v.table[i].sector !in [0, 1]
  {
    hide Data, HeadersOk, MarksExact, NamesDistinct;
    assert Owned(v, 0) == [0, 1] && Owned(v, 1) == Data(v.mapHdr) && Owned(v, 2) == Data(v.dirHdr);
    forall i | 0 <= i < DIR_ENTRIES && v.table[i].inUse
      ensures v.table[i].sector !in Data(v.mapHdr) && v.table[i].sector !in Data(v.dirHdr) && v.table[i].sector !in [0, 1]
    {
      assert Owned(v, 3 + i)[0] == v.table[i].sector;
    }
  }
}
