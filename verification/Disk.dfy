/** Files on the disk of 1024 sectors: what a file contains, and what reading and writing a stretch
    of bytes, a sector at a time, does to it and to the rest of the disk. */
module Disk {
  import opened Bytes
  import opened Seqs

  const SECTOR_SIZE := 128
  const NUM_SECTORS := 1024
  const NUM_DIRECT := 30
  const MAX_FILE_SIZE := NUM_DIRECT * SECTOR_SIZE

  type Sector = s: seq<Byte> | |s| == SECTOR_SIZE witness seq(SECTOR_SIZE, i => 0)

  const ZEROS: Sector := seq(SECTOR_SIZE, i => 0)

  type Image = d: seq<Sector> | |d| == NUM_SECTORS witness seq<Sector>(NUM_SECTORS, i => ZEROS)

  /** The on-disk file header: `slots` is all of dataSectors[NumDirect], used or not. */
  datatype Header = Header(numBytes: int, numSectors: int, slots: seq<int>)

  function DivRoundUp(n: int, s: int): int
    requires s > 0
  {
    if n <= 0 then -((-n) / s) else (n + s - 1) / s
  }

  /** The sectors that hold the file's bytes. */
  function Data(h: Header): seq<int> {
    if 0 <= h.numSectors <= |h.slots| then h.slots[..h.numSectors] else []
  }

  /** A header as Allocate leaves it, for a file of at most MaxFileSize. */
  ghost predicate HeaderOk(h: Header) {
    && |h.slots| == NUM_DIRECT && h.numBytes <= MAX_FILE_SIZE && h.numSectors == DivRoundUp(h.numBytes, SECTOR_SIZE)
    && (forall i :: 0 <= i < |Data(h)| ==> 0 <= Data(h)[i] < NUM_SECTORS) && Distinct(Data(h))
  }

  /** How many bytes there are to read or write. */
  function Size(h: Header): nat { if h.numBytes < 0 then 0 else h.numBytes }

  lemma SectorOfByte(h: Header, p: int)
    requires HeaderOk(h) && 0 <= p < h.numBytes
    ensures 0 <= p / SECTOR_SIZE < |Data(h)| && |Data(h)| == h.numSectors <= NUM_DIRECT
  {
  }

  function ByteAt(d: Image, h: Header, p: int): Byte
    requires HeaderOk(h) && 0 <= p < h.numBytes
  {
    SectorOfByte(h, p);
    d[h.slots[p / SECTOR_SIZE]][p % SECTOR_SIZE]
  }

  /** The bytes of a file. */
  ghost function Contents(d: Image, h: Header): (c: seq<Byte>)
    requires HeaderOk(h)
    ensures |c| == Size(h)
  {
    seq(Size(h), p requires 0 <= p < Size(h) => ByteAt(d, h, p))
  }

  /** ReadAt's and WriteAt's check of the request. */
  function Clip(h: Header, numBytes: int, position: int): (n: int)
    ensures n > 0 ==> n <= numBytes && position + n <= h.numBytes
  {
    if numBytes <= 0 || position >= h.numBytes then 0
    else if position + numBytes > h.numBytes then h.numBytes - position
    else numBytes
  }

  // ---- writing ----

  /** The byte at p afterwards. Past the end of the file, the sector gets what was in the buffer. */
  function NewByte(d: Image, h: Header, from: seq<Byte>, n: nat, position: nat, fill: Sector, p: nat): Byte
    requires HeaderOk(h) && n <= |from| && position + n <= h.numBytes
  {
    if position <= p < position + n then from[p - position]
    else if p < h.numBytes then ByteAt(d, h, p)
    else fill[p % SECTOR_SIZE]
  }

  function NewSector(d: Image, h: Header, from: seq<Byte>, n: nat, position: nat, fill: Sector, i: nat): (r: Sector)
    requires HeaderOk(h) && n <= |from| && position + n <= h.numBytes
    ensures forall o :: 0 <= o < SECTOR_SIZE ==> r[o] == NewByte(d, h, from, n, position, fill, i * SECTOR_SIZE + o)
  {
    var bytes := seq<Byte>(SECTOR_SIZE, (o: nat) requires o < SECTOR_SIZE => NewByte(d, h, from, n, position, fill, i * SECTOR_SIZE + o));
    bytes
  }

  /** Sectors i to last of the file, written one after the other. */
  function WriteSectors(d: Image, h: Header, from: seq<Byte>, n: nat, position: nat, fill: Sector, i: nat, last: int): Image
    requires HeaderOk(h) && n <= |from| && position + n <= h.numBytes && last < |Data(h)|
    decreases last - i
  {
    if i > last then d
    else
      WriteSectors(d, h, from, n, position, fill, i, last - 1)[h.slots[last] := NewSector(d, h, from, n, position, fill, last)]
  }

  function WriteAt(d: Image, h: Header, from: seq<Byte>, numBytes: int, position: nat, fill: Sector): Image
    requires HeaderOk(h) && numBytes <= |from|
  {
    var n := Clip(h, numBytes, position);
    if n == 0 then d
    else
      SectorOfByte(h, position + n - 1);
      WriteSectors(d, h, from, n, position, fill, position / SECTOR_SIZE, (position + n - 1) / SECTOR_SIZE)
  }

  lemma {:induction false} WriteSectorsAt(d: Image, h: Header, from: seq<Byte>, n: nat, position: nat, fill: Sector, i: nat, last: int, k: int)
    requires HeaderOk(h) && n <= |from| && position + n <= h.numBytes && last < |Data(h)| && 0 <= k < NUM_SECTORS
    ensures var w := WriteSectors(d, h, from, n, position, fill, i, last);
            && (k !in Data(h) ==> w[k] == d[k])
            && forall j :: 0 <= j < |Data(h)| && Data(h)[j] == k ==>
                 w[k] == if i <= j <= last then NewSector(d, h, from, n, position, fill, j) else d[k]
    decreases last - i
  {
    hide NewSector;
    if i <= last {
      WriteSectorsAt(d, h, from, n, position, fill, i, last - 1, k);
      assert Data(h)[last] == h.slots[last];
    }
  }

  /** A byte array with a stretch overwritten. */
  function Overwritten(c: seq<Byte>, position: nat, bytes: seq<Byte>): (r: seq<Byte>)
    requires position + |bytes| <= |c|
    ensures |r| == |c|
    ensures forall p :: 0 <= p < |c| ==> r[p] == if position <= p < position + |bytes| then bytes[p - position] else c[p]
  {
    c[..position] + bytes + c[position + |bytes|..]
  }

  lemma ByteWritten(d: Image, h: Header, from: seq<Byte>, n: nat, position: nat, fill: Sector, p: nat)
    requires HeaderOk(h) && 0 < n <= |from| && position + n <= h.numBytes && p < h.numBytes
    ensures (position + n - 1) / SECTOR_SIZE < |Data(h)|
    ensures var d' := WriteSectors(d, h, from, n, position, fill, position / SECTOR_SIZE, (position + n - 1) / SECTOR_SIZE);
            ByteAt(d', h, p) == if position <= p < position + n then from[p - position] else ByteAt(d, h, p)
  {
    hide WriteSectors, NewSector, HeaderOk;
    SectorOfByte(h, position + n - 1);
    SectorOfByte(h, p);
    var j, o := p / SECTOR_SIZE, p % SECTOR_SIZE;
    WrittenSector(d, h, from, n, position, fill, j);
    if position <= p < position + n { Between(position, p, position + n - 1); }
    if position / SECTOR_SIZE <= j <= (position + n - 1) / SECTOR_SIZE {
      assert NewSector(d, h, from, n, position, fill, j)[o] == NewByte(d, h, from, n, position, fill, j * SECTOR_SIZE + o);
      assert j * SECTOR_SIZE + o == p;
    }
  }

  lemma WrittenSector(d: Image, h: Header, from: seq<Byte>, n: nat, position: nat, fill: Sector, j: nat)
    requires HeaderOk(h) && 0 < n <= |from| && position + n <= h.numBytes && j < |Data(h)|
    requires (position + n - 1) / SECTOR_SIZE < |Data(h)|
    ensures 0 <= h.slots[j] < NUM_SECTORS
    ensures WriteSectors(d, h, from, n, position, fill, position / SECTOR_SIZE, (position + n - 1) / SECTOR_SIZE)[h.slots[j]]
         == if position / SECTOR_SIZE <= j <= (position + n - 1) / SECTOR_SIZE then NewSector(d, h, from, n, position, fill, j) else d[h.slots[j]]
  {
    hide WriteSectors, NewSector;
    assert Data(h)[j] == h.slots[j];
    WriteSectorsAt(d, h, from, n, position, fill, position / SECTOR_SIZE, (position + n - 1) / SECTOR_SIZE, h.slots[j]);
  }

  lemma Between(a: nat, p: nat, b: nat)
    requires a <= p <= b
    ensures a / SECTOR_SIZE <= p / SECTOR_SIZE <= b / SECTOR_SIZE
  {
  }

  lemma WriteAtBytes(d: Image, h: Header, from: seq<Byte>, numBytes: int, position: nat, fill: Sector, p: nat)
    requires HeaderOk(h) && numBytes <= |from| && p < h.numBytes
    ensures ByteAt(WriteAt(d, h, from, numBytes, position, fill), h, p)
         == if position <= p < position + Clip(h, numBytes, position) then from[p - position] else ByteAt(d, h, p)
  {
    hide WriteSectors, ByteAt;
    var n := Clip(h, numBytes, position);
    if n > 0 {
      SectorOfByte(h, position + n - 1);
      ByteWritten(d, h, from, n, position, fill, p);
    }
  }

  /** WriteAt is the byte-array update: min(numBytes, length - position) bytes change, whatever the
      alignment of the first and the last sector. */
  lemma WriteUpdatesContents(d: Image, h: Header, from: seq<Byte>, numBytes: int, position: nat, fill: Sector)
    requires HeaderOk(h) && numBytes <= |from|
    ensures var n := Clip(h, numBytes, position);
            var d' := WriteAt(d, h, from, numBytes, position, fill);
            Contents(d', h) == if n == 0 then Contents(d, h) else Overwritten(Contents(d, h), position, from[..n])
  {
    hide WriteAt, ByteAt;
    var n := Clip(h, numBytes, position);
    var d' := WriteAt(d, h, from, numBytes, position, fill);
    var want := if n == 0 then Contents(d, h) else Overwritten(Contents(d, h), position, from[..n]);
    forall p | 0 <= p < Size(h) ensures Contents(d', h)[p] == want[p] {
      WriteAtBytes(d, h, from, numBytes, position, fill, p);
    }
  }

  /** No sector of any other file is touched. */
  lemma WriteTouchesOnlyFile(d: Image, h: Header, from: seq<Byte>, numBytes: int, position: nat, fill: Sector, k: int)
    requires HeaderOk(h) && numBytes <= |from| && 0 <= k < NUM_SECTORS && k !in Data(h)
    ensures WriteAt(d, h, from, numBytes, position, fill)[k] == d[k]
  {
    hide WriteSectors;
    var n := Clip(h, numBytes, position);
    if n > 0 {
      SectorOfByte(h, position + n - 1);
      WriteSectorsAt(d, h, from, n, position, fill, position / SECTOR_SIZE, (position + n - 1) / SECTOR_SIZE, k);
    }
  }

  /** What is in a file depends on its own sectors only. */
  lemma ContentsFrame(d: Image, d': Image, h: Header)
    requires HeaderOk(h) && forall i :: 0 <= i < |Data(h)| ==> d'[Data(h)[i]] == d[Data(h)[i]]
    ensures Contents(d', h) == Contents(d, h)
  {
    forall p | 0 <= p < Size(h) ensures ByteAt(d', h, p) == ByteAt(d, h, p) {
      SectorOfByte(h, p);
      assert Data(h)[p / SECTOR_SIZE] == h.slots[p / SECTOR_SIZE];
    }
  }

  /** Writing one file leaves the contents of every other file as they were. */
  lemma WriteLeavesOtherFiles(d: Image, h: Header, from: seq<Byte>, numBytes: int, position: nat, fill: Sector, other: Header)
    requires HeaderOk(h) && HeaderOk(other) && numBytes <= |from|
    requires forall i :: 0 <= i < |Data(other)| ==> Data(other)[i] !in Data(h)
    ensures Contents(WriteAt(d, h, from, numBytes, position, fill), other) == Contents(d, other)
  {
    hide WriteAt;
    forall i | 0 <= i < |Data(other)|
      ensures WriteAt(d, h, from, numBytes, position, fill)[Data(other)[i]] == d[Data(other)[i]]
    {
      WriteTouchesOnlyFile(d, h, from, numBytes, position, fill, Data(other)[i]);
    }
    ContentsFrame(d, WriteAt(d, h, from, numBytes, position, fill), other);
  }

  /** What ReadAt returns. */
  ghost function ReadSlice(d: Image, h: Header, numBytes: int, position: nat): seq<Byte>
    requires HeaderOk(h)
  {
    var n := Clip(h, numBytes, position);
    if n == 0 then [] else Contents(d, h)[position..position + n]
  }

  /** A read after a write sees what was written where the two overlap, and the old bytes elsewhere. */
  lemma ReadAfterWrite(d: Image, h: Header, from: seq<Byte>, numBytes: int, position: nat, fill: Sector, readBytes: int, readFrom: nat)
    requires HeaderOk(h) && numBytes <= |from|
    ensures var n := Clip(h, numBytes, position);
            var before := ReadSlice(d, h, readBytes, readFrom);
            var after := ReadSlice(WriteAt(d, h, from, numBytes, position, fill), h, readBytes, readFrom);
            && |after| == |before| == Clip(h, readBytes, readFrom)
            && forall k :: 0 <= k < |after| ==>
                 after[k] == if position <= readFrom + k < position + n then from[readFrom + k - position] else before[k]
  {
    hide WriteAt, Contents;
    WriteUpdatesContents(d, h, from, numBytes, position, fill);
  }
}
