/** OpenFile as the program it is: buffers filled and emptied sector by sector on the disk's array. */
module OpenFiles {
  import opened Bytes
  import opened Disk

  class OpenFile {
    const disk: array<Sector>
    const hdr: Header
    var seekPosition: nat

    ghost predicate Valid() {
      disk.Length == NUM_SECTORS && HeaderOk(hdr)
    }

    ghost function Image(): Image
      requires Valid()
      reads disk
    {
      disk[..]
    }

    /** Opens a file whose header has been fetched from its sector. */
    constructor (disk: array<Sector>, hdr: Header)
      requires disk.Length == NUM_SECTORS && HeaderOk(hdr)
      ensures Valid() && this.disk == disk && this.hdr == hdr && seekPosition == 0
    {
      this.disk, this.hdr, seekPosition := disk, hdr, 0;
    }

    method Seek(position: nat)
      modifies this
      ensures seekPosition == position
    {
      seekPosition := position;
    }

    /** Copy bytes into the buffer. */
    static method CopyInto(buf: array<Byte>, at: nat, bytes: seq<Byte>)
      requires at + |bytes| <= buf.Length
      modifies buf
      ensures forall k :: 0 <= k < buf.Length ==> buf[k] == if at <= k < at + |bytes| then bytes[k - at] else old(buf[k])
    {
      for o := 0 to |bytes|
        invariant forall k :: 0 <= k < buf.Length ==> buf[k] == if at <= k < at + o then bytes[k - at] else old(buf[k])
      {
        buf[at + o] := bytes[o];
      }
    }

    /** Fill the buffer from sectors first to last of the file. */
    method ReadSectors(buf: array<Byte>, first: nat, last: int)
      requires Valid() && first <= last < |Data(hdr)| && buf.Length == (1 + last - first) * SECTOR_SIZE
      modifies buf
      ensures forall q :: 0 <= q < buf.Length ==> buf[q] == RawByte(Image(), hdr, first, q)
    {
      for i := first to last + 1
        invariant forall q :: 0 <= q < (i - first) * SECTOR_SIZE ==> buf[q] == RawByte(Image(), hdr, first, q)
      {
        ghost var before := buf[..];
        CopyInto(buf, (i - first) * SECTOR_SIZE, disk[hdr.slots[i]]);
        forall q | (i - first) * SECTOR_SIZE <= q < (i + 1 - first) * SECTOR_SIZE
          ensures buf[q] == RawByte(Image(), hdr, first, q)
        {
          Place(i - first, q - (i - first) * SECTOR_SIZE);
        }
      }
    }

    /** OpenFile::ReadAt. */
    method ReadAt(numBytes: int, position: nat) returns (into: seq<Byte>, n: nat)
      requires Valid()
      ensures into == ReadSlice(Image(), hdr, numBytes, position) && n == |into|
    {
      hide RawByte, ByteAt, Contents;
      var fileLength := hdr.numBytes;
      if numBytes <= 0 || position >= fileLength { return [], 0; }
      n := numBytes;
      if position + numBytes > fileLength { n := fileLength - position; }
      var first := position / SECTOR_SIZE;
      var last := (position + n - 1) / SECTOR_SIZE;
      Between(position, position, position + n - 1);
      SectorOfByte(hdr, position + n - 1);
      var buf := new Byte[(1 + last - first) * SECTOR_SIZE](_ => 0);
      ReadSectors(buf, first, last);
      var start := position - first * SECTOR_SIZE;
      InBuffer(position, n, first, last);
      into := buf[start..start + n];
      StretchIsSlice(Image(), hdr, first, position, n, into);
    }

    /** OpenFile::Read. */
    method Read(numBytes: int) returns (into: seq<Byte>, n: nat)
      requires Valid()
      modifies this
      ensures into == ReadSlice(Image(), hdr, numBytes, old(seekPosition)) && n == |into| && seekPosition == old(seekPosition) + n
    {
      into, n := ReadAt(numBytes, seekPosition);
      seekPosition := seekPosition + n;
    }

    /** Read what sector i of the file holds of the file's bytes into the buffer. */
    method ReadSectorInto(buf: array<Byte>, at: nat, i: nat)
      requires Valid() && at + SECTOR_SIZE <= buf.Length
      modifies buf
      ensures forall q :: 0 <= q < buf.Length ==>
                buf[q] == if at <= q < at + SECTOR_SIZE && i * SECTOR_SIZE + (q - at) < hdr.numBytes
                          then ByteAt(Image(), hdr, i * SECTOR_SIZE + (q - at)) else old(buf[q])
    {
      var bytes, n := ReadAt(SECTOR_SIZE, i * SECTOR_SIZE);
      assert forall k :: 0 <= k < n ==> bytes[k] == ByteAt(Image(), hdr, i * SECTOR_SIZE + k);
      CopyInto(buf, at, bytes);
    }

    /** Read the first and the last sector, where they are to be partially modified. */
    method ReadEnds(buf: array<Byte>, n: nat, position: nat, fill: Sector, first: nat, last: int)
      requires Valid() && 0 < n && position + n <= hdr.numBytes
      requires first == position / SECTOR_SIZE && last == (position + n - 1) / SECTOR_SIZE
      requires first <= last < |Data(hdr)| && buf.Length == (1 + last - first) * SECTOR_SIZE
      requires forall q :: 0 <= q < buf.Length ==> buf[q] == fill[q % SECTOR_SIZE]
      modifies buf
      ensures forall q :: 0 <= q < buf.Length && !(position <= first * SECTOR_SIZE + q < position + n) ==>
                buf[q] == if first * SECTOR_SIZE + q < hdr.numBytes then ByteAt(Image(), hdr, first * SECTOR_SIZE + q) else fill[q % SECTOR_SIZE]
    {
      hide ByteAt;
      var firstAligned := position == first * SECTOR_SIZE;
      var lastAligned := position + n == (last + 1) * SECTOR_SIZE;
      InBuffer(position, n, first, last);
      if !firstAligned { ReadSectorInto(buf, 0, first); }
      if !lastAligned && (first != last || firstAligned) { ReadSectorInto(buf, (last - first) * SECTOR_SIZE, last); }
    }

    /** Prepare the buffer of WriteAt: what must survive of the first and the last sector, then the
        bytes to write. */
    method Gather(buf: array<Byte>, from: seq<Byte>, n: nat, position: nat, fill: Sector, first: nat, last: int)
      requires Valid() && 0 < n <= |from| && position + n <= hdr.numBytes
      requires first == position / SECTOR_SIZE && last == (position + n - 1) / SECTOR_SIZE
      requires first <= last < |Data(hdr)| && buf.Length == (1 + last - first) * SECTOR_SIZE
      requires forall q :: 0 <= q < buf.Length ==> buf[q] == fill[q % SECTOR_SIZE]
      modifies buf
      ensures forall q :: 0 <= q < buf.Length ==> buf[q] == NewByte(Image(), hdr, from, n, position, fill, first * SECTOR_SIZE + q)
    {
      hide ByteAt;
      InBuffer(position, n, first, last);
      ReadEnds(buf, n, position, fill, first, last);
      CopyInto(buf, position - first * SECTOR_SIZE, from[..n]);
      forall q | 0 <= q < buf.Length ensures buf[q] == NewByte(Image(), hdr, from, n, position, fill, first * SECTOR_SIZE + q) {
        SamePlace(first, q);
      }
    }

    /** Write the buffer to sectors first to last of the file. */
    method WriteSectorsBack(buf: array<Byte>, from: seq<Byte>, n: nat, position: nat, fill: Sector, first: nat, last: int)
      requires Valid() && n <= |from| && position + n <= hdr.numBytes
      requires first <= last < |Data(hdr)| && buf.Length == (1 + last - first) * SECTOR_SIZE
      requires forall q :: 0 <= q < buf.Length ==> buf[q] == NewByte(Image(), hdr, from, n, position, fill, first * SECTOR_SIZE + q)
      modifies disk
      ensures Image() == WriteSectors(old(Image()), hdr, from, n, position, fill, first, last)
    {
      hide NewByte;
      for i := first to last + 1
        invariant Image() == WriteSectors(old(Image()), hdr, from, n, position, fill, first, i - 1)
      {
        var base := (i - first) * SECTOR_SIZE;
        var sector := buf[base..base + SECTOR_SIZE];
        assert sector == NewSector(old(Image()), hdr, from, n, position, fill, i) by {
          forall o | 0 <= o < SECTOR_SIZE
            ensures sector[o] == NewByte(old(Image()), hdr, from, n, position, fill, i * SECTOR_SIZE + o)
          {
            assert first * SECTOR_SIZE + (base + o) == i * SECTOR_SIZE + o;
          }
        }
        assert Data(hdr)[i] == hdr.slots[i];
        disk[hdr.slots[i]] := sector;
      }
    }

    /** OpenFile::WriteAt; `fill` is what the new buffer holds. */
    method WriteAt(from: seq<Byte>, numBytes: int, position: nat, fill: Sector) returns (n: nat)
      requires Valid() && numBytes <= |from|
      modifies disk
      ensures Image() == Disk.WriteAt(old(Image()), hdr, from, numBytes, position, fill) && n == Clip(hdr, numBytes, position)
    {
      var fileLength := hdr.numBytes;
      if numBytes <= 0 || position >= fileLength { return 0; }
      n := numBytes;
      if position + numBytes > fileLength { n := fileLength - position; }
      var first := position / SECTOR_SIZE;
      var last := (position + n - 1) / SECTOR_SIZE;
      Between(position, position, position + n - 1);
      SectorOfByte(hdr, position + n - 1);
      var buf := new Byte[(1 + last - first) * SECTOR_SIZE](q requires 0 <= q => fill[q % SECTOR_SIZE]);
      Gather(buf, from, n, position, fill, first, last);
      WriteSectorsBack(buf, from, n, position, fill, first, last);
    }

    /** OpenFile::Write. */
    method Write(from: seq<Byte>, numBytes: int, fill: Sector) returns (n: nat)
      requires Valid() && numBytes <= |from|
      modifies this, disk
      ensures Image() == Disk.WriteAt(old(Image()), hdr, from, numBytes, old(seekPosition), fill)
      ensures n == Clip(hdr, numBytes, old(seekPosition)) && seekPosition == old(seekPosition) + n
    {
      n := WriteAt(from, numBytes, seekPosition, fill);
      seekPosition := seekPosition + n;
    }
  }

  /** Byte q of the sectors of a file from `first` on. */
  function RawByte(d: Image, h: Header, first: nat, q: nat): Byte
    requires HeaderOk(h)
  {
    if first + q / SECTOR_SIZE < |Data(h)| then d[Data(h)[first + q / SECTOR_SIZE]][q % SECTOR_SIZE] else 0
  }

  lemma Place(i: nat, o: nat)
    requires o < SECTOR_SIZE
    ensures (i * SECTOR_SIZE + o) / SECTOR_SIZE == i && (i * SECTOR_SIZE + o) % SECTOR_SIZE == o
  {
  }

  lemma SamePlace(first: nat, q: nat)
    ensures (first * SECTOR_SIZE + q) / SECTOR_SIZE == first + q / SECTOR_SIZE
    ensures (first * SECTOR_SIZE + q) % SECTOR_SIZE == q % SECTOR_SIZE
  {
  }

  /** The stretch lies inside the sectors that are read. */
  lemma InBuffer(position: nat, n: nat, first: nat, last: int)
    requires n > 0 && first == position / SECTOR_SIZE && last == (position + n - 1) / SECTOR_SIZE
    ensures first * SECTOR_SIZE <= position < (first + 1) * SECTOR_SIZE
    ensures last * SECTOR_SIZE < position + n <= (last + 1) * SECTOR_SIZE
  {
  }

  lemma RawIsByte(d: Image, h: Header, first: nat, q: nat)
    requires HeaderOk(h) && first * SECTOR_SIZE + q < h.numBytes
    ensures RawByte(d, h, first, q) == ByteAt(d, h, first * SECTOR_SIZE + q)
  {
    SamePlace(first, q);
    SectorOfByte(h, first * SECTOR_SIZE + q);
  }

  lemma StretchIsSlice(d: Image, h: Header, first: nat, position: nat, n: nat, into: seq<Byte>)
    requires HeaderOk(h) && first * SECTOR_SIZE <= position && position + n <= h.numBytes && |into| == n
    requires forall k :: 0 <= k < n ==> into[k] == RawByte(d, h, first, position - first * SECTOR_SIZE + k)
    ensures into == Contents(d, h)[position..position + n]
  {
    hide RawByte, ByteAt;
    forall k | 0 <= k < n ensures into[k] == Contents(d, h)[position + k] {
      RawIsByte(d, h, first, position - first * SECTOR_SIZE + k);
    }
  }
}
