/** What the file system is for: a map from names to arrays of bytes, of fixed size, kept on a disk. */
module NamedFiles {
  import opened Options
  import opened Bytes
  import opened Disk
  import opened FileCodec
  import opened FreeMap
  import opened FileSystem
  import opened FileSystemRuns

  /** The bytes of the file with a name, as the directory, the headers and the sectors have them. */
  ghost function FileOf(fs: Mounted, key: Name): Option<seq<Byte>>
    requires Ready(fs)
  {
    var i := FindIndex(ViewOf(fs).table, key, 0);
    if i == -1 then None
    else
      SectorsInRange(ViewOf(fs), i);
      Some(Contents(fs.disk, ViewOf(fs).headers[i]))
  }

  /** Create makes one file of the size asked for, when it can; everything else is as it was. */
  ghost predicate Made(fs: Mounted, key: Name, size: int, after: Mounted, ok: bool)
    requires Ready(fs) && Ready(after)
  {
    && (forall other :: !ok || other != key ==> FileOf(after, other) == FileOf(fs, other))
    && (ok ==> FileOf(fs, key) == None && FileOf(after, key).Some? && |FileOf(after, key).value| == if size > 0 then size else 0)
  }

  lemma CreateMakes(fs: Mounted, name: seq<Byte>, size: int, n: Noise)
    requires Ready(fs) && size <= MAX_FILE_SIZE && NoiseOk(n) && Int32(size)
    ensures var (after, ok) := CreateFile(fs, name, size, n); Ready(after) && Made(fs, Key(name), size, after, ok)
  {
    hide Ready, CreateFile, Contents, HeadersOf, LoadTable, LoadMap, PlanCreate, HeaderOk, Key;
    ReadyFiles(fs);
    CreateOnDisk(fs, name, size, n);
    var (after, ok) := CreateFile(fs, name, size, n);
    ReadyFiles(after);
    var v := ViewOf(fs);
    if ok {
      var p := PlanCreate(v.bits, v.table, Key(name), size, n.junk).value;
      PlanFresh(v.bits, v.table, Key(name), size, n.junk, p);
      FoundAfterCreate(v.table, p.index, p.sector, Key(name));
      forall other | other != Key(name) ensures FileOf(after, other) == FileOf(fs, other) {
        SameFinds(v.table, p.table, p.index, other, 0);
        var i := FindIndex(v.table, other, 0);
        if i != -1 { CreateKeepsFiles(fs, name, size, n, i); }
      }
    }
  }

  /** Remove takes the file away, if there is one; everything else is as it was. */
  ghost predicate Removed(fs: Mounted, key: Name, after: Mounted, ok: bool)
    requires Ready(fs) && Ready(after)
  {
    && ok == FileOf(fs, key).Some? && FileOf(after, key) == None
    && forall other :: other != key ==> FileOf(after, other) == FileOf(fs, other)
  }

  lemma RemoveRemoves(fs: Mounted, name: seq<Byte>, n: Noise)
    requires Ready(fs)
    ensures var (after, ok) := RemoveFile(fs, name, n); Ready(after) && Removed(fs, Key(name), after, ok)
  {
    hide Ready, RemoveFile, Contents, HeadersOf, LoadTable, LoadMap, HeaderOk, Key, ClearAll;
    SoundView(fs);
    RemoveOnDisk(fs, name, n);
    var (after, ok) := RemoveFile(fs, name, n);
    ReadyFiles(after);
    var v := ViewOf(fs);
    var i := FindIndex(v.table, Key(name), 0);
    if i != -1 {
      RemovedTable(v, Key(name));
      GoneAfterRemove(v.table, i);
      forall other | other != Key(name) ensures FileOf(after, other) == FileOf(fs, other) {
        SameFinds(v.table, ViewOf(after).table, i, other, 0);
        var j := FindIndex(v.table, other, 0);
        if j != -1 { RemoveKeepsFiles(fs, name, n, j); }
      }
    }
  }

  lemma GoneAfterRemove(t: Table, i: int)
    requires 0 <= i < DIR_ENTRIES && t[i].inUse && NamesDistinct(t)
    ensures FindIndex(t[i := t[i].(inUse := false)], t[i].name, 0) == -1
  {
  }

  /** A write changes the bytes it says of the named file, up to the file's end, and no other file. */
  ghost predicate Written(fs: Mounted, key: Name, from: seq<Byte>, position: nat, after: Mounted)
    requires Ready(fs) && Ready(after)
  {
    && (forall other :: other != key ==> FileOf(after, other) == FileOf(fs, other))
    && (FileOf(after, key).Some? <==> FileOf(fs, key).Some?)
    && (FileOf(fs, key).Some? ==>
          && |FileOf(after, key).value| == |FileOf(fs, key).value|
          && forall p :: 0 <= p < |FileOf(fs, key).value| ==>
               FileOf(after, key).value[p] == if position <= p < position + |from| then from[p - position] else FileOf(fs, key).value[p])
  }

  lemma DataApart(fs: Mounted, i: int, j: int)
    requires Ready(fs) && 0 <= i < DIR_ENTRIES && 0 <= j < DIR_ENTRIES && i != j
    requires ViewOf(fs).table[i].inUse && ViewOf(fs).table[j].inUse
    ensures HeaderOk(ViewOf(fs).headers[i]) && HeaderOk(ViewOf(fs).headers[j])
    ensures forall k :: 0 <= k < |Data(ViewOf(fs).headers[j])| ==> Data(ViewOf(fs).headers[j])[k] !in Data(ViewOf(fs).headers[i])
  {
    hide ViewOf, Sound, Data, HeaderOk;
    SoundView(fs);
    var v := ViewOf(fs);
    SectorsInRange(v, i);
    SectorsInRange(v, j);
    forall k | 0 <= k < |Data(v.headers[j])| ensures Data(v.headers[j])[k] !in Data(v.headers[i]) {
      DataIsPrivate(v, j, Data(v.headers[j])[k]);
    }
  }

  lemma PutOthers(fs: Mounted, name: seq<Byte>, from: seq<Byte>, position: nat, fill: Sector, other: Name)
    requires Ready(fs) && other != Key(name) && Ready(PutFile(fs, name, from, position, fill))
    requires ViewOf(PutFile(fs, name, from, position, fill)) == ViewOf(fs)
    ensures FileOf(PutFile(fs, name, from, position, fill), other) == FileOf(fs, other)
  {
    hide Ready, Contents, ViewOf, HeaderOk, Key, WriteAt, Data, Sound, Opened;
    SoundView(fs);
    OpenFinds(fs, name);
    var v := ViewOf(fs);
    var i := FindIndex(v.table, Key(name), 0);
    var j := FindIndex(v.table, other, 0);
    if i != -1 && j != -1 {
      DataApart(fs, i, j);
      WriteLeavesOtherFiles(fs.disk, v.headers[i], from, |from|, position, fill, v.headers[j]);
    }
  }

  lemma PutWrites(fs: Mounted, name: seq<Byte>, from: seq<Byte>, position: nat, fill: Sector)
    requires Ready(fs)
    ensures var after := PutFile(fs, name, from, position, fill); Ready(after) && Written(fs, Key(name), from, position, after)
  {
    hide Ready, Contents, ViewOf, HeaderOk, Key, WriteAt, Data, Sound, Opened;
    OpenFinds(fs, name);
    PutOnDisk(fs, name, from, position, fill);
    SoundView(fs);
    var v := ViewOf(fs);
    var i := FindIndex(v.table, Key(name), 0);
    forall other | other != Key(name) ensures FileOf(PutFile(fs, name, from, position, fill), other) == FileOf(fs, other) {
      PutOthers(fs, name, from, position, fill, other);
    }
    if i != -1 {
      SectorsInRange(v, i);
      WriteUpdatesContents(fs.disk, v.headers[i], from, |from|, position, fill);
    }
  }

  lemma SoundView(fs: Mounted)
    requires Ready(fs)
    ensures SystemFiles(fs) && Sound(ViewOf(fs))
  {
  }

  /** The sector that the directory finds is -1 exactly when there is no such file, and otherwise holds the
      header whose contents are the file's bytes. */
  lemma FoundSector(fs: Mounted, name: seq<Byte>)
    requires Ready(fs)
    ensures SystemFiles(fs)
    ensures var sector := FindSector(LoadTable(fs), Key(name));
            && (sector == -1 <==> FileOf(fs, Key(name)) == None)
            && (sector != -1 ==>
                  && 0 <= sector < NUM_SECTORS && HeaderOk(DecodeHeader(fs.disk[sector]))
                  && FileOf(fs, Key(name)) == Some(Contents(fs.disk, DecodeHeader(fs.disk[sector]))))
  {
    hide LoadMap, LoadTable, Key, DecodeHeader, Contents, Sound;
    OpenFinds(fs, name);
    var v := ViewOf(fs);
    var i := FindIndex(v.table, Key(name), 0);
    if i != -1 { SectorsInRange(v, i); }
  }

  /** A read of a named file returns its bytes from the position on, up to its end. */
  lemma GetReads(fs: Mounted, name: seq<Byte>, numBytes: int, position: nat)
    requires Ready(fs)
    ensures var file := FileOf(fs, Key(name));
            match GetFile(fs, name, numBytes, position)
            case None => file == None
            case Some(got) =>
              && file.Some?
              && |got| == (if numBytes <= 0 || position >= |file.value| then 0
                           else if numBytes < |file.value| - position then numBytes else |file.value| - position)
              && forall k :: 0 <= k < |got| ==> position + k < |file.value| && got[k] == file.value[position + k]
  {
    hide Ready, ViewOf, HeaderOk, Key, Data, Sound, Opened;
    SoundView(fs);
    OpenFinds(fs, name);
    var v := ViewOf(fs);
    var i := FindIndex(v.table, Key(name), 0);
    if i != -1 { SectorsInRange(v, i); }
  }

  // ---- runs ----

  ghost predicate Acts(fs: Mounted, o: Op, after: Mounted)
    requires Ready(fs) && OpOk(o) && Ready(after)
  {
    match o
    case Make(name, size, n) => after == CreateFile(fs, name, size, n).0 && Made(fs, Key(name), size, after, CreateFile(fs, name, size, n).1)
    case Delete(name, n) => after == RemoveFile(fs, name, n).0 && Removed(fs, Key(name), after, RemoveFile(fs, name, n).1)
    case Put(name, bytes, position, _) => Written(fs, Key(name), bytes, position, after)
  }

  /** Every operation of the run acts on the files as said, and on no others. */
  ghost predicate AllAct(fs: Mounted, ops: seq<Op>)
    requires Ready(fs) && forall k :: 0 <= k < |ops| ==> OpOk(ops[k])
    decreases |ops|
  {
    ops == []
    || (OpOk(ops[0]) && Ready(Done(fs, ops[0])) && Acts(fs, ops[0], Done(fs, ops[0])) && AllAct(Done(fs, ops[0]), ops[1..]))
  }

  lemma OneActs(fs: Mounted, o: Op)
    requires Ready(fs) && OpOk(o)
    ensures Ready(Done(fs, o)) && Acts(fs, o, Done(fs, o))
  {
    hide Ready, CreateFile, RemoveFile, PutFile, ViewOf, Made, Removed, Written, Key;
    match o
    case Make(name, size, n) => SoundView(fs); CreateMakes(fs, name, size, n);
    case Delete(name, n) => SoundView(fs); RemoveRemoves(fs, name, n);
    case Put(name, bytes, position, fill) => PutWrites(fs, name, bytes, position, fill);
  }

  lemma {:induction false} RunActs(fs: Mounted, ops: seq<Op>)
    requires Ready(fs) && forall k :: 0 <= k < |ops| ==> OpOk(ops[k])
    ensures AllAct(fs, ops)
    decreases |ops|
  {
    hide Ready, Done, Acts, OpOk;
    if ops != [] {
      assert OpOk(ops[0]);
      OneActs(fs, ops[0]);
      RunActs(Done(fs, ops[0]), ops[1..]);
    }
  }

  /** A formatted disk has no files, and over every run of creates, removes and writes it is a map from
      names to arrays of bytes. */
  lemma DiskIsNamedFiles(d: Image, t: Table, junk: seq<int>, n: Noise, ops: seq<Op>)
    requires |junk| == NUM_DIRECT && (forall i :: 0 <= i < NUM_DIRECT ==> Int32(junk[i])) && NoiseOk(n) && EmptyTable(t)
    requires forall k :: 0 <= k < |ops| ==> OpOk(ops[k])
    ensures Format(d, t, junk, n).Some? && Ready(Format(d, t, junk, n).value)
    ensures var fs := Format(d, t, junk, n).value;
            && (forall key :: FileOf(fs, key) == None) && AllAct(fs, ops)
  {
    hide Format, Ready, AllAct, OpOk;
    FormatReady(d, t, junk, n);
    var fs := Format(d, t, junk, n).value;
    SoundView(fs);
    RunActs(fs, ops);
  }
}
