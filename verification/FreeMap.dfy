/** Which sectors belong to whom: what Create and Remove do to the free map, the directory and the
    headers, and that the marked sectors are always exactly the disjoint union of what is reachable. */
module FreeMap {
  import opened Options
  import opened Bits
  import opened Disk
  import opened FileCodec
  import opened Seqs

  // ---- allocating and giving back sectors ----

  /** The loop of FileHeader::Allocate: n times BitMap::Find. */
  function Take(bits: seq<bool>, n: int): (r: (seq<bool>, seq<int>))
    ensures |r.0| == |bits| && |r.1| == if n <= 0 then 0 else n
    decreases n
  {
    if n <= 0 then (bits, [])
    else
      var (b, q) := Take(bits, n - 1);
      var f := FirstClear(b, 0);
      (if f == -1 then b else b[f := true], q + [f])
  }

  /** With enough clear bits, the sectors taken were clear, are different, and are now marked. */
  lemma {:induction false} TakeFresh(bits: seq<bool>, n: int)
    requires n <= CountClear(bits)
    ensures var (b, q) := Take(bits, n);
            && (forall i :: 0 <= i < |q| ==> 0 <= q[i] < |bits| && !bits[q[i]]) && Distinct(q)
            && (forall s :: 0 <= s < |bits| ==> (b[s] <==> bits[s] || s in q))
            && CountClear(b) == CountClear(bits) - |q|
    decreases n
  {
    if n > 0 {
      TakeFresh(bits, n - 1);
      var (b, q) := Take(bits, n - 1);
      var f := FirstClear(b, 0);
      FindMeansCount(b);
      assert f != -1 && !b[f] && f !in q;
      CountClearSet(b, f, true);
    }
  }

  /** FileHeader::Allocate. The header's array is not cleared first: `junk` is what it held. */
  function Allocate(bits: Marks, size: int, junk: seq<int>): Option<(Marks, Header)>
    requires size <= MAX_FILE_SIZE && |junk| == NUM_DIRECT
  {
    var n := DivRoundUp(size, SECTOR_SIZE);
    if CountClear(bits) < n then None
    else
      var (b, q) := Take(bits, n);
      assert |q| <= NUM_DIRECT;
      Some((b, Header(size, n, q + junk[|q|..])))
  }

  /** FileHeader::Deallocate. */
  function ClearAll(bits: seq<bool>, q: seq<int>): (r: seq<bool>)
    ensures |r| == |bits|
  {
    if q == [] then bits
    else
      var b := ClearAll(bits, q[..|q| - 1]);
      var last := q[|q| - 1];
      if 0 <= last < |bits| then b[last := false] else b
  }

  lemma {:induction false} ClearAllAt(bits: seq<bool>, q: seq<int>)
    ensures forall s :: 0 <= s < |bits| ==> (ClearAll(bits, q)[s] <==> bits[s] && s !in q)
  {
    if q != [] {
      ClearAllAt(bits, q[..|q| - 1]);
      assert q == q[..|q| - 1] + [q[|q| - 1]];
    }
  }

  // ---- the directory ----

  function FindIndex(t: seq<Entry>, key: Name, i: nat): (r: int)
    requires i <= |t|
    ensures r == -1 || (i <= r < |t| && t[r].inUse && t[r].name == key)
    ensures forall j :: i <= j < (if r == -1 then |t| else r) ==> !(t[j].inUse && t[j].name == key)
    decreases |t| - i
  {
    if i == |t| then -1 else if t[i].inUse && t[i].name == key then i else FindIndex(t, key, i + 1)
  }

  function FreeIndex(t: seq<Entry>, i: nat): (r: int)
    requires i <= |t|
    ensures r == -1 || (i <= r < |t| && !t[r].inUse)
    ensures forall j :: i <= j < (if r == -1 then |t| else r) ==> t[j].inUse
    decreases |t| - i
  {
    if i == |t| then -1 else if !t[i].inUse then i else FreeIndex(t, i + 1)
  }

  /** Directory::Find. */
  function FindSector(t: Table, key: Name): int {
    var i := FindIndex(t, key, 0);
    if i == -1 then -1 else t[i].sector
  }

  // ---- the file system's state, as read from the disk ----

  /** Stands for the header of an entry that is not in use. */
  const NO_FILE := Header(0, 0, [])

  type Headers = h: seq<Header> | |h| == DIR_ENTRIES witness seq(DIR_ENTRIES, i => Header(0, 0, []))

  /** The free map, the directory, the header of the file in each used entry, and the headers of the
      two system files. */
  datatype View = View(bits: Marks, table: Table, headers: Headers, mapHdr: Header, dirHdr: Header)

  const OWNERS := 3 + DIR_ENTRIES

  /** The sectors of each owner: the two system headers, the two system files, the entries' files. */
  function Owned(v: View, k: nat): seq<int>
    requires k < OWNERS
  {
    if k == 0 then [0, 1]
    else if k == 1 then Data(v.mapHdr)
    else if k == 2 then Data(v.dirHdr)
    else if v.table[k - 3].inUse then [v.table[k - 3].sector] + Data(v.headers[k - 3])
    else []
  }

  /** No sector has two owners, or two places in one. */
  ghost predicate Disjoint(v: View) {
    forall k: nat, l: nat, i, j ::
      (k < OWNERS && l < OWNERS && 0 <= i < |Owned(v, k)| && 0 <= j < |Owned(v, l)| && Owned(v, k)[i] == Owned(v, l)[j])
      ==> (k == l && i == j)
  }

  ghost predicate HasOwner(v: View, s: int) {
    exists k: nat :: k < OWNERS && s in Owned(v, k)
  }

  /** A sector is marked exactly when it has an owner. */
  ghost predicate MarksExact(v: View) {
    forall s :: 0 <= s < NUM_SECTORS ==> (v.bits[s] <==> HasOwner(v, s))
  }

  ghost predicate NamesDistinct(t: Table) {
    forall i, j :: 0 <= i < j < DIR_ENTRIES && t[i].inUse && t[j].inUse ==> t[i].name != t[j].name
  }

  ghost predicate HeadersOk(v: View) {
    && HeaderOk(v.mapHdr) && v.mapHdr.numBytes == SECTOR_SIZE && HeaderOk(v.dirHdr) && v.dirHdr.numBytes == DIR_SIZE
    && forall i :: 0 <= i < DIR_ENTRIES && v.table[i].inUse ==> HeaderOk(v.headers[i]) && 0 <= v.table[i].sector < NUM_SECTORS
  }

  ghost predicate Sound(v: View) {
    HeadersOk(v) && NamesDistinct(v.table) && Disjoint(v) && MarksExact(v)
  }

  // ---- Create ----

  datatype Plan = Plan(sector: int, index: int, bits: Marks, table: Table, header: Header)

  /** What FileSystem::Create works out in memory; None when it fails. */
  function PlanCreate(bits: Marks, table: Table, key: Name, size: int, junk: seq<int>): Option<Plan>
    requires size <= MAX_FILE_SIZE && |junk| == NUM_DIRECT
  {
    if FindIndex(table, key, 0) != -1 then None
    else
      var sector := FirstClear(bits, 0);
      if sector == -1 then None
      else
        var i := FreeIndex(table, 0);
        if i == -1 then None
        else
          match Allocate(bits[sector := true], size, junk)
          case None => None
          case Some((b, h)) => Some(Plan(sector, i, b, table[i := Entry(true, sector, key)], h))
  }

  function Create(v: View, key: Name, size: int, junk: seq<int>): View
    requires size <= MAX_FILE_SIZE && |junk| == NUM_DIRECT
  {
    match PlanCreate(v.bits, v.table, key, size, junk)
    case None => v
    case Some(p) => v.(bits := p.bits, table := p.table, headers := v.headers[p.index := p.header])
  }

  /** Create fails exactly when the name is taken, the directory is full, or there are not enough
      clear sectors for the header and the data. */
  lemma CreateFailsWhen(bits: Marks, table: Table, key: Name, size: int, junk: seq<int>)
    requires size <= MAX_FILE_SIZE && |junk| == NUM_DIRECT
    ensures PlanCreate(bits, table, key, size, junk).None? <==>
              || (exists i :: 0 <= i < DIR_ENTRIES && table[i].inUse && table[i].name == key)
              || (forall i :: 0 <= i < DIR_ENTRIES ==> table[i].inUse)
              || CountClear(bits) == 0 || CountClear(bits) < 1 + DivRoundUp(size, SECTOR_SIZE)
  {
    FindMeansCount(bits);
    var sector := FirstClear(bits, 0);
    if sector != -1 { CountClearSet(bits, sector, true); }
  }

  /** Allocate's header is well formed and its data sectors are different, clear before, marked now. */
  lemma AllocateFresh(bits: Marks, size: int, junk: seq<int>)
    requires size <= MAX_FILE_SIZE && |junk| == NUM_DIRECT && Allocate(bits, size, junk).Some?
    ensures var (b, h) := Allocate(bits, size, junk).value;
            && HeaderOk(h) && h.numBytes == size
            && (forall i :: 0 <= i < |Data(h)| ==> 0 <= Data(h)[i] < NUM_SECTORS && !bits[Data(h)[i]])
            && (forall s :: 0 <= s < NUM_SECTORS ==> (b[s] <==> bits[s] || s in Data(h)))
  {
    hide Take;
    var n := DivRoundUp(size, SECTOR_SIZE);
    TakeFresh(bits, n);
    var (b, q) := Take(bits, n);
    var h := Header(size, n, q + junk[|q|..]);
    assert h.slots[..|q|] == q;
    assert Data(h) == q;
  }

  /** The header and data sectors of a planned file: different, clear before, marked now. */
  lemma PlanFresh(bits: Marks, table: Table, key: Name, size: int, junk: seq<int>, p: Plan)
    requires size <= MAX_FILE_SIZE && |junk| == NUM_DIRECT && PlanCreate(bits, table, key, size, junk) == Some(p)
    ensures HeaderOk(p.header) && p.header.numBytes == size
    ensures 0 <= p.sector < NUM_SECTORS && 0 <= p.index < DIR_ENTRIES && !table[p.index].inUse
    ensures p.table == table[p.index := Entry(true, p.sector, key)] && FindIndex(table, key, 0) == -1
    ensures var q := [p.sector] + Data(p.header);
            && Distinct(q) && (forall i :: 0 <= i < |q| ==> 0 <= q[i] < NUM_SECTORS && !bits[q[i]])
            && (forall s :: 0 <= s < NUM_SECTORS ==> (p.bits[s] <==> bits[s] || s in q))
  {
    hide Allocate, Data, HeaderOk;
    var marked := bits[FirstClear(bits, 0) := true];
    AllocateFresh(marked, size, junk);
    DataDistinct(p.header);
    assert forall i :: 0 <= i < |Data(p.header)| ==> !marked[Data(p.header)[i]] && Data(p.header)[i] != p.sector;
  }

  lemma DataDistinct(h: Header)
    requires HeaderOk(h)
    ensures Distinct(Data(h))
  {
  }

  lemma OwnedAfterCreate(v: View, key: Name, size: int, junk: seq<int>, p: Plan, k: nat)
    requires size <= MAX_FILE_SIZE && |junk| == NUM_DIRECT && PlanCreate(v.bits, v.table, key, size, junk) == Some(p) && k < OWNERS
    ensures 0 <= p.index < DIR_ENTRIES
    ensures Owned(Create(v, key, size, junk), k) == if k == 3 + p.index then [p.sector] + Data(p.header) else Owned(v, k)
    ensures Owned(v, 3 + p.index) == []
  {
    hide Data;
    PlanFresh(v.bits, v.table, key, size, junk, p);
  }

  /** Creating keeps the ownership exact. */
  lemma CreateKeeps(v: View, key: Name, size: int, junk: seq<int>)
    requires Sound(v) && size <= MAX_FILE_SIZE && |junk| == NUM_DIRECT
    ensures Sound(Create(v, key, size, junk))
  {
    hide Owned, HeaderOk, PlanCreate, MarksExact, Disjoint;
    match PlanCreate(v.bits, v.table, key, size, junk)
    case None =>
    case Some(p) =>
      PlanFresh(v.bits, v.table, key, size, junk, p);
      CreateDisjoint(v, key, size, junk, p);
      CreateMarks(v, key, size, junk, p);
  }

  lemma CreateDisjoint(v: View, key: Name, size: int, junk: seq<int>, p: Plan)
    requires Sound(v) && size <= MAX_FILE_SIZE && |junk| == NUM_DIRECT && PlanCreate(v.bits, v.table, key, size, junk) == Some(p)
    ensures Disjoint(Create(v, key, size, junk))
  {
    hide Owned, HeaderOk, PlanCreate, Create;
    var w := Create(v, key, size, junk);
    PlanFresh(v.bits, v.table, key, size, junk, p);
    forall k: nat, l: nat, i, j | k < OWNERS && l < OWNERS && 0 <= i < |Owned(w, k)| && 0 <= j < |Owned(w, l)| && Owned(w, k)[i] == Owned(w, l)[j]
      ensures k == l && i == j
    {
      OwnedAfterCreate(v, key, size, junk, p, k);
      OwnedAfterCreate(v, key, size, junk, p, l);
      if k != 3 + p.index { OwnedIsMarked(v, k, i); }
      if l != 3 + p.index { OwnedIsMarked(v, l, j); }
    }
  }

  lemma OwnedIsMarked(v: View, k: nat, i: int)
    requires Sound(v) && k < OWNERS && 0 <= i < |Owned(v, k)|
    ensures 0 <= Owned(v, k)[i] < NUM_SECTORS && v.bits[Owned(v, k)[i]]
  {
    OwnedInRange(v, k, i);
    assert HasOwner(v, Owned(v, k)[i]);
  }

  lemma OwnedInRange(v: View, k: nat, i: int)
    requires HeadersOk(v) && k < OWNERS && 0 <= i < |Owned(v, k)|
    ensures 0 <= Owned(v, k)[i] < NUM_SECTORS
  {
  }

  lemma CreateMarks(v: View, key: Name, size: int, junk: seq<int>, p: Plan)
    requires Sound(v) && size <= MAX_FILE_SIZE && |junk| == NUM_DIRECT && PlanCreate(v.bits, v.table, key, size, junk) == Some(p)
    ensures MarksExact(Create(v, key, size, junk))
  {
    hide Owned, HeaderOk, PlanCreate, Disjoint;
    var w := Create(v, key, size, junk);
    PlanFresh(v.bits, v.table, key, size, junk, p);
    var q := [p.sector] + Data(p.header);
    forall s | 0 <= s < NUM_SECTORS ensures w.bits[s] <==> HasOwner(w, s) {
      if s in q {
        OwnedAfterCreate(v, key, size, junk, p, 3 + p.index);
        assert s in Owned(w, 3 + p.index);
      }
      if HasOwner(v, s) {
        var k: nat :| k < OWNERS && s in Owned(v, k);
        OwnedAfterCreate(v, key, size, junk, p, k);
        assert s in Owned(w, k);
      }
      if HasOwner(w, s) {
        var k: nat :| k < OWNERS && s in Owned(w, k);
        OwnedAfterCreate(v, key, size, junk, p, k);
        assert k != 3 + p.index ==> s in Owned(v, k);
      }
    }
  }

  // ---- Remove ----

  function Remove(v: View, key: Name): View {
    var i := FindIndex(v.table, key, 0);
    if i == -1 then v
    else
      var freed := ClearAll(v.bits, Data(v.headers[i]));
      var sector := v.table[i].sector;
      var bits: Marks := if 0 <= sector < NUM_SECTORS then freed[sector := false] else freed;
      v.(bits := bits, table := v.table[i := v.table[i].(inUse := false)], headers := v.headers[i := NO_FILE])
  }

  /** The ASSERT in Deallocate holds: every data sector of a file that is removed is marked. */
  lemma DeallocateFindsMarked(v: View, key: Name, j: int)
    requires Sound(v) && FindIndex(v.table, key, 0) != -1
    requires 0 <= j < |Data(v.headers[FindIndex(v.table, key, 0)])|
    ensures var s := Data(v.headers[FindIndex(v.table, key, 0)])[j]; 0 <= s < NUM_SECTORS && v.bits[s]
  {
    hide Owned, Sound, Data;
    var i := FindIndex(v.table, key, 0);
    EntryOwns(v, i, j);
    OwnedIsMarked(v, 3 + i, j + 1);
  }

  lemma EntryOwns(v: View, i: int, j: int)
    requires 0 <= i < DIR_ENTRIES && v.table[i].inUse && 0 <= j < |Data(v.headers[i])|
    ensures j + 1 < |Owned(v, 3 + i)| && Owned(v, 3 + i)[j + 1] == Data(v.headers[i])[j]
  {
    hide Data;
  }

  lemma OwnedAfterRemove(v: View, key: Name, k: nat)
    requires FindIndex(v.table, key, 0) != -1 && k < OWNERS
    ensures Owned(Remove(v, key), k) == if k == 3 + FindIndex(v.table, key, 0) then [] else Owned(v, k)
  {
    hide Data, ClearAll;
  }

  lemma RemoveClears(v: View, key: Name, s: int)
    requires HeadersOk(v) && FindIndex(v.table, key, 0) != -1 && 0 <= s < NUM_SECTORS
    ensures Remove(v, key).bits[s] <==> v.bits[s] && s !in Owned(v, 3 + FindIndex(v.table, key, 0))
  {
    var i := FindIndex(v.table, key, 0);
    ClearAllAt(v.bits, Data(v.headers[i]));
  }

  /** Removing keeps the ownership exact. */
  lemma RemoveKeeps(v: View, key: Name)
    requires Sound(v)
    ensures Sound(Remove(v, key))
  {
    hide Owned, HeaderOk;
    var i := FindIndex(v.table, key, 0);
    var w := Remove(v, key);
    if i != -1 {
      forall k: nat | k < OWNERS ensures Owned(w, k) == if k == 3 + i then [] else Owned(v, k) { OwnedAfterRemove(v, key, k); }
      forall s | 0 <= s < NUM_SECTORS ensures w.bits[s] <==> HasOwner(w, s) {
        RemoveClears(v, key, s);
        RemovedOwner(v, w, i, s);
      }
    }
  }

  lemma RemovedOwner(v: View, w: View, i: int, s: int)
    requires 0 <= i < DIR_ENTRIES && Disjoint(v) && 0 <= s < NUM_SECTORS
    requires forall k: nat :: k < OWNERS ==> Owned(w, k) == if k == 3 + i then [] else Owned(v, k)
    ensures HasOwner(w, s) <==> HasOwner(v, s) && s !in Owned(v, 3 + i)
  {
    hide Owned;
    if HasOwner(w, s) {
      var k: nat :| k < OWNERS && s in Owned(w, k);
      assert k != 3 + i && s in Owned(v, k);
    }
    if HasOwner(v, s) && s !in Owned(v, 3 + i) {
      var k: nat :| k < OWNERS && s in Owned(v, k);
      assert s in Owned(w, k);
    }
  }

  lemma RestoresBits(v: View, key: Name, size: int, junk: seq<int>, p: Plan)
    requires Sound(v) && size <= MAX_FILE_SIZE && |junk| == NUM_DIRECT && PlanCreate(v.bits, v.table, key, size, junk) == Some(p)
    ensures Remove(Create(v, key, size, junk), key).bits == v.bits
  {
    hide Owned, HeaderOk, PlanCreate, Disjoint, MarksExact, Remove, NamesDistinct, Data, FindIndex;
    var c := Create(v, key, size, junk);
    PlanFresh(v.bits, v.table, key, size, junk, p);
    CreateKeeps(v, key, size, junk);
    FoundAfterCreate(v.table, p.index, p.sector, key);
    OwnedAfterCreate(v, key, size, junk, p, 3 + p.index);
    forall s | 0 <= s < NUM_SECTORS ensures Remove(c, key).bits[s] == v.bits[s] { RemoveClears(c, key, s); }
  }

  /** Create followed by Remove of the same name restores the free map bit for bit and the directory
      as a map from names to sectors. */
  lemma RemoveUndoesCreate(v: View, key: Name, size: int, junk: seq<int>)
    requires Sound(v) && size <= MAX_FILE_SIZE && |junk| == NUM_DIRECT && PlanCreate(v.bits, v.table, key, size, junk).Some?
    ensures var w := Remove(Create(v, key, size, junk), key);
            w.bits == v.bits && forall other :: FindSector(w.table, other) == FindSector(v.table, other)
  {
    hide Owned, HeaderOk, PlanCreate, Sound, Remove, Data;
    var p := PlanCreate(v.bits, v.table, key, size, junk).value;
    var c := Create(v, key, size, junk);
    RestoresBits(v, key, size, junk, p);
    PlanFresh(v.bits, v.table, key, size, junk, p);
    FoundAfterCreate(v.table, p.index, p.sector, key);
    RemovedTable(c, key);
    forall other ensures FindSector(Remove(c, key).table, other) == FindSector(v.table, other) {
      SameFinds(v.table, Remove(c, key).table, p.index, other, 0);
    }
  }

  lemma RemovedTable(v: View, key: Name)
    requires FindIndex(v.table, key, 0) != -1
    ensures var i := FindIndex(v.table, key, 0); Remove(v, key).table == v.table[i := v.table[i].(inUse := false)]
  {
  }

  lemma FoundAfterCreate(t: Table, i: int, sector: int, key: Name)
    requires 0 <= i < DIR_ENTRIES && FindIndex(t, key, 0) == -1
    ensures FindIndex(t[i := Entry(true, sector, key)], key, 0) == i
  {
    var u := t[i := Entry(true, sector, key)];
    assert u[i].inUse && u[i].name == key;
    assert forall j :: 0 <= j < DIR_ENTRIES && j != i ==> u[j] == t[j];
  }

  lemma {:induction false} SameFinds(t: Table, u: Table, i: int, key: Name, from: nat)
    requires 0 <= i < DIR_ENTRIES && from <= DIR_ENTRIES
    requires !(t[i].inUse && t[i].name == key) && !(u[i].inUse && u[i].name == key)
    requires forall j :: 0 <= j < DIR_ENTRIES && j != i ==> u[j] == t[j]
    ensures FindIndex(t, key, from) == FindIndex(u, key, from)
    decreases DIR_ENTRIES - from
  {
    if from < DIR_ENTRIES { SameFinds(t, u, i, key, from + 1); }
  }
}
