/** The bitmap-guarded tables in which a server keeps its locks, condition variables and
    monitor variables. The three tables differ only in what an entry holds besides its name
    and its create count. */
module Tables {
  import opened Options
  import opened Wire
  import opened Bits

  datatype Entry<D> = Entry(name: string, count: int, data: D)

  datatype LockData = LockData(busy: bool, owner: Client, q: seq<Client>, toBeDestroyed: bool)
  datatype CVData = CVData(q: seq<Client>, waitingLock: int)
  datatype MVData = MVData(v: seq<int>)

  datatype Table<D> = Table(slots: seq<Option<Entry<D>>>, bits: seq<bool>)

  predicate Live<D>(slots: seq<Option<Entry<D>>>, i: int) {
    0 <= i < |slots| && slots[i].Some?
  }

  /** The first live slot from i on that holds the name, or -1. */
  function FindNamed<D>(slots: seq<Option<Entry<D>>>, name: string, i: nat): (r: int)
    requires i <= |slots|
    ensures r == -1 || i <= r < |slots|
    ensures r != -1 ==> Live(slots, r) && slots[r].value.name == name
    ensures forall j :: i <= j < (if r == -1 then |slots| else r) && Live(slots, j) ==> slots[j].value.name != name
    decreases |slots| - i
  {
    if i == |slots| then -1
    else if Live(slots, i) && slots[i].value.name == name then i
    else FindNamed(slots, name, i + 1)
  }

  predicate Owns<D>(t: Table<D>, name: string) {
    FindNamed(t.slots, name, 0) != -1
  }

  predicate HasRoom<D>(t: Table<D>) {
    exists i :: 0 <= i < |t.bits| && !t.bits[i]
  }

  function EmptyTable<D>(): Table<D> {
    Table([], seq(TABLE_SIZE, i => false))
  }

  /** The tables' invariant: a bit is set exactly when its slot is live, and live names differ. */
  ghost predicate TableOk<D>(t: Table<D>) {
    && |t.bits| == TABLE_SIZE
    && |t.slots| <= TABLE_SIZE
    && (forall i :: 0 <= i < TABLE_SIZE ==> (t.bits[i] <==> Live(t.slots, i)))
    && DistinctNames(t)
  }

  ghost predicate DistinctNames<D>(t: Table<D>) {
    forall i, j :: Live(t.slots, i) && Live(t.slots, j) && i != j ==> t.slots[i].value.name != t.slots[j].value.name
  }

  /** Put a fresh entry where BitMap::Find points. The last branch is the source's ASSERT(FALSE). */
  function Insert<D>(t: Table<D>, e: Entry<D>): (Table<D>, int) {
    var i := FirstClear(t.bits, 0);
    if i == -1 then (t, -1)
    else if i == |t.slots| then (Table(t.slots + [Some(e)], t.bits[i := true]), i)
    else if i < |t.slots| then (Table(t.slots[i := Some(e)], t.bits[i := true]), i)
    else (t, -1)
  }

  /** Change the entry in a live slot. */
  function Update<D>(t: Table<D>, i: int, e: Entry<D>): Table<D>
    requires Live(t.slots, i)
  {
    t.(slots := t.slots[i := Some(e)])
  }

  function CreateNamed<D>(t: Table<D>, name: string, initial: D): (Table<D>, int) {
    var i := FindNamed(t.slots, name, 0);
    if i == -1 then Insert(t, Entry(name, 1, initial))
    else (Update(t, i, t.slots[i].value.(count := t.slots[i].value.count + 1)), i)
  }

  function Delete<D>(t: Table<D>, i: int): Table<D>
    requires Live(t.slots, i)
  {
    Table(t.slots[i := None], if i < |t.bits| then t.bits[i := false] else t.bits)
  }

  /** Find never points past the end of the vector, so the source's ASSERT(FALSE) is unreachable. */
  lemma FindWithinVector<D>(t: Table<D>)
    requires TableOk(t)
    ensures FirstClear(t.bits, 0) <= |t.slots|
    ensures (FirstClear(t.bits, 0) == -1) == !HasRoom(t)
  {
    if |t.slots| < TABLE_SIZE {
      assert !Live(t.slots, |t.slots|);
      assert !t.bits[|t.slots|];
    }
  }

  lemma OwnsLive<D>(t: Table<D>, name: string, i: int)
    requires Live(t.slots, i) && t.slots[i].value.name == name
    ensures Owns(t, name)
  {
  }

  /** Inserting a name that is not there keeps the invariant, and owns exactly one more name. */
  lemma InsertOk<D>(t: Table<D>, e: Entry<D>)
    requires TableOk(t) && !Owns(t, e.name)
    ensures TableOk(Insert(t, e).0)
    ensures HasRoom(t) ==> Live(Insert(t, e).0.slots, Insert(t, e).1)
                           && Insert(t, e).0.slots[Insert(t, e).1] == Some(e)
    ensures !HasRoom(t) ==> Insert(t, e) == (t, -1)
    ensures forall n :: Owns(Insert(t, e).0, n) <==> Owns(t, n) || (HasRoom(t) && n == e.name)
  {
    FindWithinVector(t);
    var i := FirstClear(t.bits, 0);
    var u := Insert(t, e).0;
    if i != -1 {
      assert u.slots[i] == Some(e);
      assert forall j :: j != i ==> (Live(u.slots, j) <==> Live(t.slots, j));
      assert forall j :: Live(t.slots, j) ==> j != i && u.slots[j] == t.slots[j];
      forall n ensures Owns(u, n) <==> Owns(t, n) || n == e.name {
        if Owns(u, n) {
          var k := FindNamed(u.slots, n, 0);
          if k != i { OwnsLive(t, n, k); }
        }
        if Owns(t, n) { OwnsLive(u, n, FindNamed(t.slots, n, 0)); }
        if n == e.name { OwnsLive(u, n, i); }
      }
    }
  }

  /** Changing an entry without renaming it keeps the invariant and every ownership. */
  lemma UpdateOk<D>(t: Table<D>, i: int, e: Entry<D>)
    requires Live(t.slots, i) && t.slots[i].value.name == e.name
    ensures TableOk(t) ==> TableOk(Update(t, i, e))
    ensures forall n :: Owns(Update(t, i, e), n) <==> Owns(t, n)
  {
    var u := Update(t, i, e);
    assert forall j :: Live(u.slots, j) <==> Live(t.slots, j);
    forall n ensures Owns(u, n) <==> Owns(t, n) {
      if Owns(u, n) { OwnsLive(t, n, FindNamed(u.slots, n, 0)); }
      if Owns(t, n) { OwnsLive(u, n, FindNamed(t.slots, n, 0)); }
    }
  }

  /** Create finds or inserts: afterwards the table owns the name unless it was full, and no
      other ownership changes. */
  lemma CreateNamedOk<D>(t: Table<D>, name: string, initial: D)
    requires TableOk(t)
    ensures TableOk(CreateNamed(t, name, initial).0)
    ensures forall n :: Owns(CreateNamed(t, name, initial).0, n) <==> Owns(t, n) || (HasRoom(t) && n == name)
    ensures var (u, i) := CreateNamed(t, name, initial);
            i != -1 ==> Live(u.slots, i) && u.slots[i].value.name == name
  {
    var i := FindNamed(t.slots, name, 0);
    if i == -1 {
      InsertOk(t, Entry(name, 1, initial));
    } else {
      UpdateOk(t, i, t.slots[i].value.(count := t.slots[i].value.count + 1));
    }
  }

  /** Destroying a live slot keeps the invariant and gives up exactly that name. */
  lemma DeleteOk<D>(t: Table<D>, i: int)
    requires TableOk(t) && Live(t.slots, i)
    ensures TableOk(Delete(t, i))
    ensures forall n :: Owns(Delete(t, i), n) <==> Owns(t, n) && n != t.slots[i].value.name
  {
    var u := Delete(t, i);
    assert forall j :: Live(u.slots, j) <==> Live(t.slots, j) && j != i;
    forall n ensures Owns(u, n) <==> Owns(t, n) && n != t.slots[i].value.name {
      if Owns(u, n) { OwnsLive(t, n, FindNamed(u.slots, n, 0)); }
      if Owns(t, n) && n != t.slots[i].value.name { OwnsLive(u, n, FindNamed(t.slots, n, 0)); }
    }
  }
}
