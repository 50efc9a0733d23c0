/** What the client is told by a create: an identifier that leads back to the slot with the name, the
    same one every time. */
module CreateService {
  import opened Wire
  import opened Tables
  import opened Protocol

  /** The slot that holds a name, or -1. */
  function SlotOf(s: Server, kind: Kind, name: string): int {
    match kind
    case LockKind => FindNamed(s.locks.slots, name, 0)
    case CVKind => FindNamed(s.cvs.slots, name, 0)
    case MVKind => FindNamed(s.mvs.slots, name, 0)
  }

  /** A monitor variable of that name is there already, with another size. */
  predicate SizeDiffers(s: Server, req: Request)
    requires req.Create?
  {
    req.kind == MVKind && SlotOf(s, MVKind, req.name) != -1 && |s.mvs.slots[SlotOf(s, MVKind, req.name)].value.data.v| != req.size
  }

  /** A name is in one slot only, so finding it is knowing where it is. */
  lemma FindsAt<D>(t: Table<D>, i: int)
    requires TableOk(t) && Live(t.slots, i)
    ensures FindNamed(t.slots, t.slots[i].value.name, 0) == i
  {
  }

  lemma CreateNamedSlot<D>(t: Table<D>, name: string, initial: D, other: string)
    requires TableOk(t)
    ensures var (u, i) := CreateNamed(t, name, initial);
            && i == FindNamed(u.slots, name, 0)
            && (i == -1 <==> !Owns(t, name) && !HasRoom(t))
            && (i != -1 ==> i < TABLE_SIZE)
            && (other != name || Owns(t, name) ==> FindNamed(u.slots, other, 0) == FindNamed(t.slots, other, 0))
  {
    CreateNamedOk(t, name, initial);
    FindWithinVector(t);
    var (u, i) := CreateNamed(t, name, initial);
    if i != -1 { FindsAt(u, i); }
    var j := FindNamed(t.slots, other, 0);
    if j != -1 && (other != name || Owns(t, name)) {
      assert Live(u.slots, j) && u.slots[j].value.name == other;
      FindsAt(u, j);
    } else if other != name {
      assert !Owns(t, other) && !Owns(u, other);
    }
  }

  /** A create answers once. Unless the table is full, or a variable of another size has the name, it
      answers an identifier that decodes, here, to the slot where the name is. */
  lemma CreateAnswersItsSlot(s: Server, c: Client, req: Request)
    requires req.Create? && TablesOk(s) && s.me >= 0
    ensures var e := DoCreate(s, c, req);
            var slot := SlotOf(e.s, req.kind, req.name);
            var id := Encode(s.me, slot);
            && ((OwnsKey(s, req.kind, req.name) || HasRoomFor(s, req.kind)) && !SizeDiffers(s, req) ==>
                  e.out == [Answer(c, req, Created(true, id))] && slot != -1 && MyIndex(id, s.me) == slot)
            && (SizeDiffers(s, req) ==> e == Eff(s, [Answer(c, req, Created(false, -1))]))
  {
    hide TableOk, CreateNamed, FindNamed;
    CreateNamedSlot(s.locks, req.name, LockData(false, NOBODY, [], false), req.name);
    CreateNamedSlot(s.cvs, req.name, CVData([], -1), req.name);
    CreateNamedSlot(s.mvs, req.name, NewMV(req.size), req.name);
    var slot := SlotOf(DoCreate(s, c, req).s, req.kind, req.name);
    if 0 <= slot < TABLE_SIZE { DecodeEncode(s.me, slot, s.me); }
  }

  /** A name that was not there starts with one create: a lock free and with no one waiting, a condition variable
      with no waiters, a monitor variable of zeros, as many as asked for. */
  lemma StartsIdle(s: Server, c: Client, req: Request)
    requires req.Create? && TablesOk(s) && !OwnsKey(s, req.kind, req.name) && HasRoomFor(s, req.kind)
    ensures var t := DoCreate(s, c, req).s;
            var k := SlotOf(t, req.kind, req.name);
            match req.kind
            case LockKind =>
              Live(t.locks.slots, k) && var l := t.locks.slots[k].value; l.count == 1 && !l.data.busy && l.data.q == [] && !l.data.toBeDestroyed
            case CVKind => Live(t.cvs.slots, k) && t.cvs.slots[k].value.count == 1 && t.cvs.slots[k].value.data == CVData([], -1)
            case MVKind =>
              && Live(t.mvs.slots, k) && var m := t.mvs.slots[k].value;
              && m.count == 1 && |m.data.v| == (if req.size > 0 then req.size else 0)
              && forall j :: 0 <= j < |m.data.v| ==> m.data.v[j] == 0
  {
    hide TableOk, Insert;
    CreateNamedSlot(s.locks, req.name, LockData(false, NOBODY, [], false), req.name);
    CreateNamedSlot(s.cvs, req.name, CVData([], -1), req.name);
    CreateNamedSlot(s.mvs, req.name, NewMV(req.size), req.name);
    match req.kind
    case LockKind => InsertOk(s.locks, Entry(req.name, 1, LockData(false, NOBODY, [], false)));
    case CVKind => InsertOk(s.cvs, Entry(req.name, 1, CVData([], -1)));
    case MVKind => InsertOk(s.mvs, Entry(req.name, 1, NewMV(req.size)));
  }

  /** The identifier of a name that is there does not change, whatever is created. */
  lemma IdentifierIsStable(s: Server, c: Client, req: Request, kind: Kind, name: string)
    requires req.Create? && TablesOk(s) && OwnsKey(s, kind, name)
    ensures SlotOf(DoCreate(s, c, req).s, kind, name) == SlotOf(s, kind, name)
  {
    hide TableOk, CreateNamed, FindNamed;
    CreateNamedSlot(s.locks, req.name, LockData(false, NOBODY, [], false), name);
    CreateNamedSlot(s.cvs, req.name, CVData([], -1), name);
    CreateNamedSlot(s.mvs, req.name, NewMV(req.size), name);
  }

  /** On a full table a create of a new name changes nothing, and the client is told so; except that
      for a lock the test is made on the encoded identifier. */
  lemma FullTableAnswer(s: Server, c: Client, req: Request)
    requires req.Create? && TablesOk(s) && !OwnsKey(s, req.kind, req.name) && !HasRoomFor(s, req.kind)
    ensures var e := DoCreate(s, c, req);
            && e.s == s && |e.out| == 1 && e.out[0].Answer? && e.out[0].reply.Created?
            && (e.out[0].reply.ok <==> req.kind == LockKind && s.me != 0)
  {
    hide TableOk;
    FindWithinVector(s.locks);
    FindWithinVector(s.cvs);
    FindWithinVector(s.mvs);
  }

  /** So the status of a create of a lock is right if and only if there was room for it, or this is
      machine 0. */
  lemma LockStatusIsRightWhen(s: Server, c: Client, req: Request)
    requires req.Create? && req.kind == LockKind && TablesOk(s) && s.me >= 0
    ensures var e := DoCreate(s, c, req);
            && |e.out| == 1 && e.out[0].Answer? && e.out[0].reply.Created?
            && (e.out[0].reply.ok == OwnsKey(e.s, LockKind, req.name) <==> OwnsKey(s, LockKind, req.name) || HasRoomFor(s, LockKind) || s.me == 0)
  {
    hide TableOk, CreateNamed, FindNamed;
    if OwnsKey(s, LockKind, req.name) || HasRoomFor(s, LockKind) {
      CreateAnswersItsSlot(s, c, req);
    } else {
      FullTableAnswer(s, c, req);
    }
  }
}
