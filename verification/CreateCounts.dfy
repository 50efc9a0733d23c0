/** The create count of an entry, read off what its server answered and ran: it is the creates answered
    with the entry's identifier since the slot was filled, less the destroys run on it. */
module CreateCounts {
  import opened Options
  import opened Wire
  import opened Tables
  import opened Protocol

  // ---- what counts ----

  function CountIn<D>(t: Table<D>, k: int): Option<int> {
    if Live(t.slots, k) then Some(t.slots[k].value.count) else None
  }

  function Count(s: Server, kind: Kind, k: int): Option<int> {
    match kind
    case LockKind => CountIn(s.locks, k)
    case CVKind => CountIn(s.cvs, k)
    case MVKind => CountIn(s.mvs, k)
  }

  /** A client is told that its create succeeded, with the identifier of slot k of server `me`. */
  predicate Makes(o: Out, me: int, kind: Kind, k: int) {
    o.Answer? && o.to.Create? && o.to.kind == kind && o.reply.Created? && o.reply.ok && MyIndex(o.reply.id, me) == k
  }

  predicate Unmakes(o: Out, kind: Kind, k: int) {
    o.Ran? && o.slot == k && match kind case LockKind => o.what.DestroyLock? case CVKind => o.what.DestroyCV? case MVKind => o.what.DestroyMV?
  }

  function Made(out: seq<Out>, me: int, kind: Kind, k: int): nat {
    if out == [] then 0 else (if Makes(out[0], me, kind, k) then 1 else 0) + Made(out[1..], me, kind, k)
  }

  function Unmade(out: seq<Out>, kind: Kind, k: int): nat {
    if out == [] then 0 else (if Unmakes(out[0], kind, k) then 1 else 0) + Unmade(out[1..], kind, k)
  }

  lemma {:induction false} MarksAppend(a: seq<Out>, b: seq<Out>, me: int, kind: Kind, k: int)
    ensures Made(a + b, me, kind, k) == Made(a, me, kind, k) + Made(b, me, kind, k)
    ensures Unmade(a + b, kind, k) == Unmade(a, kind, k) + Unmade(b, kind, k)
  {
    if a == [] {
      assert a + b == b;
    } else {
      assert (a + b)[0] == a[0] && (a + b)[1..] == a[1..] + b;
      MarksAppend(a[1..], b, me, kind, k);
    }
  }

  predicate Quiet(o: Out) { !(o.Answer? && o.to.Create?) && !(o.Ran? && Destroys(o.what)) }

  ghost predicate AllQuiet(out: seq<Out>) { forall j :: 0 <= j < |out| ==> Quiet(out[j]) }

  ghost predicate NoDestroy(out: seq<Out>) { forall j :: 0 <= j < |out| ==> !(out[j].Ran? && Destroys(out[j].what)) }

  lemma {:induction false} QuietMarks(out: seq<Out>, me: int, kind: Kind, k: int)
    requires AllQuiet(out)
    ensures Made(out, me, kind, k) == 0 && Unmade(out, kind, k) == 0
  {
    if out != [] { QuietMarks(out[1..], me, kind, k); }
  }

  lemma {:induction false} NoneUnmade(out: seq<Out>, kind: Kind, k: int)
    requires NoDestroy(out)
    ensures Unmade(out, kind, k) == 0
  {
    if out != [] { NoneUnmade(out[1..], kind, k); }
  }

  // ---- what every effect keeps ----

  /** The part of the tables' invariant that the counts need. */
  ghost predicate BitsOk<D>(t: Table<D>) {
    |t.bits| == TABLE_SIZE && |t.slots| <= TABLE_SIZE && forall i :: 0 <= i < TABLE_SIZE ==> (t.bits[i] <==> Live(t.slots, i))
  }

  ghost predicate AllBits(s: Server) { BitsOk(s.locks) && BitsOk(s.cvs) && BitsOk(s.mvs) }

  /** The slot's count goes with the creates and destroys; an entry goes away only when they balance, and
      does not come without a create. */
  ghost predicate Counted(s: Server, e: Eff, kind: Kind, k: int) {
    var change := Made(e.out, s.me, kind, k) - Unmade(e.out, kind, k);
    var (before, after) := (Count(s, kind, k), Count(e.s, kind, k));
    if after.Some? then after.value == (if before.Some? then before.value else 0) + change
    else if before.Some? then before.value + change == 0
    else Made(e.out, s.me, kind, k) == 0
  }

  /** A lock whose creates were never outnumbered has more of them than destroys while it is free. */
  predicate LockFine(s: Server, k: int, overdrawn: bool) {
    Live(s.locks.slots, k) ==>
      var l := s.locks.slots[k].value;
      && (l.count <= 0 ==> l.data.toBeDestroyed)
      && (!overdrawn ==> l.count >= 0 && (!l.data.busy ==> l.count >= 1))
  }

  predicate MVFine(s: Server, k: int) {
    Live(s.mvs.slots, k) ==> s.mvs.slots[k].value.count >= 1
  }

  predicate Negative(s: Server, k: int) { Live(s.locks.slots, k) && s.locks.slots[k].value.count < 0 }

  ghost predicate AllCounted(s: Server, e: Eff) { forall kind, k: nat :: Counted(s, e, kind, k) }

  ghost predicate StayFine(s: Server, t: Server) {
    && (forall k: nat, overdrawn :: LockFine(s, k, overdrawn) ==> LockFine(t, k, overdrawn || Negative(t, k)))
    && (forall k: nat :: MVFine(s, k) ==> MVFine(t, k))
  }

  ghost predicate Booked(s: Server, e: Eff) {
    e.s.me == s.me && (s.me >= 0 && AllBits(s) ==> AllBits(e.s) && AllCounted(s, e) && StayFine(s, e.s))
  }

  lemma CountedCompose(s: Server, a: Eff, b: Eff, kind: Kind, k: nat)
    requires a.s.me == s.me && NoDestroy(a.out) && NoDestroy(b.out)
    requires Counted(s, a, kind, k) && Counted(a.s, b, kind, k)
    ensures Counted(s, Eff(b.s, a.out + b.out), kind, k)
  {
    hide Count, Made, Unmade, NoDestroy;
    MarksAppend(a.out, b.out, s.me, kind, k);
    NoneUnmade(a.out, kind, k);
    NoneUnmade(b.out, kind, k);
  }

  /** Without destroys a count that was not negative does not become so. */
  lemma NotOverdrawn(s: Server, a: Eff, k: nat, overdrawn: bool)
    requires Counted(s, a, LockKind, k) && NoDestroy(a.out) && LockFine(s, k, overdrawn) && !overdrawn
    ensures !Negative(a.s, k)
  {
    hide Made, Unmade, NoDestroy;
    NoneUnmade(a.out, LockKind, k);
  }

  lemma FineCompose(s: Server, a: Eff, u: Server)
    requires StayFine(s, a.s) && StayFine(a.s, u) && NoDestroy(a.out) && AllCounted(s, a)
    ensures StayFine(s, u)
  {
    hide LockFine, MVFine, Counted, NoDestroy, Negative;
    forall k: nat, overdrawn | LockFine(s, k, overdrawn) ensures LockFine(u, k, overdrawn || Negative(u, k)) {
      if !overdrawn { NotOverdrawn(s, a, k, overdrawn); }
      assert LockFine(a.s, k, overdrawn || Negative(a.s, k));
    }
  }

  lemma BookedCompose(s: Server, a: Eff, b: Eff)
    requires Booked(s, a) && Booked(a.s, b) && NoDestroy(a.out) && NoDestroy(b.out)
    ensures Booked(s, Eff(b.s, a.out + b.out)) && NoDestroy(a.out + b.out)
  {
    hide StayFine, Counted, AllBits;
    if s.me >= 0 && AllBits(s) {
      FineCompose(s, a, b.s);
      forall kind, k: nat ensures Counted(s, Eff(b.s, a.out + b.out), kind, k) { CountedCompose(s, a, b, kind, k); }
    }
  }

  predicate SameTables(s: Server, t: Server) { s.me == t.me && s.locks == t.locks && s.cvs == t.cvs && s.mvs == t.mvs }

  lemma SameCounts(s: Server, t: Server, u: Server)
    requires SameTables(s, t)
    ensures AllBits(s) == AllBits(t) && (StayFine(s, u) <==> StayFine(t, u)) && (StayFine(u, s) <==> StayFine(u, t))
    ensures forall kind, k :: Count(s, kind, k) == Count(t, kind, k)
  {
    assert forall k, overdrawn :: LockFine(s, k, overdrawn) == LockFine(t, k, overdrawn);
    assert forall k :: MVFine(s, k) == MVFine(t, k) && Negative(s, k) == Negative(t, k);
    hide LockFine, MVFine, Negative;
    if StayFine(s, u) {
      forall k: nat, overdrawn | LockFine(t, k, overdrawn) ensures LockFine(u, k, overdrawn || Negative(u, k)) { assert LockFine(s, k, overdrawn); }
    }
    if StayFine(t, u) {
      forall k: nat, overdrawn | LockFine(s, k, overdrawn) ensures LockFine(u, k, overdrawn || Negative(u, k)) { assert LockFine(t, k, overdrawn); }
    }
  }

  /** The pending list and the request counter play no part, nor does anything quiet. */
  lemma BookedFrame(s: Server, t: Server, e: Eff, u: Server, before: seq<Out>, after: seq<Out>)
    requires Booked(t, e) && SameTables(s, t) && SameTables(e.s, u) && AllQuiet(before) && AllQuiet(after)
    ensures Booked(s, Eff(u, before + e.out + after))
    ensures NoDestroy(e.out) ==> NoDestroy(before + e.out + after)
  {
    hide StayFine, AllBits, Count, AllQuiet;
    SameCounts(s, t, e.s);
    SameCounts(e.s, u, s);
    if s.me >= 0 && AllBits(s) {
      forall kind, k: nat ensures Counted(s, Eff(u, before + e.out + after), kind, k) {
        assert Counted(t, e, kind, k);
        MarksAppend(before, e.out, s.me, kind, k);
        MarksAppend(before + e.out, after, s.me, kind, k);
        QuietMarks(before, s.me, kind, k);
        QuietMarks(after, s.me, kind, k);
      }
    }
    if NoDestroy(e.out) { QuietNoDestroy(before); QuietNoDestroy(after); }
  }

  lemma QuietNoDestroy(out: seq<Out>)
    requires AllQuiet(out)
    ensures NoDestroy(out)
  {
  }

  lemma Unchanged(s: Server)
    ensures Booked(s, Eff(s, []))
  {
    forall k: nat, overdrawn | LockFine(s, k, overdrawn) ensures LockFine(s, k, overdrawn || Negative(s, k)) {}
  }

  lemma NothingQuiet()
    ensures AllQuiet([]) && NoDestroy([])
  {
  }

  /** Nothing but quiet outputs, and the tables as they were. */
  lemma BookedQuiet(s: Server, e: Eff)
    requires SameTables(s, e.s) && AllQuiet(e.out)
    ensures Booked(s, e) && NoDestroy(e.out)
  {
    hide Booked, AllQuiet;
    Unchanged(s);
    NothingQuiet();
    BookedFrame(s, s, Eff(s, []), e.s, e.out, []);
    assert e.out + [] + [] == e.out;
  }

  // ---- locks ----

  /** One slot of the lock table gets this entry, or is emptied. */
  ghost predicate LockPut(s: Server, t: Server, i: int, l: Option<Entry<LockData>>) {
    && Live(s.locks.slots, i) && t.me == s.me && t.cvs == s.cvs && t.mvs == s.mvs
    && t.locks == (if l.None? then Delete(s.locks, i) else Update(s.locks, i, l.value))
  }

  /** Changing the holder, the queue or the mark leaves the books alone; the lock may be emptied when its
      count is zero, and become free with a count of zero only when it is not marked. */
  lemma LockPutBooked(s: Server, t: Server, i: int, l: Option<Entry<LockData>>, out: seq<Out>)
    requires LockPut(s, t, i, l) && AllQuiet(out)
    requires l.None? ==> s.locks.slots[i].value.count == 0
    requires l.Some? ==> l.value.count == s.locks.slots[i].value.count
                         && (l.value.data.toBeDestroyed == s.locks.slots[i].value.data.toBeDestroyed)
                         && (l.value.data.busy || !s.locks.slots[i].value.data.busy || l.value.count != 0 || !l.value.data.toBeDestroyed)
    ensures Booked(s, Eff(t, out)) && NoDestroy(out)
  {
    hide AllQuiet, Made, Unmade;
    QuietNoDestroy(out);
    forall kind, k: nat ensures Counted(s, Eff(t, out), kind, k) { QuietMarks(out, s.me, kind, k); }
    forall k: nat, overdrawn | LockFine(s, k, overdrawn) ensures LockFine(t, k, overdrawn || Negative(t, k)) {}
  }

  lemma AcquireBooked(s: Server, i: int, c: Client, req: Request)
    requires !req.Create?
    ensures Booked(s, DoAcquire(s, i, c, req)) && NoDestroy(DoAcquire(s, i, c, req).out)
  {
    hide Booked;
    var e := DoAcquire(s, i, c, req);
    if e.s == s { BookedQuiet(s, e); } else { LockPutBooked(s, e.s, i, e.s.locks.slots[i], e.out); }
  }

  lemma ReleaseBooked(s: Server, i: int, c: Client)
    ensures Booked(s, DoRelease(s, i, c)) && NoDestroy(DoRelease(s, i, c).out)
  {
    hide Booked;
    var e := DoRelease(s, i, c);
    if e.s == s { BookedQuiet(s, e); } else { LockPutBooked(s, e.s, i, e.s.locks.slots[i], e.out); }
  }

  lemma DestroyLockBooked(s: Server, i: int, c: Client, req: Request)
    requires req.DestroyLock?
    ensures var e := DoDestroyLock(s, i); Booked(s, Eff(e.s, [Ran(i, c, req)] + e.out))
  {
    var e := DoDestroyLock(s, i);
    var out := [Ran(i, c, req)] + e.out;
    assert e.out == [] && out == [Ran(i, c, req)] && out[1..] == [];
    forall kind, k: nat ensures Counted(s, Eff(e.s, out), kind, k) {}
    forall k: nat, overdrawn | LockFine(s, k, overdrawn) ensures LockFine(e.s, k, overdrawn || Negative(e.s, k)) {}
  }

  lemma RanBooked(s: Server, i: int, c: Client, req: Request, e: Eff)
    requires Booked(s, e) && NoDestroy(e.out) && !Destroys(req)
    ensures Booked(s, Eff(e.s, [Ran(i, c, req)] + e.out)) && NoDestroy([Ran(i, c, req)] + e.out)
  {
    hide Booked;
    assert AllQuiet([Ran(i, c, req)]) && AllQuiet([]);
    BookedFrame(s, s, e, e.s, [Ran(i, c, req)], []);
    assert [Ran(i, c, req)] + e.out + [] == [Ran(i, c, req)] + e.out;
  }

  lemma DoLockBooked(s: Server, i: int, c: Client, req: Request)
    requires req.Acquire? || req.Release? || req.DestroyLock?
    ensures Booked(s, DoLock(s, i, c, req)) && (!req.DestroyLock? ==> NoDestroy(DoLock(s, i, c, req).out))
  {
    hide Booked, NoDestroy, DoAcquire, DoRelease, DoDestroyLock;
    match req
    case Acquire(_) => AcquireBooked(s, i, c, req); RanBooked(s, i, c, req, DoAcquire(s, i, c, req));
    case Release(_) => ReleaseBooked(s, i, c); RanBooked(s, i, c, req, DoRelease(s, i, c));
    case DestroyLock(_) => DestroyLockBooked(s, i, c, req);
  }

  lemma {:induction false} SendsQuiet(peers: seq<int>, m: Msg)
    ensures AllQuiet(SendAll(peers, m))
  {
    if peers != [] { SendsQuiet(peers[1..], m); }
  }

  lemma ForwardBooked(s: Server, peers: seq<int>, c: Client, req: Request)
    ensures Booked(s, Forward(s, peers, c, req)) && NoDestroy(Forward(s, peers, c, req).out)
  {
    hide Booked, NoDestroy;
    SendsQuiet(peers, Ask(s.nextID, c, req));
    BookedQuiet(s, Forward(s, peers, c, req));
  }

  /** Issued, and an effect from the same tables. */
  lemma IssuedBooked(s: Server, t: Server, c: Client, req: Request, e: Eff)
    requires SameTables(s, t) && Booked(t, e)
    ensures Booked(s, Eff(e.s, [Issued(c, req)] + e.out)) && (NoDestroy(e.out) ==> NoDestroy([Issued(c, req)] + e.out))
  {
    hide Booked, NoDestroy;
    BookedFrame(s, t, e, e.s, [Issued(c, req)], []);
    assert [Issued(c, req)] + e.out + [] == [Issued(c, req)] + e.out;
  }

  lemma IssueLockBooked(s: Server, up: set<int>, c: Client, req: Request)
    requires req.Acquire? || req.Release?
    ensures Booked(s, IssueLock(s, up, c, req)) && NoDestroy(IssueLock(s, up, c, req).out)
  {
    hide Booked, NoDestroy, DoLock, Peers, MyIndex, Forward;
    var i := MyIndex(Target(req), s.me);
    var peers := Peers(up, s.me, 0);
    var t := s.(nextID := s.nextID + 1);
    DoLockBooked(s, i, c, req);
    DoLockBooked(t, i, c, req);
    ForwardBooked(s, peers, c, req);
    IssuedBooked(s, s, c, req, DoLock(s, i, c, req));
    IssuedBooked(s, t, c, req, DoLock(t, i, c, req));
    IssuedBooked(s, s, c, req, Forward(s, peers, c, req));
  }

  // ---- condition variables and monitor variables ----

  /** A condition variable's queue and lock change, not its count. */
  lemma SetCVBooked(s: Server, i: int, d: CVData)
    requires Live(s.cvs.slots, i)
    ensures Booked(s, Eff(SetCV(s, i, d), []))
  {
    var t := SetCV(s, i, d);
    forall k: nat, overdrawn | LockFine(s, k, overdrawn) ensures LockFine(t, k, overdrawn || Negative(t, k)) {}
  }

  /** From a changed condition variable on to what is issued, and an answer. */
  lemma ThenIssueBooked(s: Server, t: Server, e: Eff, after: seq<Out>)
    requires Booked(s, Eff(t, [])) && Booked(t, e) && NoDestroy(e.out) && AllQuiet(after)
    ensures Booked(s, Eff(e.s, e.out + after)) && NoDestroy(e.out + after)
  {
    hide Booked, AllQuiet;
    NothingQuiet();
    BookedCompose(s, Eff(t, []), e);
    BookedFrame(s, s, Eff(e.s, [] + e.out), e.s, [], after);
    assert [] + e.out == e.out;
    assert [] + e.out + after == e.out + after;
  }
}
