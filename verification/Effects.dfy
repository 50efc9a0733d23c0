/** What the operations by identifier leave alone: they never touch a name, and the requests
    they forward are never creates. */
module Effects {
  import opened Wire
  import opened Tables
  import opened Protocol

  /** No lock is waiting to be destroyed, and no request that destroys anything is pending. */
  ghost predicate ServerOk(s: Server) {
    && TableOk(s.locks) && TableOk(s.cvs) && TableOk(s.mvs)
    && NoMarks(s.locks)
    && (forall p :: p in s.pending ==> !Destroys(p.req))
  }

  ghost predicate NoMarks(t: Table<LockData>) {
    forall i :: Live(t.slots, i) ==> !t.slots[i].value.data.toBeDestroyed
  }

  predicate IsQuietRequest(req: Request) { !req.Create? && !Destroys(req) }

  predicate IsQuietOut(o: Out) {
    match o
    case Send(_, m) => m.Ask? && IsQuietRequest(m.req)
    case Answer(_, to, _) => !to.Create?
    case Ran(_, _, what) => !what.Create?
    case Issued(_, what) => !what.Create?
  }

  ghost predicate SameNames(s: Server, t: Server) {
    forall kind, name :: OwnsKey(t, kind, name) == OwnsKey(s, kind, name)
  }

  /** The effect is about operations by identifier only. */
  ghost predicate Quiet(s: Server, e: Eff) {
    && e.s.me == s.me && ServerOk(e.s) && SameNames(s, e.s)
    && e.s.nextID >= s.nextID
    && s.pending <= e.s.pending
    && (forall k :: |s.pending| <= k < |e.s.pending| ==> IsQuietRequest(e.s.pending[k].req))
    && (forall k :: 0 <= k < |e.out| ==> IsQuietOut(e.out[k]))
  }

  lemma QuietCompose(s: Server, a: Eff, b: Eff)
    requires Quiet(s, a) && Quiet(a.s, b)
    ensures Quiet(s, Eff(b.s, a.out + b.out))
  {
  }

  lemma QuietBefore(s: Server, e: Eff, o: Out)
    requires Quiet(s, e) && IsQuietOut(o)
    ensures Quiet(s, Eff(e.s, [o] + e.out)) && Quiet(s, Eff(e.s, e.out + [o]))
  {
  }

  lemma QuietLocks(s: Server, t: Table<LockData>)
    requires ServerOk(s) && TableOk(t) && NoMarks(t) && forall n :: Owns(t, n) == Owns(s.locks, n)
    ensures Quiet(s, Eff(s.(locks := t), []))
  {
  }

  lemma SetLockQuiet(s: Server, i: int, d: LockData)
    requires ServerOk(s) && Live(s.locks.slots, i) && !d.toBeDestroyed
    ensures Quiet(s, Eff(SetLock(s, i, d), []))
    ensures Live(SetLock(s, i, d).locks.slots, i) && SetLock(s, i, d).locks.slots[i].value.data == d
  {
    UpdateOk(s.locks, i, s.locks.slots[i].value.(data := d));
    QuietLocks(s, SetLock(s, i, d).locks);
  }

  lemma DoLockQuiet(s: Server, i: int, c: Client, req: Request)
    requires ServerOk(s) && (req.Acquire? || req.Release?)
    ensures Quiet(s, DoLock(s, i, c, req))
  {
    if Live(s.locks.slots, i) {
      var d := s.locks.slots[i].value.data;
      SetLockQuiet(s, i, d.(q := d.q + [c]));
      SetLockQuiet(s, i, d.(busy := true, owner := c));
      SetLockQuiet(s, i, d.(busy := false));
      if d.q != [] { SetLockQuiet(s, i, d.(owner := d.q[0], q := d.q[1..])); }
    }
  }

  lemma {:induction false} SendAllQuiet(peers: seq<int>, m: Msg)
    requires m.Ask? && IsQuietRequest(m.req)
    ensures forall k :: 0 <= k < |SendAll(peers, m)| ==> IsQuietOut(SendAll(peers, m)[k])
  {
    if peers != [] { SendAllQuiet(peers[1..], m); }
  }

  lemma ForwardQuiet(s: Server, peers: seq<int>, c: Client, req: Request)
    requires ServerOk(s) && IsQuietRequest(req)
    ensures Quiet(s, Forward(s, peers, c, req))
  {
    SendAllQuiet(peers, Ask(s.nextID, c, req));
  }

  lemma IssueLockQuiet(s: Server, up: set<int>, c: Client, req: Request)
    requires ServerOk(s) && (req.Acquire? || req.Release?)
    ensures Quiet(s, IssueLock(s, up, c, req))
  {
    var i := MyIndex(Target(req), s.me);
    var peers := Peers(up, s.me, 0);
    DoLockQuiet(s, i, c, req);
    DoLockQuiet(s.(nextID := s.nextID + 1), i, c, req);
    ForwardQuiet(s, peers, c, req);
  }

  lemma SetCVQuiet(s: Server, i: int, d: CVData)
    requires ServerOk(s) && Live(s.cvs.slots, i)
    ensures Quiet(s, Eff(SetCV(s, i, d), []))
  {
    UpdateOk(s.cvs, i, s.cvs.slots[i].value.(data := d));
  }

  lemma DoWaitQuiet(s: Server, up: set<int>, i: int, lock: int, c: Client, req: Request)
    requires ServerOk(s) && !req.Create?
    ensures Quiet(s, DoWait(s, up, i, lock, c, req))
  {
    if Live(s.cvs.slots, i) {
      var d := s.cvs.slots[i].value.data;
      var w := if d.waitingLock == -1 then lock else d.waitingLock;
      if w == lock {
        var t := SetCV(s, i, CVData(d.q + [c], w));
        SetCVQuiet(s, i, CVData(d.q + [c], w));
        IssueLockQuiet(t, up, c, Release(lock));
        QuietCompose(s, Eff(t, []), IssueLock(t, up, c, Release(lock)));
        assert [] + IssueLock(t, up, c, Release(lock)).out == IssueLock(t, up, c, Release(lock)).out;
      }
    }
  }

  lemma DoSignalQuiet(s: Server, up: set<int>, i: int, lock: int, c: Client, req: Request)
    requires ServerOk(s) && !req.Create?
    ensures Quiet(s, DoSignal(s, up, i, lock, c, req))
  {
    if Live(s.cvs.slots, i) {
      var d := s.cvs.slots[i].value.data;
      if d.waitingLock != -1 && d.q != [] && d.waitingLock == lock {
        var nd := CVData(d.q[1..], if |d.q| == 1 then -1 else d.waitingLock);
        var t := SetCV(s, i, nd);
        SetCVQuiet(s, i, nd);
        var e := IssueLock(t, up, d.q[0], Acquire(lock));
        IssueLockQuiet(t, up, d.q[0], Acquire(lock));
        QuietCompose(s, Eff(t, []), e);
        assert [] + e.out == e.out;
        QuietBefore(s, e, Answer(c, req, Status(true)));
      }
    }
  }

  lemma {:induction false} WakeAllQuiet(s: Server, up: set<int>, lock: int, q: seq<Client>)
    requires ServerOk(s)
    ensures Quiet(s, WakeAll(s, up, lock, q))
    decreases |q|
  {
    if q != [] {
      var e := IssueLock(s, up, q[0], Acquire(lock));
      IssueLockQuiet(s, up, q[0], Acquire(lock));
      WakeAllQuiet(e.s, up, lock, q[1..]);
      QuietCompose(s, e, WakeAll(e.s, up, lock, q[1..]));
    }
  }

  lemma DoBroadcastQuiet(s: Server, up: set<int>, i: int, lock: int, c: Client, req: Request)
    requires ServerOk(s) && !req.Create?
    ensures Quiet(s, DoBroadcast(s, up, i, lock, c, req))
  {
    if Live(s.cvs.slots, i) {
      var d := s.cvs.slots[i].value.data;
      var t := if d.q == [] then s else SetCV(s, i, CVData([], -1));
      SetCVQuiet(s, i, CVData([], -1));
      var e := WakeAll(t, up, lock, d.q);
      WakeAllQuiet(t, up, lock, d.q);
      QuietCompose(s, Eff(t, []), e);
      assert [] + e.out == e.out;
      QuietBefore(s, e, Answer(c, req, Status(true)));
    }
  }

  lemma DoSetQuiet(s: Server, i: int, index: int, value: int, c: Client, req: Request)
    requires ServerOk(s) && !req.Create?
    ensures Quiet(s, DoSet(s, i, index, value, c, req))
  {
    if Live(s.mvs.slots, i) && 0 <= index < |s.mvs.slots[i].value.data.v| {
      var m := s.mvs.slots[i].value;
      UpdateOk(s.mvs, i, m.(data := MVData(m.data.v[index := value])));
    }
  }

  /** The operations by identifier, destroys excepted, are quiet. */
  lemma DoQuiet(s: Server, up: set<int>, i: int, c: Client, req: Request)
    requires ServerOk(s) && IsQuietRequest(req)
    ensures Quiet(s, Do(s, up, i, c, req))
  {
    match req
    case Acquire(_) => DoLockQuiet(s, i, c, req);
    case Release(_) => DoLockQuiet(s, i, c, req);
    case Wait(_, lock) =>
      DoWaitQuiet(s, up, i, lock, c, req);
      QuietBefore(s, DoWait(s, up, i, lock, c, req), Ran(i, c, req));
    case Signal(_, lock) =>
      DoSignalQuiet(s, up, i, lock, c, req);
      QuietBefore(s, DoSignal(s, up, i, lock, c, req), Ran(i, c, req));
    case Broadcast(_, lock) =>
      DoBroadcastQuiet(s, up, i, lock, c, req);
      QuietBefore(s, DoBroadcast(s, up, i, lock, c, req), Ran(i, c, req));
    case Set(_, index, value) =>
      DoSetQuiet(s, i, index, value, c, req);
      QuietBefore(s, DoSet(s, i, index, value, c, req), Ran(i, c, req));
    case Get(_, index) =>
  }

  // ---- creates ----

  /** A create touches nothing but its own name, which is owned afterwards unless the table was full. */
  lemma DoCreateEffect(s: Server, c: Client, req: Request)
    requires ServerOk(s) && req.Create?
    ensures var e := DoCreate(s, c, req);
            && ServerOk(e.s)
            && e.s.me == s.me && e.s.pending == s.pending && e.s.nextID == s.nextID
            && |e.out| == 1 && e.out[0].Answer? && e.out[0].client == c && e.out[0].to == req
            && forall kind, name :: OwnsKey(e.s, kind, name)
                 == (OwnsKey(s, kind, name) || (HasRoomFor(s, req.kind) && kind == req.kind && name == req.name))
  {
    match req.kind
    case LockKind =>
      CreateNamedOk(s.locks, req.name, LockData(false, NOBODY, [], false));
      CreateKeepsMarks(s.locks, req.name);
    case CVKind => CreateNamedOk(s.cvs, req.name, CVData([], -1));
    case MVKind => CreateNamedOk(s.mvs, req.name, NewMV(req.size));
  }

  lemma CreateKeepsMarks(t: Table<LockData>, name: string)
    requires TableOk(t) && NoMarks(t)
    ensures NoMarks(CreateNamed(t, name, LockData(false, NOBODY, [], false)).0)
  {
    FindWithinVector(t);
  }
}
