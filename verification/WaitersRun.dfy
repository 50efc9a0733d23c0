/** The laws of Waiters for every message a server handles, and over every run of the service. */
module WaitersRun {
  import opened Options
  import opened Wire
  import opened Bits
  import opened Tables
  import opened Protocol
  import opened Network
  import opened Sends
  import opened Seqs
  import opened Waiters

  /** Like Balanced, with acquires issued for the clients of q, who are in no CV queue of s. */
  ghost predicate Owing(s: Server, e: Eff, q: seq<Client>) {
    && e.s.me == s.me && (Sound(s) ==> Sound(e.s))
    && (Sound(s) ==> forall c :: LockWaits(e.s.locks.slots, c) + Tally(e.out, AcquireAnswered(c))
                              == LockWaits(s.locks.slots, c) + Tally(e.out, AcquireRun(c)))
    && (Sound(s) ==> forall c :: CVWaits(e.s.cvs.slots, c) + Tally(e.out, AcquireIssued(c))
                              == CVWaits(s.cvs.slots, c) + Tally(e.out, ReleaseIssued(c)) + Times(q, c))
  }

  lemma {:induction false} SendsPlain(peers: seq<int>, m: Msg)
    ensures AllPlain(SendAll(peers, m))
  {
    if peers != [] { SendsPlain(peers[1..], m); }
  }

  /** The part of IssueLock after its first event. */
  lemma IssueLockBalanced(s: Server, up: set<int>, c: Client, req: Request)
    requires req.Acquire? || req.Release?
    ensures var e := IssueLock(s, up, c, req);
            e.out != [] && e.out[0] == Issued(c, req) && e.s.cvs == s.cvs && Balanced(s, Eff(e.s, e.out[1..]))
  {
    hide Balanced, Peers, DoLock, MyIndex;
    var i := MyIndex(Target(req), s.me);
    var peers := Peers(up, s.me, 0);
    var t := s.(nextID := s.nextID + 1);
    var e := IssueLock(s, up, c, req);
    if i != -1 {
      DoLockBalanced(s, i, c, req);
      DoLockCVs(s, i, c, req);
      assert e.out[1..] == DoLock(s, i, c, req).out;
    } else if peers == [] {
      DoLockBalanced(t, i, c, req);
      DoLockCVs(t, i, c, req);
      BalancedPlain(s, Eff(t, []));
      BalancedCompose(s, Eff(t, []), DoLock(t, i, c, req));
      assert e.out[1..] == [] + DoLock(t, i, c, req).out;
    } else {
      SendsPlain(peers, Ask(s.nextID, c, req));
      assert e.out[1..] == Forward(s, peers, c, req).out;
      BalancedPlain(s, Forward(s, peers, c, req));
    }
  }

  lemma DoLockCVs(s: Server, i: int, c: Client, req: Request)
    requires req.Acquire? || req.Release?
    ensures DoLock(s, i, c, req).s.cvs == s.cvs
  {
  }

  // ---- condition variables ----

  lemma SetCVWaits(s: Server, i: int, d: CVData, c: Client)
    requires Live(s.cvs.slots, i)
    ensures CVWaits(SetCV(s, i, d).cvs.slots, c) + Times(s.cvs.slots[i].value.data.q, c) == CVWaits(s.cvs.slots, c) + Times(d.q, c)
  {
    CVWaitsAt(s.cvs.slots, i, Some(s.cvs.slots[i].value.(data := d)), c);
  }

  lemma SetCVSound(s: Server, i: int, d: CVData)
    requires Live(s.cvs.slots, i)
    ensures Sound(s) ==> Sound(SetCV(s, i, d))
    ensures SetCV(s, i, d).locks == s.locks && SetCV(s, i, d).me == s.me
  {
    UpdateOk(s.cvs, i, s.cvs.slots[i].value.(data := d));
  }

  lemma IssuedTally(o: Out)
    ensures forall v: Event :: Tally([o], v) == Shows(o, v)
  {
    forall v: Event ensures Tally([o], v) == Shows(o, v) { TallyOne(o, v); }
  }

  /** An accepted waiter enters the queue as the release in its name is issued. */
  lemma EnterCV(s: Server, i: int, c: Client, lock: int, w: int)
    requires Live(s.cvs.slots, i)
    ensures var d := s.cvs.slots[i].value.data;
            Balanced(s, Eff(SetCV(s, i, CVData(d.q + [c], w)), [Issued(c, Release(lock))]))
  {
    hide LockWaits, CVWaits, Tally, Sound;
    var d := s.cvs.slots[i].value.data;
    SetCVSound(s, i, CVData(d.q + [c], w));
    IssuedTally(Issued(c, Release(lock)));
    forall x ensures CVWaits(SetCV(s, i, CVData(d.q + [c], w)).cvs.slots, x) == CVWaits(s.cvs.slots, x) + if c == x then 1 else 0 {
      SetCVWaits(s, i, CVData(d.q + [c], w), x);
      TimesPush(d.q, c, x);
    }
  }

  /** A woken waiter leaves the queue as the acquire in its name is issued. */
  lemma LeaveCV(s: Server, i: int, lock: int, w: int)
    requires Live(s.cvs.slots, i) && s.cvs.slots[i].value.data.q != []
    ensures var d := s.cvs.slots[i].value.data;
            Balanced(s, Eff(SetCV(s, i, CVData(d.q[1..], w)), [Issued(d.q[0], Acquire(lock))]))
  {
    hide LockWaits, CVWaits, Tally, Sound;
    var d := s.cvs.slots[i].value.data;
    SetCVSound(s, i, CVData(d.q[1..], w));
    IssuedTally(Issued(d.q[0], Acquire(lock)));
    forall x ensures CVWaits(SetCV(s, i, CVData(d.q[1..], w)).cvs.slots, x) + (if d.q[0] == x then 1 else 0) == CVWaits(s.cvs.slots, x) {
      SetCVWaits(s, i, CVData(d.q[1..], w), x);
    }
  }

  /** A queue change, the lock operation it goes with, and a closing answer. */
  lemma ThenIssue(s: Server, t: Server, up: set<int>, c: Client, req: Request, tail: seq<Out>)
    requires req.Acquire? || req.Release?
    requires Balanced(s, Eff(t, [Issued(c, req)])) && AllPlain(tail)
    ensures Balanced(s, Eff(IssueLock(t, up, c, req).s, IssueLock(t, up, c, req).out + tail))
  {
    hide Balanced, IssueLock, AllPlain;
    var e := IssueLock(t, up, c, req);
    IssueLockBalanced(t, up, c, req);
    BalancedCompose(s, Eff(t, [Issued(c, req)]), Eff(e.s, e.out[1..]));
    assert [Issued(c, req)] + e.out[1..] == e.out;
    NothingPlain();
    BalancedAround(s, Eff(e.s, e.out), [], tail);
    assert [] + e.out + tail == e.out + tail;
  }

  lemma NothingPlain()
    ensures AllPlain([])
  {
  }

  lemma DoWaitBalanced(s: Server, up: set<int>, i: int, lock: int, c: Client, req: Request)
    requires req.Wait?
    ensures Balanced(s, DoWait(s, up, i, lock, c, req))
  {
    hide Balanced, IssueLock;
    var e := DoWait(s, up, i, lock, c, req);
    if e == Eff(s, [Answer(c, req, Status(false))]) {
      BalancedPlain(s, e);
    } else {
      var d := s.cvs.slots[i].value.data;
      EnterCV(s, i, c, lock, lock);
      ThenIssue(s, SetCV(s, i, CVData(d.q + [c], lock)), up, c, Release(lock), []);
      assert e.out + [] == e.out;
    }
  }

  lemma SignalWakes(s: Server, up: set<int>, i: int, lock: int, c: Client, req: Request)
    requires req.Signal? && Live(s.cvs.slots, i)
    requires var d := s.cvs.slots[i].value.data; d.waitingLock != -1 && d.q != [] && d.waitingLock == lock
    ensures Balanced(s, DoSignal(s, up, i, lock, c, req))
  {
    hide Balanced, IssueLock, AllPlain, SetCV;
    var d := s.cvs.slots[i].value.data;
    var w := if |d.q| == 1 then -1 else d.waitingLock;
    LeaveCV(s, i, lock, w);
    AnswerPlain(c, req, Status(true));
    ThenIssue(s, SetCV(s, i, CVData(d.q[1..], w)), up, d.q[0], Acquire(lock), [Answer(c, req, Status(true))]);
  }

  lemma AnswerPlain(c: Client, req: Request, r: Reply)
    requires !req.Acquire?
    ensures AllPlain([Answer(c, req, r)])
  {
  }

  lemma DoSignalBalanced(s: Server, up: set<int>, i: int, lock: int, c: Client, req: Request)
    requires req.Signal?
    ensures Balanced(s, DoSignal(s, up, i, lock, c, req))
  {
    hide Balanced, IssueLock, SetCV;
    if Live(s.cvs.slots, i) && s.cvs.slots[i].value.data.waitingLock != -1 && s.cvs.slots[i].value.data.q != []
       && s.cvs.slots[i].value.data.waitingLock == lock {
      SignalWakes(s, up, i, lock, c, req);
    } else {
      BalancedPlain(s, DoSignal(s, up, i, lock, c, req));
    }
  }

  lemma OwingOne(s: Server, up: set<int>, c: Client, lock: int)
    ensures Owing(s, IssueLock(s, up, c, Acquire(lock)), [c])
  {
    hide LockWaits, CVWaits, Tally, Sound, IssueLock;
    var e := IssueLock(s, up, c, Acquire(lock));
    IssueLockBalanced(s, up, c, Acquire(lock));
    assert e.out == [Issued(c, Acquire(lock))] + e.out[1..];
    forall v: Event ensures Tally(e.out, v) == Shows(Issued(c, Acquire(lock)), v) + Tally(e.out[1..], v) {
      TallyAppend([Issued(c, Acquire(lock))], e.out[1..], v);
      TallyOne(Issued(c, Acquire(lock)), v);
    }
    forall x ensures Times([c], x) == if c == x then 1 else 0 { assert [c][1..] == []; }
  }

  lemma OwingNothing(s: Server)
    ensures Owing(s, Eff(s, []), [])
  {
  }

  lemma OwingCompose(s: Server, a: Eff, p: seq<Client>, b: Eff, q: seq<Client>)
    requires Owing(s, a, p) && Owing(a.s, b, q)
    ensures Owing(s, Eff(b.s, a.out + b.out), p + q)
  {
    hide LockWaits, CVWaits, Tally, Sound, Times;
    forall v: Event ensures Tally(a.out + b.out, v) == Tally(a.out, v) + Tally(b.out, v) { TallyAppend(a.out, b.out, v); }
    forall c ensures Times(p + q, c) == Times(p, c) + Times(q, c) { TimesAppend(p, q, c); }
  }

  lemma {:induction false} WakeAllOwing(s: Server, up: set<int>, lock: int, q: seq<Client>)
    ensures Owing(s, WakeAll(s, up, lock, q), q)
    decreases |q|
  {
    hide Owing, IssueLock;
    if q == [] {
      OwingNothing(s);
    } else {
      var e := IssueLock(s, up, q[0], Acquire(lock));
      OwingOne(s, up, q[0], lock);
      WakeAllOwing(e.s, up, lock, q[1..]);
      OwingCompose(s, e, [q[0]], WakeAll(e.s, up, lock, q[1..]), q[1..]);
      assert [q[0]] + q[1..] == q;
    }
  }

  lemma EmptyCV(s: Server, t: Server, i: int, e: Eff)
    requires Live(s.cvs.slots, i)
    requires t == (if s.cvs.slots[i].value.data.q == [] then s else SetCV(s, i, CVData([], -1)))
    requires Owing(t, e, s.cvs.slots[i].value.data.q)
    ensures Balanced(s, e)
  {
    hide LockWaits, CVWaits, Tally, Sound;
    var q := s.cvs.slots[i].value.data.q;
    SetCVSound(s, i, CVData([], -1));
    forall x ensures CVWaits(t.cvs.slots, x) + Times(q, x) == CVWaits(s.cvs.slots, x) {
      SetCVWaits(s, i, CVData([], -1), x);
    }
  }

  lemma DoBroadcastBalanced(s: Server, up: set<int>, i: int, lock: int, c: Client, req: Request)
    requires req.Broadcast?
    ensures Balanced(s, DoBroadcast(s, up, i, lock, c, req))
  {
    hide Balanced, WakeAll, Owing;
    var e := DoBroadcast(s, up, i, lock, c, req);
    if !Live(s.cvs.slots, i) {
      BalancedPlain(s, e);
    } else {
      var d := s.cvs.slots[i].value.data;
      var t := if d.q == [] then s else SetCV(s, i, CVData([], -1));
      WakeAllOwing(t, up, lock, d.q);
      EmptyCV(s, t, i, WakeAll(t, up, lock, d.q));
      NothingPlain();
      BalancedAround(s, WakeAll(t, up, lock, d.q), [], [Answer(c, req, Status(true))]);
      assert [] + WakeAll(t, up, lock, d.q).out + [Answer(c, req, Status(true))] == e.out;
    }
  }

  lemma DoDestroyCVBalanced(s: Server, i: int)
    ensures Balanced(s, DoDestroyCV(s, i))
  {
    hide LockWaits, CVWaits;
    if Live(s.cvs.slots, i) {
      var v := s.cvs.slots[i].value;
      UpdateOk(s.cvs, i, v.(count := v.count - 1));
      if Sound(s) { DeleteOk(s.cvs, i); }
      forall x ensures CVWaits(DoDestroyCV(s, i).s.cvs.slots, x) == CVWaits(s.cvs.slots, x) {
        CVWaitsAt(s.cvs.slots, i, None, x);
        CVWaitsAt(s.cvs.slots, i, Some(v.(count := v.count - 1)), x);
      }
    }
  }

  lemma DoMVBalanced(s: Server, i: int, c: Client, req: Request, index: int, value: int)
    requires req.Set? || req.Get? || req.DestroyMV?
    ensures Balanced(s, DoSet(s, i, index, value, c, req)) && Balanced(s, DoGet(s, i, index, c, req)) && Balanced(s, DoDestroyMV(s, i))
  {
    hide Balanced;
    if Live(s.mvs.slots, i) {
      var m := s.mvs.slots[i].value;
      UpdateOk(s.mvs, i, m.(count := m.count - 1));
      if 0 <= index < |m.data.v| { UpdateOk(s.mvs, i, m.(data := MVData(m.data.v[index := value]))); }
      if Sound(s) { DeleteOk(s.mvs, i); }
    }
    BalancedPlain(s, DoSet(s, i, index, value, c, req));
    BalancedPlain(s, DoGet(s, i, index, c, req));
    BalancedPlain(s, DoDestroyMV(s, i));
  }

  lemma DoBalanced(s: Server, up: set<int>, i: int, c: Client, req: Request)
    requires !req.Create?
    ensures Balanced(s, Do(s, up, i, c, req))
  {
    hide Balanced, DoWait, DoSignal, DoBroadcast, DoLock, DoDestroyCV, DoSet, DoGet, DoDestroyMV;
    if req.Acquire? || req.Release? || req.DestroyLock? {
      DoLockBalanced(s, i, c, req);
    } else {
      var e := Do(s, up, i, c, req);
      match req {
        case Wait(_, lock) => DoWaitBalanced(s, up, i, lock, c, req);
        case Signal(_, lock) => DoSignalBalanced(s, up, i, lock, c, req);
        case Broadcast(_, lock) => DoBroadcastBalanced(s, up, i, lock, c, req);
        case DestroyCV(_) => DoDestroyCVBalanced(s, i);
        case Set(_, index, value) => DoMVBalanced(s, i, c, req, index, value);
        case Get(_, index) => DoMVBalanced(s, i, c, req, index, 0);
        case DestroyMV(_) => DoMVBalanced(s, i, c, req, 0, 0);
      }
      BalancedAround(s, Eff(e.s, e.out[1..]), [Ran(i, c, req)], []);
      assert [Ran(i, c, req)] + e.out[1..] + [] == e.out;
    }
  }

  // ---- creates ----

  lemma InsertLockWaits(t: Table<LockData>, e: Entry<LockData>, c: Client)
    requires TableOk(t) && e.data.q == []
    ensures LockWaits(Insert(t, e).0.slots, c) == LockWaits(t.slots, c)
  {
    FindWithinVector(t);
    var i := FirstClear(t.bits, 0);
    if i != -1 {
      if i == |t.slots| { LockWaitsPush(t.slots, Some(e), c); }
      else { LockWaitsAt(t.slots, i, Some(e), c); }
    }
  }

  lemma InsertCVWaits(t: Table<CVData>, e: Entry<CVData>, c: Client)
    requires TableOk(t) && e.data.q == []
    ensures CVWaits(Insert(t, e).0.slots, c) == CVWaits(t.slots, c)
  {
    FindWithinVector(t);
    var i := FirstClear(t.bits, 0);
    if i != -1 {
      if i == |t.slots| { CVWaitsPush(t.slots, Some(e), c); }
      else { CVWaitsAt(t.slots, i, Some(e), c); }
    }
  }

  lemma CreateLockWaits(t: Table<LockData>, name: string, c: Client)
    requires TableOk(t)
    ensures LockWaits(CreateNamed(t, name, LockData(false, NOBODY, [], false)).0.slots, c) == LockWaits(t.slots, c)
  {
    hide LockWaits;
    var i := FindNamed(t.slots, name, 0);
    if i == -1 {
      InsertLockWaits(t, Entry(name, 1, LockData(false, NOBODY, [], false)), c);
    } else {
      LockWaitsAt(t.slots, i, Some(t.slots[i].value.(count := t.slots[i].value.count + 1)), c);
    }
  }

  lemma CreateKeepsIdle(t: Table<LockData>, name: string)
    requires TableOk(t) && LocksIdle(t)
    ensures LocksIdle(CreateNamed(t, name, LockData(false, NOBODY, [], false)).0)
  {
    var u := CreateNamed(t, name, LockData(false, NOBODY, [], false)).0;
    forall j | Live(u.slots, j) ensures IdleOk(u.slots[j].value.data) {
      if Live(t.slots, j) { assert IdleOk(t.slots[j].value.data); }
    }
  }

  lemma CreateLockBalanced(s: Server, c: Client, req: Request)
    requires req.Create? && req.kind == LockKind
    ensures Balanced(s, DoCreate(s, c, req))
  {
    hide LockWaits, CVWaits, CreateNamed, TableOk, LocksIdle, Tally;
    IssuedTally(DoCreate(s, c, req).out[0]);
    if Sound(s) {
      CreateNamedOk(s.locks, req.name, LockData(false, NOBODY, [], false));
      CreateKeepsIdle(s.locks, req.name);
      forall x ensures LockWaits(DoCreate(s, c, req).s.locks.slots, x) == LockWaits(s.locks.slots, x) {
        CreateLockWaits(s.locks, req.name, x);
      }
    }
  }

  lemma CreateCVBalanced(s: Server, c: Client, req: Request)
    requires req.Create? && req.kind == CVKind
    ensures Balanced(s, DoCreate(s, c, req))
  {
    hide LockWaits, CVWaits;
    IssuedTally(DoCreate(s, c, req).out[0]);
    if Sound(s) {
      CreateNamedOk(s.cvs, req.name, CVData([], -1));
      var i := FindNamed(s.cvs.slots, req.name, 0);
      forall x ensures CVWaits(DoCreate(s, c, req).s.cvs.slots, x) == CVWaits(s.cvs.slots, x) {
        if i == -1 {
          InsertCVWaits(s.cvs, Entry(req.name, 1, CVData([], -1)), x);
        } else {
          CVWaitsAt(s.cvs.slots, i, Some(s.cvs.slots[i].value.(count := s.cvs.slots[i].value.count + 1)), x);
        }
      }
    }
  }

  lemma DoCreateBalanced(s: Server, c: Client, req: Request)
    requires req.Create?
    ensures Balanced(s, DoCreate(s, c, req))
  {
    hide Balanced;
    match req.kind
    case LockKind => CreateLockBalanced(s, c, req);
    case CVKind => CreateCVBalanced(s, c, req);
    case MVKind =>
      if Sound(s) { CreateNamedOk(s.mvs, req.name, NewMV(req.size)); }
      BalancedPlain(s, DoCreate(s, c, req));
  }

  lemma {:induction false} AnswerNamedBalanced(s: Server, kind: Kind, name: string)
    ensures Balanced(s, AnswerNamed(s, kind, name))
    decreases |s.pending|
  {
    hide Balanced, DoCreate;
    var i := FindPendingNamed(s.pending, kind, name, 0);
    if i == -1 {
      BalancedPlain(s, Eff(s, []));
    } else {
      var e := DoCreate(s, s.pending[i].client, s.pending[i].req);
      var t := e.s.(pending := RemoveAt(s.pending, i));
      DoCreateBalanced(s, s.pending[i].client, s.pending[i].req);
      DoCreateFrame(s, s.pending[i].client, s.pending[i].req);
      AnswerNamedBalanced(t, kind, name);
      ThenPending(s, e, t.pending, AnswerNamed(t, kind, name));
    }
  }

  /** The pending list plays no part in the laws. */
  lemma ThenPending(s: Server, a: Eff, ps: seq<Pending>, b: Eff)
    requires Balanced(s, a) && Balanced(a.s.(pending := ps), b)
    ensures Balanced(s, Eff(b.s, a.out + b.out))
  {
    hide Balanced;
    var t := a.s.(pending := ps);
    BalancedPlain(a.s, Eff(t, []));
    BalancedCompose(s, a, Eff(t, []));
    BalancedCompose(s, Eff(t, a.out + []), b);
    assert a.out + [] + b.out == a.out + b.out;
  }

  // ---- messages ----

  lemma FromNext(s: Server, t: Server, e: Eff)
    requires t.me == s.me && t.locks == s.locks && t.cvs == s.cvs && t.mvs == s.mvs && Balanced(t, e)
    ensures Balanced(s, e)
  {
  }

  /** Everything after the first event of a client's request. */
  lemma OnClientBalanced(s: Server, up: set<int>, c: Client, req: Request)
    ensures var e := OnClient(s, up, c, req);
            e.out != [] && e.out[0] == Issued(c, req) && Balanced(s, Eff(e.s, e.out[1..]))
  {
    hide Balanced, Do, DoCreate, Peers, MyIndex;
    var e := OnClient(s, up, c, req);
    var peers := Peers(up, s.me, 0);
    var t := s.(nextID := s.nextID + 1);
    SendsPlain(peers, Ask(s.nextID, c, req));
    BalancedPlain(s, Forward(s, peers, c, req));
    if req.Create? {
      DoCreateBalanced(s, c, req);
      DoCreateBalanced(t, c, req);
      FromNext(s, t, DoCreate(t, c, req));
    } else {
      var i := MyIndex(Target(req), s.me);
      DoBalanced(s, up, i, c, req);
      DoBalanced(t, up, i, c, req);
      FromNext(s, t, Do(t, up, i, c, req));
    }
    assert e.out[1..] == (if req.Create? then
        if OwnsKey(s, req.kind, req.name) then DoCreate(s, c, req) else if peers == [] then DoCreate(t, c, req) else Forward(s, peers, c, req)
      else if MyIndex(Target(req), s.me) != -1 then Do(s, up, MyIndex(Target(req), s.me), c, req)
      else if peers == [] then Do(t, up, MyIndex(Target(req), s.me), c, req) else Forward(s, peers, c, req)).out;
  }

  lemma OnAskBalanced(s: Server, up: set<int>, from: int, m: Msg)
    requires m.Ask?
    ensures Balanced(s, OnAsk(s, up, from, m))
  {
    hide Balanced, Do, DoCreate, MyIndex, FindPendingNamed;
    var e := OnAsk(s, up, from, m);
    BalancedPlain(s, Eff(s, []));
    if m.req.Create? && OwnsKey(s, m.req.kind, m.req.name) {
      DoCreateBalanced(s, m.client, m.req);
      BalancedAround(s, DoCreate(s, m.client, m.req), [e.out[0]], []);
      assert e.out == [e.out[0]] + DoCreate(s, m.client, m.req).out + [];
    } else if !m.req.Create? && MyIndex(Target(m.req), s.me) != -1 {
      var f := Do(s, up, MyIndex(Target(m.req), s.me), m.client, m.req);
      DoBalanced(s, up, MyIndex(Target(m.req), s.me), m.client, m.req);
      BalancedAround(s, f, [e.out[0]], []);
      assert e.out == [e.out[0]] + f.out + [];
    } else {
      BalancedPlain(s, e);
    }
  }

  lemma OnAllNoBalanced(s: Server, up: set<int>, i: int, req: Request)
    requires 0 <= i < |s.pending| && SameTarget(s.pending[i].req, req)
    ensures Balanced(s, OnAllNo(s, up, i, req))
  {
    hide Balanced, Do, DoCreate, AnswerNamed, OpCode;
    var p := s.pending[i];
    if req.Create? {
      var e := DoCreate(s, p.client, p.req);
      var t := e.s.(pending := RemoveAt(s.pending, i));
      DoCreateBalanced(s, p.client, p.req);
      DoCreateFrame(s, p.client, p.req);
      AnswerNamedBalanced(t, req.kind, req.name);
      ThenPending(s, e, t.pending, AnswerNamed(t, req.kind, req.name));
    } else {
      var e := Do(s, up, Target(req), p.client, req);
      DoBalanced(s, up, Target(req), p.client, req);
      if i < |e.s.pending| {
        var t := e.s.(pending := RemoveAt(e.s.pending, i));
        BalancedPlain(t, Eff(t, []));
        ThenPending(s, e, t.pending, Eff(t, []));
        assert e.out + [] == e.out;
      }
    }
  }

  lemma OnTellBalanced(s: Server, up: set<int>, m: Msg)
    requires m.Tell?
    ensures Balanced(s, OnTell(s, up, m))
  {
    hide Balanced, OnAllNo, DropNamed, FindPending;
    var i := FindPending(s.pending, m, 0);
    BalancedPlain(s, Eff(OnTell(s, up, Tell(m.requestID, m.client, m.req, true)).s, []));
    if i == -1 {
      BalancedPlain(s, Eff(s, []));
    } else if !m.yes {
      var t := s.(pending := s.pending[i := s.pending[i].(noCount := s.pending[i].noCount + 1)]);
      BalancedPlain(t, Eff(t, []));
      FromNext(s, t, Eff(t, []));
      if t.pending[i].noCount == t.pending[i].sentCount {
        OnAllNoBalanced(t, up, i, m.req);
        FromNext(s, t, OnAllNo(t, up, i, m.req));
      }
    } else {
      BalancedPlain(s, OnYes(s, i, m.req));
    }
  }

  // ---- every run ----

  function TallyAt(trace: seq<(int, Out)>, i: int, v: Event): nat {
    if trace == [] then 0 else (if trace[0].0 == i then Shows(trace[0].1, v) else 0) + TallyAt(trace[1..], i, v)
  }

  lemma {:induction false} TallyAtAppend(a: seq<(int, Out)>, b: seq<(int, Out)>, i: int, v: Event)
    ensures TallyAt(a + b, i, v) == TallyAt(a, i, v) + TallyAt(b, i, v)
  {
    if a == [] {
      assert a + b == b;
    } else {
      assert (a + b)[0] == a[0] && (a + b)[1..] == a[1..] + b;
      TallyAtAppend(a[1..], b, i, v);
    }
  }

  lemma {:induction false} TallyAtOne(me: int, out: seq<Out>, i: int, v: Event)
    ensures TallyAt(At(me, out), i, v) == if i == me then Tally(out, v) else 0
  {
    if out != [] {
      var rest := At(me, out[1..]);
      assert ([(me, out[0])] + rest)[1..] == rest;
      TallyAtOne(me, out[1..], i, v);
    }
  }

  lemma TallyAtGrows(trace: seq<(int, Out)>, me: int, out: seq<Out>, i: int, v: Event)
    ensures TallyAt(trace + At(me, out), i, v) == TallyAt(trace, i, v) + if i == me then Tally(out, v) else 0
  {
    TallyAtAppend(trace, At(me, out), i, v);
    TallyAtOne(me, out, i, v);
  }

  /** How often clients themselves sent server i this request. */
  function Asked(acts: seq<Action>, i: int, v: Event): nat {
    if acts == [] then 0
    else (if acts[0].FromClient? && acts[0].server == i then Shows(Issued(acts[0].client, acts[0].req), v) else 0) + Asked(acts[1..], i, v)
  }

  /** Server i keeps its tables, and the first law holds of it since the start. */
  ghost predicate KeepsLaws(s: Server, trace: seq<(int, Out)>, i: int) {
    Sound(s) && forall c :: LockWaits(s.locks.slots, c) + TallyAt(trace, i, AcquireAnswered(c)) == TallyAt(trace, i, AcquireRun(c))
  }

  ghost predicate AllKeepLaws(sys: Sys) {
    WellFormed(sys) && forall i :: i in sys.up ==> KeepsLaws(sys.servers[i], sys.trace, i)
  }

  /** How far the CV queues of a server are from what it issued: zero but for clients' own requests. */
  function Drift(s: Server, trace: seq<(int, Out)>, i: int, c: Client): int {
    CVWaits(s.cvs.slots, c) + TallyAt(trace, i, AcquireIssued(c)) - TallyAt(trace, i, ReleaseIssued(c))
  }

  function Due(a: Action, i: int, v: Event): nat {
    if a.FromClient? && a.server == i then Shows(Issued(a.client, a.req), v) else 0
  }

  lemma ActorKeeps(s: Server, trace: seq<(int, Out)>, i: int, e: Eff)
    requires KeepsLaws(s, trace, i) && Balanced(s, e)
    ensures KeepsLaws(e.s, trace + At(i, e.out), i)
    ensures forall c :: Drift(e.s, trace + At(i, e.out), i, c) == Drift(s, trace, i, c)
  {
    hide LockWaits, CVWaits, Tally, TallyAt, At, Sound;
    forall v: Event ensures TallyAt(trace + At(i, e.out), i, v) == TallyAt(trace, i, v) + Tally(e.out, v) {
      TallyAtGrows(trace, i, e.out, i, v);
    }
  }

  lemma OtherKeeps(s: Server, trace: seq<(int, Out)>, i: int, me: int, out: seq<Out>)
    requires KeepsLaws(s, trace, i) && i != me
    ensures KeepsLaws(s, trace + At(me, out), i)
    ensures forall c :: Drift(s, trace + At(me, out), i, c) == Drift(s, trace, i, c)
  {
    hide LockWaits, CVWaits, TallyAt, At, Sound;
    forall v: Event ensures TallyAt(trace + At(me, out), i, v) == TallyAt(trace, i, v) { TallyAtGrows(trace, me, out, i, v); }
  }

  /** A client's request: its first event is the client's own doing. */
  lemma ClientActorKeeps(s: Server, up: set<int>, trace: seq<(int, Out)>, i: int, c: Client, req: Request)
    requires KeepsLaws(s, trace, i)
    ensures var e := OnClient(s, up, c, req);
            && KeepsLaws(e.s, trace + At(i, e.out), i)
            && forall d :: Drift(e.s, trace + At(i, e.out), i, d) == Drift(s, trace, i, d)
                 + Shows(Issued(c, req), AcquireIssued(d)) - Shows(Issued(c, req), ReleaseIssued(d))
  {
    hide LockWaits, CVWaits, Tally, TallyAt, At, Sound, OnClient, Balanced;
    var e := OnClient(s, up, c, req);
    OnClientBalanced(s, up, c, req);
    var first := trace + At(i, [e.out[0]]);
    forall v: Event ensures TallyAt(first, i, v) == TallyAt(trace, i, v) + Shows(e.out[0], v) {
      TallyAtGrows(trace, i, [e.out[0]], i, v);
      TallyOne(e.out[0], v);
    }
    ActorKeeps(s, first, i, Eff(e.s, e.out[1..]));
    AtAppend(i, [e.out[0]], e.out[1..]);
    assert [e.out[0]] + e.out[1..] == e.out;
    assert first + At(i, e.out[1..]) == trace + At(i, e.out);
  }

  lemma StepLaws(sys: Sys, a: Action, i: int)
    requires AllKeepLaws(sys) && Enabled(sys, a) && i in sys.up
    ensures var next := Step(sys, a);
            && KeepsLaws(next.servers[i], next.trace, i)
            && forall c :: Drift(next.servers[i], next.trace, i, c) == Drift(sys.servers[i], sys.trace, i, c)
                 + Due(a, i, AcquireIssued(c)) - Due(a, i, ReleaseIssued(c))
  {
    hide KeepsLaws, Drift, OnClient, OnAsk, OnTell, Post, At;
    match a
    case FromClient(j, c, req) =>
      if i == j { ClientActorKeeps(sys.servers[i], sys.up, sys.trace, i, c, req); }
      else { OtherKeeps(sys.servers[i], sys.trace, i, j, OnClient(sys.servers[j], sys.up, c, req).out); }
    case Deliver(from, j) =>
      var m := Chan(sys.chan, from, j)[0];
      var e := OnMsg(sys.servers[j], sys.up, from, m);
      if i == j {
        if m.Ask? { OnAskBalanced(sys.servers[j], sys.up, from, m); } else { OnTellBalanced(sys.servers[j], sys.up, m); }
        ActorKeeps(sys.servers[i], sys.trace, i, e);
      } else {
        OtherKeeps(sys.servers[i], sys.trace, i, j, e.out);
      }
  }

  lemma StepKeepsLaws(sys: Sys, a: Action)
    requires AllKeepLaws(sys) && Enabled(sys, a)
    ensures AllKeepLaws(Step(sys, a)) && Step(sys, a).up == sys.up
  {
    hide Step, Enabled, KeepsLaws;
    StepWellFormed(sys, a);
    StepSameUp(sys, a);
    forall i | i in sys.up ensures KeepsLaws(Step(sys, a).servers[i], Step(sys, a).trace, i) { StepLaws(sys, a, i); }
  }

  lemma StepSameUp(sys: Sys, a: Action)
    requires Enabled(sys, a)
    ensures Step(sys, a).up == sys.up
  {
  }

  lemma {:induction false} RunLaws(sys: Sys, acts: seq<Action>, i: int, c: Client)
    requires AllKeepLaws(sys) && Run(sys, acts) && i in sys.up
    ensures var end := After(sys, acts);
            && AllKeepLaws(end) && end.up == sys.up
            && Drift(end.servers[i], end.trace, i, c) == Drift(sys.servers[i], sys.trace, i, c)
                 + Asked(acts, i, AcquireIssued(c)) - Asked(acts, i, ReleaseIssued(c))
    decreases |acts|
  {
    hide Step, Enabled, KeepsLaws, Drift;
    if acts != [] {
      StepKeepsLaws(sys, acts[0]);
      StepLaws(sys, acts[0], i);
      RunLaws(Step(sys, acts[0]), acts[1..], i, c);
    }
  }

  lemma NoWaits(c: Client)
    ensures LockWaits([], c) == 0 && CVWaits([], c) == 0
  {
  }

  lemma InitialLaws(sys: Sys, i: int, c: Client)
    requires Initial(sys) && i in sys.up
    ensures AllKeepLaws(sys) && Drift(sys.servers[i], sys.trace, i, c) == 0
  {
    forall d ensures LockWaits([], d) == 0 && CVWaits([], d) == 0 { NoWaits(d); }
  }

  /** Server tables, over every run with any requests, creates and destroys included: a bit is set
      exactly when its slot is live, live names differ, the first clear bit is at most the vector's
      size, and a lock that is free has an empty queue. */
  lemma TablesStaySound(sys: Sys, acts: seq<Action>, i: int)
    requires Initial(sys) && Run(sys, acts) && i in sys.up && i in After(sys, acts).servers
    ensures var s := After(sys, acts).servers[i];
            && TableOk(s.locks) && TableOk(s.cvs) && TableOk(s.mvs)
            && FirstClear(s.locks.bits, 0) <= |s.locks.slots|
            && FirstClear(s.cvs.bits, 0) <= |s.cvs.slots|
            && FirstClear(s.mvs.bits, 0) <= |s.mvs.slots|
            && forall k :: Live(s.locks.slots, k) && !s.locks.slots[k].value.data.busy ==> s.locks.slots[k].value.data.q == []
  {
    hide Initial, Step, Enabled, TableOk, Drift;
    InitialLaws(sys, i, NOBODY);
    RunLaws(sys, acts, i, NOBODY);
    var s := After(sys, acts).servers[i];
    FindWithinVector(s.locks);
    FindWithinVector(s.cvs);
    FindWithinVector(s.mvs);
    assert LocksIdle(s.locks);
  }

  /** Lock service: on every server, over every run, the acquires that ran there for a client are
      the answers it was given for them plus its places in the lock queues. */
  lemma AcquiresConserved(sys: Sys, acts: seq<Action>, i: int, c: Client)
    requires Initial(sys) && Run(sys, acts) && i in sys.up && i in After(sys, acts).servers
    ensures var end := After(sys, acts);
            TallyAt(end.trace, i, AcquireRun(c))
              == TallyAt(end.trace, i, AcquireAnswered(c)) + LockWaits(end.servers[i].locks.slots, c)
  {
    hide Initial, Step, Enabled, Drift, LockWaits, TallyAt;
    InitialLaws(sys, i, c);
    RunLaws(sys, acts, i, c);
    assert KeepsLaws(After(sys, acts).servers[i], After(sys, acts).trace, i);
  }

  /** Distributed wait and signal lose no one: on every server, over every run, the waits it
      accepted for a client (each issues a release in the client's name, besides those the client
      asks for itself) are the wake-ups (each issues an acquire in its name, besides its own) plus
      its places in the CV queues. */
  lemma WaitersConserved(sys: Sys, acts: seq<Action>, i: int, c: Client)
    requires Initial(sys) && Run(sys, acts) && i in sys.up && i in After(sys, acts).servers
    ensures var end := After(sys, acts);
            var acceptedWaits := TallyAt(end.trace, i, ReleaseIssued(c)) - Asked(acts, i, ReleaseIssued(c));
            var wakeUps := TallyAt(end.trace, i, AcquireIssued(c)) - Asked(acts, i, AcquireIssued(c));
            acceptedWaits == wakeUps + CVWaits(end.servers[i].cvs.slots, c)
  {
    hide Initial, Step, Enabled, CVWaits, TallyAt;
    InitialLaws(sys, i, c);
    RunLaws(sys, acts, i, c);
  }
}
