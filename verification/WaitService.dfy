/** The condition-variable and monitor-variable operations one server runs: waiters are woken in
    arrival order and reacquire a lock; a variable holds what was last set. */
module WaitService {
  import opened Wire
  import opened Tables
  import opened Bits
  import opened Protocol
  import opened Seqs

  /** An operation on a condition variable's slot. */
  datatype CVOp = CVOp(slot: int, client: Client, req: Request)

  predicate IsCVOp(o: CVOp) { o.req.Wait? || o.req.Signal? || o.req.Broadcast? }

  type CVOps = ops: seq<CVOp> | forall k :: 0 <= k < |ops| ==> IsCVOp(ops[k])

  /** The operation, but for the note that it ran. */
  function Run1(s: Server, up: set<int>, o: CVOp): Eff
    requires IsCVOp(o)
  {
    var e := Do(s, up, o.slot, o.client, o.req);
    Eff(e.s, if e.out == [] then [] else e.out[1..])
  }

  lemma RunsAs(s: Server, up: set<int>, o: CVOp)
    requires IsCVOp(o)
    ensures Run1(s, up, o) == match o.req
                              case Wait(_, lock) => DoWait(s, up, o.slot, lock, o.client, o.req)
                              case Signal(_, lock) => DoSignal(s, up, o.slot, lock, o.client, o.req)
                              case Broadcast(_, lock) => DoBroadcast(s, up, o.slot, lock, o.client, o.req)
  {
    hide DoWait, DoSignal, DoBroadcast;
    var e := Run1(s, up, o);
    assert ([Ran(o.slot, o.client, o.req)] + e.out)[1..] == e.out;
  }

  function Serve(s: Server, up: set<int>, ops: CVOps): Server
    decreases |ops|
  {
    if ops == [] then s else Serve(Run1(s, up, ops[0]).s, up, ops[1..])
  }

  function QueueOf(s: Server, k: int): seq<Client> {
    if Live(s.cvs.slots, k) then s.cvs.slots[k].value.data.q else []
  }

  /** The client that this operation puts to wait on slot k: it issues a release for it. */
  function Accepted(s: Server, up: set<int>, o: CVOp, k: int): seq<Client>
    requires IsCVOp(o)
  {
    var out := Run1(s, up, o).out;
    if o.slot == k && o.req.Wait? && out != [] && out[0] == Issued(o.client, Release(o.req.lock)) then [o.client] else []
  }

  /** The clients for whom acquires are issued, in order. */
  function Acquirers(out: seq<Out>): seq<Client> {
    if out == [] then []
    else (if out[0].Issued? && out[0].what.Acquire? then [out[0].issuer] else []) + Acquirers(out[1..])
  }

  /** The clients that this operation wakes from slot k, in order. */
  function Woken(s: Server, up: set<int>, o: CVOp, k: int): seq<Client>
    requires IsCVOp(o)
  {
    if o.slot == k && !o.req.Wait? then Acquirers(Run1(s, up, o).out) else []
  }

  function AllAccepted(s: Server, up: set<int>, ops: CVOps, k: int): seq<Client>
    decreases |ops|
  {
    if ops == [] then [] else Accepted(s, up, ops[0], k) + AllAccepted(Run1(s, up, ops[0]).s, up, ops[1..], k)
  }

  function AllWoken(s: Server, up: set<int>, ops: CVOps, k: int): seq<Client>
    decreases |ops|
  {
    if ops == [] then [] else Woken(s, up, ops[0], k) + AllWoken(Run1(s, up, ops[0]).s, up, ops[1..], k)
  }

  lemma {:induction false} AcquirersAppend(a: seq<Out>, b: seq<Out>)
    ensures Acquirers(a + b) == Acquirers(a) + Acquirers(b)
  {
    if a == [] {
      assert a + b == b;
    } else {
      assert (a + b)[0] == a[0] && (a + b)[1..] == a[1..] + b;
      AcquirersAppend(a[1..], b);
    }
  }

  /** Nothing but its first event is an Issued. */
  ghost predicate NoIssue(out: seq<Out>) { forall k :: 0 <= k < |out| ==> !out[k].Issued? }

  lemma {:induction false} NoneAcquire(out: seq<Out>)
    requires NoIssue(out)
    ensures Acquirers(out) == []
  {
    if out != [] { NoneAcquire(out[1..]); }
  }

  lemma {:induction false} SendsIssueNothing(peers: seq<int>, m: Msg)
    ensures NoIssue(SendAll(peers, m))
  {
    if peers != [] { SendsIssueNothing(peers[1..], m); }
  }

  lemma IssueLockShape(s: Server, up: set<int>, c: Client, req: Request)
    requires req.Acquire? || req.Release?
    ensures var e := IssueLock(s, up, c, req); e.out != [] && e.out[0] == Issued(c, req) && NoIssue(e.out[1..]) && e.s.cvs == s.cvs
  {
    hide Peers, MyIndex;
    SendsIssueNothing(Peers(up, s.me, 0), Ask(s.nextID, c, req));
    var t := s.(nextID := s.nextID + 1);
    var i := MyIndex(Target(req), s.me);
    DoLockShape(s, i, c, req);
    DoLockShape(t, i, c, req);
  }

  lemma DoLockShape(s: Server, i: int, c: Client, req: Request)
    requires req.Acquire? || req.Release?
    ensures NoIssue(DoLock(s, i, c, req).out) && DoLock(s, i, c, req).s.cvs == s.cvs
  {
  }

  lemma IssueAcquirers(s: Server, up: set<int>, c: Client, lock: int)
    ensures Acquirers(IssueLock(s, up, c, Acquire(lock)).out) == [c]
  {
    hide IssueLock;
    IssueLockShape(s, up, c, Acquire(lock));
    NoneAcquire(IssueLock(s, up, c, Acquire(lock)).out[1..]);
  }

  /** Waking a queue issues an acquire of the named lock for each waiter, in order. */
  lemma {:induction false} WakeAllShape(s: Server, up: set<int>, lock: int, q: seq<Client>)
    ensures var e := WakeAll(s, up, lock, q);
            && Acquirers(e.out) == q && e.s.cvs == s.cvs
            && forall k :: 0 <= k < |e.out| && e.out[k].Issued? ==> e.out[k].what == Acquire(lock)
    decreases |q|
  {
    hide IssueLock;
    if q != [] {
      var e := IssueLock(s, up, q[0], Acquire(lock));
      IssueLockShape(s, up, q[0], Acquire(lock));
      IssueAcquirers(s, up, q[0], lock);
      WakeAllShape(e.s, up, lock, q[1..]);
      AcquirersAppend(e.out, WakeAll(e.s, up, lock, q[1..]).out);
      assert e.out == [e.out[0]] + e.out[1..];
    }
  }

  lemma AcquirersThenAnswer(out: seq<Out>, c: Client, req: Request, r: Reply)
    ensures Acquirers(out + [Answer(c, req, r)]) == Acquirers(out)
  {
    AcquirersAppend(out, [Answer(c, req, r)]);
    NoneAcquire([Answer(c, req, r)]);
  }

  lemma WaitInOrder(s: Server, up: set<int>, o: CVOp, k: int)
    requires o.req.Wait?
    ensures QueueOf(s, k) + Accepted(s, up, o, k) == QueueOf(Run1(s, up, o).s, k)
  {
    hide IssueLock, Run1, DoLock;
    RunsAs(s, up, o);
    if Live(s.cvs.slots, o.slot) {
      var d := s.cvs.slots[o.slot].value.data;
      IssueLockShape(SetCV(s, o.slot, CVData(d.q + [o.client], o.req.lock)), up, o.client, Release(o.req.lock));
    }
  }

  lemma SignalInOrder(s: Server, up: set<int>, o: CVOp, k: int)
    requires o.req.Signal?
    ensures QueueOf(s, k) == Woken(s, up, o, k) + QueueOf(Run1(s, up, o).s, k)
  {
    hide IssueLock, Run1, DoLock;
    RunsAs(s, up, o);
    NoneAcquire([Answer(o.client, o.req, Status(false))]);
    NoneAcquire([Answer(o.client, o.req, Status(true))]);
    if Live(s.cvs.slots, o.slot) && s.cvs.slots[o.slot].value.data.q != [] {
      var d := s.cvs.slots[o.slot].value.data;
      var t := SetCV(s, o.slot, CVData(d.q[1..], if |d.q| == 1 then -1 else d.waitingLock));
      IssueLockShape(t, up, d.q[0], Acquire(o.req.lock));
      IssueAcquirers(t, up, d.q[0], o.req.lock);
      AcquirersThenAnswer(IssueLock(t, up, d.q[0], Acquire(o.req.lock)).out, o.client, o.req, Status(true));
    }
  }

  lemma BroadcastInOrder(s: Server, up: set<int>, o: CVOp, k: int)
    requires o.req.Broadcast?
    ensures QueueOf(s, k) == Woken(s, up, o, k) + QueueOf(Run1(s, up, o).s, k)
  {
    hide WakeAll, Run1, DoLock;
    RunsAs(s, up, o);
    NoneAcquire([Answer(o.client, o.req, Status(false))]);
    if Live(s.cvs.slots, o.slot) {
      var d := s.cvs.slots[o.slot].value.data;
      var t := if d.q == [] then s else SetCV(s, o.slot, CVData([], -1));
      WakeAllShape(t, up, o.req.lock, d.q);
      AcquirersThenAnswer(WakeAll(t, up, o.req.lock, d.q).out, o.client, o.req, Status(true));
    }
  }

  lemma OneInOrder(s: Server, up: set<int>, o: CVOp, k: int)
    requires IsCVOp(o)
    ensures QueueOf(s, k) + Accepted(s, up, o, k) == Woken(s, up, o, k) + QueueOf(Run1(s, up, o).s, k)
  {
    hide Run1, QueueOf;
    match o.req
    case Wait(_, _) => WaitInOrder(s, up, o, k);
    case Signal(_, _) => SignalInOrder(s, up, o, k);
    case Broadcast(_, _) => BroadcastInOrder(s, up, o, k);
  }

  /** Waiters are woken in the order in which they were accepted: those waiting at the start and those
      accepted since are, in order, those woken and those still waiting. */
  lemma {:induction false} WokenInOrder(s: Server, up: set<int>, ops: CVOps, k: int)
    ensures QueueOf(s, k) + AllAccepted(s, up, ops, k) == AllWoken(s, up, ops, k) + QueueOf(Serve(s, up, ops), k)
    decreases |ops|
  {
    hide Run1, QueueOf, Accepted, Woken;
    if ops != [] {
      var t := Run1(s, up, ops[0]).s;
      OneInOrder(s, up, ops[0], k);
      WokenInOrder(t, up, ops[1..], k);
      Regroup(QueueOf(s, k), Accepted(s, up, ops[0], k), AllAccepted(t, up, ops[1..], k), Woken(s, up, ops[0], k),
                          QueueOf(t, k), AllWoken(t, up, ops[1..], k), QueueOf(Serve(t, up, ops[1..]), k));
    }
  }

  /** Broadcast does not compare its lock with the one the waiters wait with: they reacquire their
      own lock if and only if the caller names it. */
  lemma BroadcastReacquiresOwnLock(s: Server, up: set<int>, i: int, lock: int, c: Client, req: Request)
    requires Live(s.cvs.slots, i) && s.cvs.slots[i].value.data.q != []
    ensures var own := s.cvs.slots[i].value.data.waitingLock;
            var out := DoBroadcast(s, up, i, lock, c, req).out;
            (forall k :: 0 <= k < |out| && out[k].Issued? ==> out[k].what == Acquire(own)) <==> lock == own
  {
    hide IssueLock;
    var d := s.cvs.slots[i].value.data;
    var t := SetCV(s, i, CVData([], -1));
    WakeAllShape(t, up, lock, d.q);
    IssueLockShape(t, up, d.q[0], Acquire(lock));
    var e := WakeAll(t, up, lock, d.q);
    assert e.out[0] == Issued(d.q[0], Acquire(lock));
    assert DoBroadcast(s, up, i, lock, c, req).out[0] == e.out[0];
  }

  /** A wait is accepted, and its client put at the end of the queue with a release of the lock issued for it,
      if and only if the variable is there and nobody waits on it with another lock; else it fails. */
  lemma WaitAcceptedIff(s: Server, up: set<int>, o: CVOp)
    requires o.req.Wait?
    ensures var e := Run1(s, up, o);
            var k := o.slot;
            if Live(s.cvs.slots, k) && s.cvs.slots[k].value.data.waitingLock in {-1, o.req.lock} then
              && e.out != [] && e.out[0] == Issued(o.client, Release(o.req.lock))
              && Live(e.s.cvs.slots, k) && e.s.cvs.slots[k].value.data == CVData(QueueOf(s, k) + [o.client], o.req.lock)
            else e == Eff(s, [Answer(o.client, o.req, Status(false))])
  {
    hide IssueLock, Run1;
    RunsAs(s, up, o);
    if Live(s.cvs.slots, o.slot) {
      var d := s.cvs.slots[o.slot].value.data;
      IssueLockShape(SetCV(s, o.slot, CVData(d.q + [o.client], o.req.lock)), up, o.client, Release(o.req.lock));
    }
  }

  /** A signal with the waiters' lock wakes the one that waited longest, with an acquire of the lock issued for
      it, and forgets the lock with the last; it fails if the variable is not there or the waiters' lock is
      another; with no waiters it succeeds and does nothing. */
  lemma SignalWakesIff(s: Server, up: set<int>, o: CVOp)
    requires o.req.Signal?
    requires Live(s.cvs.slots, o.slot) ==> (s.cvs.slots[o.slot].value.data.waitingLock == -1 <==> QueueOf(s, o.slot) == [])
    ensures var e := Run1(s, up, o);
            var k := o.slot;
            var q := QueueOf(s, k);
            if !Live(s.cvs.slots, k) then e == Eff(s, [Answer(o.client, o.req, Status(false))])
            else if q == [] then e == Eff(s, [Answer(o.client, o.req, Status(true))])
            else if s.cvs.slots[k].value.data.waitingLock != o.req.lock then e == Eff(s, [Answer(o.client, o.req, Status(false))])
            else
              && e.out != [] && e.out[0] == Issued(q[0], Acquire(o.req.lock)) && e.out[|e.out| - 1] == Answer(o.client, o.req, Status(true))
              && Live(e.s.cvs.slots, k) && e.s.cvs.slots[k].value.data == CVData(q[1..], if |q| == 1 then -1 else o.req.lock)
  {
    hide IssueLock, Run1;
    RunsAs(s, up, o);
    if Live(s.cvs.slots, o.slot) && QueueOf(s, o.slot) != [] {
      var d := s.cvs.slots[o.slot].value.data;
      IssueLockShape(SetCV(s, o.slot, CVData(d.q[1..], if |d.q| == 1 then -1 else d.waitingLock)), up, d.q[0], Acquire(o.req.lock));
    }
  }

  /** A broadcast empties the queue whatever lock it names: an acquire of that lock is issued for every waiter, in
      order, and it succeeds; only a variable that is not there makes it fail. */
  lemma BroadcastWakesAll(s: Server, up: set<int>, o: CVOp)
    requires o.req.Broadcast?
    requires Live(s.cvs.slots, o.slot) ==> (s.cvs.slots[o.slot].value.data.waitingLock == -1 <==> QueueOf(s, o.slot) == [])
    ensures var e := Run1(s, up, o);
            var k := o.slot;
            if !Live(s.cvs.slots, k) then e == Eff(s, [Answer(o.client, o.req, Status(false))])
            else
              && Live(e.s.cvs.slots, k) && e.s.cvs.slots[k].value.data == CVData([], -1)
              && Acquirers(e.out) == QueueOf(s, k) && e.out != [] && e.out[|e.out| - 1] == Answer(o.client, o.req, Status(true))
              && forall j :: 0 <= j < |e.out| && e.out[j].Issued? ==> e.out[j].what == Acquire(o.req.lock)
  {
    hide WakeAll, Run1;
    RunsAs(s, up, o);
    if Live(s.cvs.slots, o.slot) {
      var d := s.cvs.slots[o.slot].value.data;
      var t := if d.q == [] then s else SetCV(s, o.slot, CVData([], -1));
      WakeAllShape(t, up, o.req.lock, d.q);
      AcquirersThenAnswer(WakeAll(t, up, o.req.lock, d.q).out, o.client, o.req, Status(true));
    }
  }

  // ---- monitor variables ----

  /** A get after a set of the same variable: the set succeeds exactly for an index in range of a variable that
      is there; the get then sees the value at that index and what was there before at every other, and fails
      for an index out of range and for a variable that is not there. */
  lemma GetSeesLastSet(s: Server, up: set<int>, i: int, c: Client, set': Request, get: Request)
    requires set'.Set? && get.Get?
    ensures var live := Live(s.mvs.slots, i);
            var size := if live then |s.mvs.slots[i].value.data.v| else 0;
            var e := Do(s, up, i, c, set');
            && e.out == [Ran(i, c, set'), Answer(c, set', Status(0 <= set'.index < size))]
            && (0 <= get.index < size ==>
                  Do(e.s, up, i, c, get).out == [Ran(i, c, get), Answer(c, get, Value(true,
                    if get.index == set'.index then set'.value else s.mvs.slots[i].value.data.v[get.index]))])
            && (!(0 <= get.index < size) ==> Do(e.s, up, i, c, get).out == [Ran(i, c, get), Answer(c, get, Value(false, 0))])
  {
  }

  /** Setting one variable changes no other, and getting changes nothing. */
  lemma SetTouchesOneVariable(s: Server, up: set<int>, i: int, set': Request, j: int, get: Request, c: Client)
    requires i != j && set'.Set? && get.Get?
    ensures Do(Do(s, up, i, c, set').s, up, j, c, get).out == Do(s, up, j, c, get).out
    ensures Do(s, up, j, c, get).s == s
  {
    var t := Do(s, up, i, c, set').s;
    assert Live(t.mvs.slots, j) == Live(s.mvs.slots, j);
  }

  /** A variable just created is zero at every index up to the size asked for. */
  lemma NewVariableIsZero(s: Server, up: set<int>, c: Client, create: Request, get: Request)
    requires create.Create? && create.kind == MVKind && get.Get? && TableOk(s.mvs) && !Owns(s.mvs, create.name) && HasRoom(s.mvs)
    ensures var t := DoCreate(s, c, create).s;
            var slot := FindNamed(t.mvs.slots, create.name, 0);
            && slot != -1
            && Do(t, up, slot, c, get).out == [Ran(slot, c, get), Answer(c, get, Value(0 <= get.index < create.size, 0))]
  {
    hide FirstClear;
    FindWithinVector(s.mvs);
    CreateNamedOk(s.mvs, create.name, NewMV(create.size));
    InsertOk(s.mvs, Entry(create.name, 1, NewMV(create.size)));
    var (u, i) := CreateNamed(s.mvs, create.name, NewMV(create.size));
    OnlySlot(u, i, create.name);
  }

  lemma OnlySlot(t: Table<MVData>, i: int, name: string)
    requires TableOk(t) && Live(t.slots, i) && t.slots[i].value.name == name
    ensures FindNamed(t.slots, name, 0) == i
  {
  }
}
