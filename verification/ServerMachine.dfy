/** One server as the program it is: tables, a pending list and a mailbox that its methods change
    in place, loop by loop. Every method is proved to do what the functions of Protocol say. */
module ServerMachine {
  import opened Options
  import opened Wire
  import opened Bits
  import opened Tables
  import opened Protocol
  import opened Sends
  import opened Waiters
  import opened WaitersRun

  // ---- searches ----

  /** findLockNamed, findCVNamed, findMVNamed. */
  method Find<D>(slots: seq<Option<Entry<D>>>, name: string) returns (index: int)
    ensures index == FindNamed(slots, name, 0)
  {
    index := -1;
    var i := 0;
    while i < |slots|
      invariant 0 <= i <= |slots|
      invariant index == -1 && FindNamed(slots, name, 0) == FindNamed(slots, name, i)
    {
      if slots[i] != None && slots[i].value.name == name {
        index := i;
        return;
      }
      i := i + 1;
    }
  }

  /** BitMap::Find, whose setting of the bit is left to the caller here. */
  method FindClear(bits: seq<bool>) returns (index: int)
    ensures index == FirstClear(bits, 0)
  {
    var i := 0;
    while i < |bits|
      invariant 0 <= i <= |bits| && FirstClear(bits, 0) == FirstClear(bits, i)
    {
      if !bits[i] { return i; }
      i := i + 1;
    }
    return -1;
  }

  /** createLockNamed, createCVNamed, createMV: find the name or put a fresh entry where the bitmap
      has room. With sound tables the program's ASSERT(FALSE) is never reached. */
  method CreateIn<D>(t: Table<D>, name: string, initial: D) returns (r: Table<D>, index: int)
    requires TableOk(t)
    ensures (r, index) == CreateNamed(t, name, initial)
  {
    r := t;
    index := Find(t.slots, name);
    if index == -1 {
      index := FindClear(t.bits);
      if index == -1 { return; }
      r := r.(bits := r.bits[index := true]);
      FindWithinVector(t);
      if index == |t.slots| {
        r := r.(slots := r.slots + [Some(Entry(name, 1, initial))]);
      } else if index < |t.slots| {
        r := r.(slots := r.slots[index := Some(Entry(name, 1, initial))]);
      } else {
        assert false;
      }
    } else {
      var e := t.slots[index].value;
      r := r.(slots := r.slots[index := Some(e.(count := e.count + 1))]);
    }
  }

  method FindNamedRequest(ps: seq<Pending>, kind: Kind, name: string) returns (index: int)
    ensures index == FindPendingNamed(ps, kind, name, 0)
  {
    var i := 0;
    while i < |ps|
      invariant 0 <= i <= |ps| && FindPendingNamed(ps, kind, name, 0) == FindPendingNamed(ps, kind, name, i)
    {
      if IsNamed(ps[i], kind, name) { return i; }
      i := i + 1;
    }
    return -1;
  }

  method FindRequest(ps: seq<Pending>, m: Msg) returns (index: int)
    ensures index == FindPending(ps, m, 0)
  {
    var i := 0;
    while i < |ps|
      invariant 0 <= i <= |ps| && FindPending(ps, m, 0) == FindPending(ps, m, i)
    {
      if Matches(ps[i], m) { return i; }
      i := i + 1;
    }
    return -1;
  }

  /** Sending one message after another to machines i.. is sending to all the peers from i on. */
  lemma SendOne(up: set<int>, me: int, i: nat, m: Msg)
    requires i < SERVERS
    ensures SendAll(Peers(up, me, i), m) == (if i != me && i in up then [Send(i, m)] else []) + SendAll(Peers(up, me, i + 1), m)
    ensures |Peers(up, me, i)| == (if i != me && i in up then 1 else 0) + |Peers(up, me, i + 1)|
  {
    if i != me && i in up {
      assert ([i] + Peers(up, me, i + 1))[1..] == Peers(up, me, i + 1);
    } else {
      assert [] + Peers(up, me, i + 1) == Peers(up, me, i + 1);
      assert [] + SendAll(Peers(up, me, i + 1), m) == SendAll(Peers(up, me, i + 1), m);
    }
  }

  lemma SendNone(up: set<int>, me: int, m: Msg)
    ensures Peers(up, me, SERVERS) == [] && SendAll(Peers(up, me, SERVERS), m) == []
  {
  }

  class Machine {
    const me: int
    /** The machines that postOffice->Send reaches. */
    const up: set<int>

    var locks: Table<LockData>
    var cvs: Table<CVData>
    var mvs: Table<MVData>
    var pending: seq<Pending>
    var nextID: int
    /** Everything this machine has sent, answered and done, in order. */
    var log: seq<Out>

    constructor (me: int, up: set<int>)
      ensures State() == NewServer(me) && log == [] && this.up == up
    {
      this.me, this.up := me, up;
      locks, cvs, mvs := EmptyTable(), EmptyTable(), EmptyTable();
      pending, nextID, log := [], 0, [];
    }

    function State(): Server
      reads this
    {
      Server(me, locks, cvs, mvs, pending, nextID)
    }

    /** The machine is where e leaves it, and has logged what e puts out. */
    ghost predicate Did(was: seq<Out>, e: Eff)
      reads this
    {
      State() == e.s && log == was + e.out
    }

    method Log(o: Out)
      modifies this`log
      ensures log == old(log) + [o]
    {
      log := log + [o];
    }

    // ---- locks ----

    method CheckLockAndDestroyHere(i: int)
      requires Live(locks.slots, i)
      modifies this`locks
      ensures State() == CheckLockAndDestroy(old(State()), i)
    {
      var l := locks.slots[i].value;
      if l.data.toBeDestroyed && !l.data.busy && l.count == 0 {
        locks := locks.(slots := locks.slots[i := None]);
        if i < |locks.bits| { locks := locks.(bits := locks.bits[i := false]); }
      }
    }

    method PutLock(i: int, d: LockData)
      requires Live(locks.slots, i)
      modifies this`locks
      ensures State() == SetLock(old(State()), i, d)
    {
      locks := locks.(slots := locks.slots[i := Some(locks.slots[i].value.(data := d))]);
    }

    method AcquireHere(i: int, c: Client, req: Request)
      modifies this
      ensures Did(old(log), DoAcquire(old(State()), i, c, req))
    {
      if !Live(locks.slots, i) {
        Log(Answer(c, req, Status(false)));
        return;
      }
      var d := locks.slots[i].value.data;
      if d.busy && d.owner == c {
        Log(Answer(c, req, Status(true)));
      } else if d.busy {
        PutLock(i, d.(q := d.q + [c]));
      } else {
        PutLock(i, d.(busy := true, owner := c));
        Log(Answer(c, req, Status(true)));
      }
    }

    method ReleaseHere(i: int, c: Client)
      modifies this
      ensures Did(old(log), DoRelease(old(State()), i, c))
    {
      if !Live(locks.slots, i) { return; }
      var d := locks.slots[i].value.data;
      if !(d.busy && d.owner == c) { return; }
      if d.q != [] {
        var next := d.q[0];
        PutLock(i, d.(owner := next, q := d.q[1..]));
        Log(Answer(next, Acquire(Encode(me, i)), Status(true)));
      } else {
        PutLock(i, d.(busy := false));
        CheckLockAndDestroyHere(i);
      }
    }

    method DestroyLockHere(i: int)
      modifies this
      ensures Did(old(log), DoDestroyLock(old(State()), i))
    {
      if !Live(locks.slots, i) { return; }
      var l := locks.slots[i].value;
      l := l.(data := l.data.(toBeDestroyed := true));
      l := l.(count := l.count - 1);
      locks := locks.(slots := locks.slots[i := Some(l)]);
      CheckLockAndDestroyHere(i);
    }

    method LockHere(i: int, c: Client, req: Request)
      requires req.Acquire? || req.Release? || req.DestroyLock?
      modifies this
      ensures Did(old(log), DoLock(old(State()), i, c, req))
    {
      Log(Ran(i, c, req));
      match req
      case Acquire(_) => AcquireHere(i, c, req);
      case Release(_) => ReleaseHere(i, c);
      case DestroyLock(_) => DestroyLockHere(i);
    }

    // ---- forwarding ----

    /** The loop of sendPendingRequest: try every other machine, and count those reached. */
    method SendToAll(m: Msg) returns (count: int)
      modifies this`log
      ensures count == |Peers(up, me, 0)| && log == old(log) + SendAll(Peers(up, me, 0), m)
    {
      hide Peers, SendAll;
      count := 0;
      var i := 0;
      while i < SERVERS
        invariant 0 <= i <= SERVERS
        invariant count + |Peers(up, me, i)| == |Peers(up, me, 0)|
        invariant log + SendAll(Peers(up, me, i), m) == old(log) + SendAll(Peers(up, me, 0), m)
      {
        SendOne(up, me, i, m);
        if i != me && i in up {
          Log(Send(i, m));
          count := count + 1;
        }
        i := i + 1;
      }
      SendNone(up, me, m);
      assert log + [] == log;
    }

    /** sendPendingRequest and its callers: the request stays pending unless nobody was reached. */
    method SendPending(c: Client, req: Request) returns (sent: bool)
      modifies this
      ensures var peers := Peers(up, me, 0);
              && sent == (peers != [])
              && if sent then Did(old(log), Forward(old(State()), peers, c, req))
                 else State() == old(State()).(nextID := old(nextID) + 1) && log == old(log)
    {
      hide Peers;
      var p := Pending(c, req, 0, 0, nextID);
      nextID := nextID + 1;
      var count := SendToAll(Ask(p.requestID, c, req));
      if count == 0 {
        assert log == old(log) + [];
        return false;
      }
      pending := pending + [p.(sentCount := count)];
      return true;
    }

    /** serverAcquireLock, serverReleaseLock. */
    method IssueLockHere(c: Client, req: Request)
      requires req.Acquire? || req.Release? || req.DestroyLock?
      modifies this
      ensures Did(old(log), IssueLock(old(State()), up, c, req))
    {
      hide Peers, DoLock, Forward, MyIndex;
      Log(Issued(c, req));
      var i := MyIndex(Target(req), me);
      if i != -1 {
        LockHere(i, c, req);
      } else {
        var sent := SendPending(c, req);
        if !sent { LockHere(i, c, req); }
      }
    }

    // ---- condition variables ----

    method PutCV(i: int, d: CVData)
      requires Live(cvs.slots, i)
      modifies this`cvs
      ensures State() == SetCV(old(State()), i, d)
    {
      cvs := cvs.(slots := cvs.slots[i := Some(cvs.slots[i].value.(data := d))]);
    }

    method WaitHere(i: int, lock: int, c: Client, req: Request)
      modifies this
      ensures Did(old(log), DoWait(old(State()), up, i, lock, c, req))
    {
      if !Live(cvs.slots, i) {
        Log(Answer(c, req, Status(false)));
        return;
      }
      var d := cvs.slots[i].value.data;
      if d.waitingLock == -1 { d := d.(waitingLock := lock); }
      if d.waitingLock != lock {
        Log(Answer(c, req, Status(false)));
        return;
      }
      PutCV(i, d.(q := d.q + [c]));
      IssueLockHere(c, Release(lock));
    }

    method SignalHere(i: int, lock: int, c: Client, req: Request)
      modifies this
      ensures Did(old(log), DoSignal(old(State()), up, i, lock, c, req))
    {
      if !Live(cvs.slots, i) {
        Log(Answer(c, req, Status(false)));
        return;
      }
      var d := cvs.slots[i].value.data;
      if d.waitingLock == -1 || d.q == [] {
        Log(Answer(c, req, Status(true)));
        return;
      }
      if d.waitingLock != lock {
        Log(Answer(c, req, Status(false)));
        return;
      }
      var woken := d.q[0];
      d := d.(q := d.q[1..]);
      if d.q == [] { d := d.(waitingLock := -1); }
      PutCV(i, d);
      IssueLockHere(woken, Acquire(lock));
      Log(Answer(c, req, Status(true)));
    }

    /** Take the first waiter off and issue its acquire. `others` stands for any condition variables:
        acquiring a lock never looks at them. */
    method WakeFirst(i: int, lock: int, ghost others: Table<CVData>)
      requires Live(cvs.slots, i) && cvs.slots[i].value.data.q != []
      modifies this
      ensures var was := old(State());
              var q := old(cvs.slots[i].value.data.q);
              var e := IssueLock(WithCVs(was, others), up, q[0], Acquire(lock));
              && WithCVs(State(), others) == e.s && log == old(log) + e.out
              && cvs == Popped(old(cvs), i)
    {
      hide IssueLock;
      var e := cvs.slots[i].value.data;
      var woken := e.q[0];
      e := e.(q := e.q[1..]);
      if e.q == [] { e := e.(waitingLock := -1); }
      ghost var was := State();
      PutCV(i, e);
      ghost var put := State();
      IssueLockHere(woken, Acquire(lock));
      IssueIgnoresCVs(put, up, woken, Acquire(lock), others);
      assert WithCVs(put, others) == WithCVs(was, others);
    }

    /** The program takes the waiters off one at a time, and each acquire happens with the rest still
        queued; the function empties the queue first. The two agree. */
    method BroadcastHere(i: int, lock: int, c: Client, req: Request)
      modifies this
      ensures Did(old(log), DoBroadcast(old(State()), up, i, lock, c, req))
    {
      if !Live(cvs.slots, i) {
        Log(Answer(c, req, Status(false)));
        return;
      }
      hide IssueLock;
      ghost var all := cvs.slots[i].value.data.q;
      ghost var emptied := if all == [] then State() else SetCV(State(), i, CVData([], -1));
      while cvs.slots[i].value.data.q != []
        invariant Live(cvs.slots, i) && EmptiesTo(cvs, i, emptied.cvs)
        invariant var rest := WakeAll(WithCVs(State(), emptied.cvs), up, lock, cvs.slots[i].value.data.q);
                  rest.s == WakeAll(emptied, up, lock, all).s && log + rest.out == old(log) + WakeAll(emptied, up, lock, all).out
        decreases |cvs.slots[i].value.data.q|
      {
        WakeAllOne(WithCVs(State(), emptied.cvs), up, lock, cvs.slots[i].value.data.q);
        WakeFirst(i, lock, emptied.cvs);
      }
      WakeAllNone(WithCVs(State(), emptied.cvs), up, lock);
      assert log + [] == log;
      Log(Answer(c, req, Status(true)));
    }

    method DestroyCVHere(i: int)
      modifies this
      ensures Did(old(log), DoDestroyCV(old(State()), i))
    {
      if !Live(cvs.slots, i) { return; }
      var v := cvs.slots[i].value;
      v := v.(count := v.count - 1);
      if v.data.q == [] && v.count == 0 {
        cvs := cvs.(slots := cvs.slots[i := None]);
        if i < |cvs.bits| { cvs := cvs.(bits := cvs.bits[i := false]); }
      } else {
        cvs := cvs.(slots := cvs.slots[i := Some(v)]);
      }
    }

    // ---- monitor variables ----

    method SetHere(i: int, index: int, value: int, c: Client, req: Request)
      modifies this
      ensures Did(old(log), DoSet(old(State()), i, index, value, c, req))
    {
      if !Live(mvs.slots, i) {
        Log(Answer(c, req, Status(false)));
        return;
      }
      var m := mvs.slots[i].value;
      if index < 0 || index >= |m.data.v| {
        Log(Answer(c, req, Status(false)));
        return;
      }
      mvs := mvs.(slots := mvs.slots[i := Some(m.(data := MVData(m.data.v[index := value])))]);
      Log(Answer(c, req, Status(true)));
    }

    method GetHere(i: int, index: int, c: Client, req: Request)
      modifies this
      ensures Did(old(log), DoGet(old(State()), i, index, c, req))
    {
      if !Live(mvs.slots, i) {
        Log(Answer(c, req, Value(false, 0)));
        return;
      }
      var m := mvs.slots[i].value;
      if index < 0 || index >= |m.data.v| {
        Log(Answer(c, req, Value(false, 0)));
      } else {
        Log(Answer(c, req, Value(true, m.data.v[index])));
      }
    }

    method DestroyMVHere(i: int)
      modifies this
      ensures Did(old(log), DoDestroyMV(old(State()), i))
    {
      if !Live(mvs.slots, i) { return; }
      var m := mvs.slots[i].value;
      m := m.(count := m.count - 1);
      if m.count == 0 {
        mvs := mvs.(slots := mvs.slots[i := None]);
        if i < |mvs.bits| { mvs := mvs.(bits := mvs.bits[i := false]); }
      } else {
        mvs := mvs.(slots := mvs.slots[i := Some(m)]);
      }
    }

    /** The serverDo... body of any operation by identifier. */
    method RunHere(i: int, c: Client, req: Request)
      requires !req.Create?
      modifies this
      ensures Did(old(log), Do(old(State()), up, i, c, req))
    {
      hide DoLock, DoWait, DoSignal, DoBroadcast, DoDestroyCV, DoSet, DoGet, DoDestroyMV;
      if req.Acquire? || req.Release? || req.DestroyLock? {
        LockHere(i, c, req);
        return;
      }
      Log(Ran(i, c, req));
      match req
      case Wait(_, lock) => WaitHere(i, lock, c, req);
      case Signal(_, lock) => SignalHere(i, lock, c, req);
      case Broadcast(_, lock) => BroadcastHere(i, lock, c, req);
      case DestroyCV(_) => DestroyCVHere(i);
      case Set(_, index, value) => SetHere(i, index, value, c, req);
      case Get(_, index) => GetHere(i, index, c, req);
      case DestroyMV(_) => DestroyMVHere(i);
    }

    // ---- creates ----

    /** serverDoCreateLock, serverDoCreateCV, serverDoCreateMV. */
    method CreateHere(c: Client, req: Request)
      requires req.Create? && TablesOk(State())
      modifies this
      ensures Did(old(log), DoCreate(old(State()), c, req)) && TablesOk(State())
    {
      var i;
      match req.kind {
        case LockKind =>
          CreateNamedOk(locks, req.name, LockData(false, NOBODY, [], false));
          locks, i := CreateIn(locks, req.name, LockData(false, NOBODY, [], false));
          var id := Encode(me, i);
          Log(Answer(c, req, Created(id != -1, id)));
        case CVKind =>
          CreateNamedOk(cvs, req.name, CVData([], -1));
          cvs, i := CreateIn(cvs, req.name, CVData([], -1));
          Log(Answer(c, req, Created(i != -1, if i == -1 then -1 else Encode(me, i))));
        case MVKind =>
          i := Find(mvs.slots, req.name);
          if i != -1 && |mvs.slots[i].value.data.v| != req.size {
            Log(Answer(c, req, Created(false, -1)));
          } else {
            CreateNamedOk(mvs, req.name, NewMV(req.size));
            mvs, i := CreateIn(mvs, req.name, NewMV(req.size));
            Log(Answer(c, req, Created(i != -1, if i == -1 then -1 else Encode(me, i))));
          }
      }
    }

    /** deletePendingRequest. */
    method Delete(i: int)
      requires 0 <= i < |pending|
      modifies this`pending
      ensures pending == RemoveAt(old(pending), i)
    {
      pending := pending[..i] + pending[i + 1..];
    }

    /** After a YES: no other request for this name is needed. */
    method DropAll(kind: Kind, name: string)
      modifies this`pending
      ensures pending == DropNamed(old(pending), kind, name)
    {
      var i := FindNamedRequest(pending, kind, name);
      while i != -1
        invariant i == FindPendingNamed(pending, kind, name, 0)
        invariant DropNamed(pending, kind, name) == DropNamed(old(pending), kind, name)
        decreases |pending|
      {
        Delete(i);
        i := FindNamedRequest(pending, kind, name);
      }
    }

    /** Answer one pending create of the name and delete it. */
    method AnswerOne(kind: Kind, name: string, i: int)
      requires TablesOk(State()) && i == FindPendingNamed(pending, kind, name, 0) != -1
      modifies this
      ensures TablesOk(State()) && |pending| < |old(pending)|
      ensures AnswerNamed(State(), kind, name).s == AnswerNamed(old(State()), kind, name).s
      ensures log + AnswerNamed(State(), kind, name).out == old(log) + AnswerNamed(old(State()), kind, name).out
    {
      hide DoCreate, TablesOk, AnswerNamed;
      var p := pending[i];
      DoCreateFrame(State(), p.client, p.req);
      AnswerNamedOne(State(), kind, name, log);
      CreateHere(p.client, p.req);
      ghost var created := State();
      Delete(i);
      TablesApart(created, State());
    }

    /** After the last NO: every other request for this name is answered here too. */
    method AnswerAll(kind: Kind, name: string)
      requires TablesOk(State())
      modifies this
      ensures Did(old(log), AnswerNamed(old(State()), kind, name))
    {
      hide TablesOk, AnswerNamed;
      ghost var all := AnswerNamed(State(), kind, name);
      var i := FindNamedRequest(pending, kind, name);
      while i != -1
        invariant i == FindPendingNamed(pending, kind, name, 0) && TablesOk(State())
        invariant AnswerNamed(State(), kind, name).s == all.s
        invariant log + AnswerNamed(State(), kind, name).out == old(log) + all.out
        decreases |pending|
      {
        AnswerOne(kind, name, i);
        i := FindNamedRequest(pending, kind, name);
      }
      AnswerNamedNone(State(), kind, name);
      assert log + [] == log;
    }

    // ---- messages ----

    /** A message from a client. */
    method FromClient(c: Client, req: Request)
      requires Sound(State())
      modifies this
      ensures Did(old(log), OnClient(old(State()), up, c, req)) && Sound(State())
    {
      hide Do, DoCreate, Forward, Peers, MyIndex, Sound, OwnsKey;
      SoundTables(State());
      OnClientBalanced(State(), up, c, req);
      Log(Issued(c, req));
      if req.Create? {
        var mine := Knows(req.kind, req.name);
        if mine {
          CreateHere(c, req);
        } else {
          var sent := SendPending(c, req);
          if !sent {
            TablesApart(old(State()), State());
            CreateHere(c, req);
          }
        }
      } else {
        var i := MyIndex(Target(req), me);
        if i != -1 {
          RunHere(i, c, req);
        } else {
          var sent := SendPending(c, req);
          if !sent { RunHere(i, c, req); }
        }
      }
      BalancedSound(old(State()), up, c, req);
    }

    method Knows(kind: Kind, name: string) returns (mine: bool)
      ensures mine == OwnsKey(State(), kind, name)
    {
      var i;
      match kind {
        case LockKind => i := Find(locks.slots, name);
        case CVKind => i := Find(cvs.slots, name);
        case MVKind => i := Find(mvs.slots, name);
      }
      mine := i != -1;
    }

    /** A request that another server forwarded. */
    method FromServer(from: int, m: Msg)
      requires m.Ask? && Sound(State())
      modifies this
      ensures Did(old(log), OnAsk(old(State()), up, from, m)) && Sound(State())
    {
      hide Do, DoCreate, MyIndex, Sound, OwnsKey, FindPendingNamed;
      SoundTables(State());
      OnAskBalanced(State(), up, from, m);
      if m.req.Create? {
        var mine := Knows(m.req.kind, m.req.name);
        if mine {
          Log(Send(from, Tell(m.requestID, m.client, m.req, true)));
          CreateHere(m.client, m.req);
        } else {
          var k := FindNamedRequest(pending, m.req.kind, m.req.name);
          if k != -1 && me < from {
            Log(Send(from, Tell(m.requestID, m.client, m.req, true)));
            pending := pending + [Pending(m.client, m.req, -1, 0, nextID)];
            nextID := nextID + 1;
          } else {
            Log(Send(from, Tell(m.requestID, m.client, m.req, false)));
          }
        }
      } else {
        var i := MyIndex(Target(m.req), me);
        if i != -1 {
          Log(Send(from, Tell(m.requestID, m.client, m.req, true)));
          RunHere(i, m.client, m.req);
        } else {
          Log(Send(from, Tell(m.requestID, m.client, m.req, false)));
        }
      }
      EffSound(old(State()), OnAsk(old(State()), up, from, m));
    }

    /** The last NO has come: this server handles the request itself. */
    method AllNo(i: int, req: Request)
      requires 0 <= i < |pending| && SameTarget(pending[i].req, req) && TablesOk(State())
      modifies this
      ensures Did(old(log), OnAllNo(old(State()), up, i, req))
    {
      hide Do, DoCreate, AnswerNamed, TablesOk, OpCode;
      var p := pending[i];
      if req.Create? {
        DoCreateFrame(State(), p.client, p.req);
        CreateHere(p.client, p.req);
        ghost var created := State();
        Delete(i);
        TablesApart(created, State());
        AnswerAll(req.kind, req.name);
      } else {
        RunHere(Target(req), p.client, req);
        if i < |pending| { Delete(i); }
      }
    }

    /** A reply to a request this server forwarded. */
    method FromReply(m: Msg)
      requires m.Tell? && Sound(State())
      modifies this
      ensures Did(old(log), OnTell(old(State()), up, m)) && Sound(State())
    {
      hide OnAllNo, Sound, DropNamed, FindPending, OpCode;
      SoundTables(State());
      OnTellBalanced(State(), up, m);
      var i := FindRequest(pending, m);
      if i == -1 {
      } else if m.yes {
        Delete(i);
        if m.req.Create? { DropAll(m.req.kind, m.req.name); }
      } else {
        var p := pending[i];
        p := p.(noCount := p.noCount + 1);
        pending := pending[i := p];
        if p.noCount == p.sentCount {
          TablesApart(old(State()), State());
          AllNo(i, m.req);
        }
      }
      assert old(log) + [] == old(log);
      EffSound(old(State()), OnTell(old(State()), up, m));
    }

    /** The body of Server()'s loop for a message from a server. */
    method Handle(from: int, m: Msg)
      requires Sound(State())
      modifies this
      ensures Did(old(log), OnMsg(old(State()), up, from, m)) && Sound(State())
    {
      hide OnAsk, OnTell, Sound;
      if m.Ask? { FromServer(from, m); } else { FromReply(m); }
    }
  }

  lemma SoundTables(s: Server)
    requires Sound(s)
    ensures TablesOk(s)
  {
  }

  lemma TablesApart(s: Server, t: Server)
    requires TablesOk(s) && t.locks == s.locks && t.cvs == s.cvs && t.mvs == s.mvs
    ensures TablesOk(t)
  {
  }

  lemma EffSound(s: Server, e: Eff)
    requires Balanced(s, e) && Sound(s)
    ensures Sound(e.s)
  {
  }

  lemma BalancedSound(s: Server, up: set<int>, c: Client, req: Request)
    requires Sound(s)
    ensures Sound(OnClient(s, up, c, req).s)
  {
    hide Sound, OnClient;
    OnClientBalanced(s, up, c, req);
  }

  lemma AnswerNamedNone(s: Server, kind: Kind, name: string)
    requires FindPendingNamed(s.pending, kind, name, 0) == -1
    ensures AnswerNamed(s, kind, name) == Eff(s, [])
  {
  }

  lemma AnswerNamedOne(s: Server, kind: Kind, name: string, log: seq<Out>)
    requires FindPendingNamed(s.pending, kind, name, 0) != -1
    ensures var i := FindPendingNamed(s.pending, kind, name, 0);
            var e := DoCreate(s, s.pending[i].client, s.pending[i].req);
            var rest := AnswerNamed(e.s.(pending := RemoveAt(s.pending, i)), kind, name);
            && AnswerNamed(s, kind, name).s == rest.s
            && log + AnswerNamed(s, kind, name).out == (log + e.out) + rest.out
  {
    hide DoCreate;
  }

  function Popped(t: Table<CVData>, i: int): Table<CVData>
    requires Live(t.slots, i) && t.slots[i].value.data.q != []
  {
    var d := t.slots[i].value.data;
    Update(t, i, t.slots[i].value.(data := CVData(d.q[1..], if |d.q| == 1 then -1 else d.waitingLock)))
  }

  lemma WakeAllOne(s: Server, up: set<int>, lock: int, q: seq<Client>)
    requires q != []
    ensures var e := IssueLock(s, up, q[0], Acquire(lock));
            && WakeAll(s, up, lock, q).s == WakeAll(e.s, up, lock, q[1..]).s
            && forall log: seq<Out> :: log + WakeAll(s, up, lock, q).out == (log + e.out) + WakeAll(e.s, up, lock, q[1..]).out
  {
  }

  /** The same server with other condition variables. */
  ghost function WithCVs(s: Server, cvs: Table<CVData>): Server { s.(cvs := cvs) }

  /** Emptying slot i of the table gives the other one. */
  ghost predicate EmptiesTo(t: Table<CVData>, i: int, emptied: Table<CVData>) {
    Live(t.slots, i) && emptied == if t.slots[i].value.data.q == [] then t else Update(t, i, t.slots[i].value.(data := CVData([], -1)))
  }

  lemma WakeAllNone(s: Server, up: set<int>, lock: int)
    ensures WakeAll(s, up, lock, []) == Eff(s, [])
  {
  }

  lemma IssueIgnoresCVs(s: Server, up: set<int>, c: Client, req: Request, cvs: Table<CVData>)
    requires req.Acquire?
    ensures var e := IssueLock(s, up, c, req);
            IssueLock(WithCVs(s, cvs), up, c, req) == Eff(WithCVs(e.s, cvs), e.out) && e.s.cvs == s.cvs
  {
  }
}
